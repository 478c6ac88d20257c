/** Environment maps and the "special variable" merge every environment
    builder of the harness shares: a special variable whose name is already
    present is a configuration error, never a silent override. */
module Environment {
  import opened Base

  type Env = map<string, string>

  /** Adds `vars` to `env`, failing if any name is already defined. */
  function StrictMerge(env: Env, vars: Env): Option<Env>
  {
    if env.Keys !! vars.Keys then Some(env + vars) else None
  }

  /** Adds each map of `ms` in turn with StrictMerge, stopping at the first collision. */
  function StrictMergeAll(env: Env, ms: seq<Env>): Option<Env>
    decreases |ms|
  {
    if ms == [] then Some(env)
    else match StrictMerge(env, ms[0])
      case None => None
      case Some(e) => StrictMergeAll(e, ms[1..])
  }

  /** All maps of `ms` together. */
  function UnionAll(ms: seq<Env>): Env
    decreases |ms|
  {
    if ms == [] then map[] else ms[0] + UnionAll(ms[1..])
  }

  /** No name is defined twice: not by `env` and one of `ms`, not by two of `ms`. */
  ghost predicate NoCollision(env: Env, ms: seq<Env>)
  {
    && (forall i :: 0 <= i < |ms| ==> ms[i].Keys !! env.Keys)
    && (forall i, j :: 0 <= i < j < |ms| ==> ms[i].Keys !! ms[j].Keys)
  }

  /** The loop that adds special variables one name at a time, raising at the
      first name already present, fails exactly when the two key sets meet,
      whatever the iteration order. */
  method AddStrict(env: Env, vars: Env) returns (r: Option<Env>)
    ensures r.Some? <==> env.Keys !! vars.Keys
    ensures r.Some? ==> r.value == env + vars
    ensures r == StrictMerge(env, vars)
  {
    var acc := env;
    var todo := vars.Keys;
    while todo != {}
      invariant todo <= vars.Keys
      invariant acc == env + (map k | k in vars.Keys - todo :: vars[k])
      invariant (vars.Keys - todo) !! env.Keys
      decreases todo
    {
      var k :| k in todo;
      if k in acc {
        return None;
      }
      acc := acc[k := vars[k]];
      todo := todo - {k};
    }
    assert vars.Keys - todo == vars.Keys;
    assert (map k | k in vars.Keys :: vars[k]) == vars;
    return Some(acc);
  }

  /** Adding several sources in order succeeds exactly when no name is
      defined twice, and then yields every definition. */
  lemma {:induction false} StrictMergeAllMeaning(env: Env, ms: seq<Env>)
    ensures StrictMergeAll(env, ms).Some? <==> NoCollision(env, ms)
    ensures StrictMergeAll(env, ms).Some? ==> StrictMergeAll(env, ms).value == env + UnionAll(ms)
    decreases |ms|
  {
    if ms == [] {
      assert env + map[] == env;
    } else {
      NoCollisionFirst(env, ms);
      if env.Keys !! ms[0].Keys {
        var e := env + ms[0];
        StrictMergeAllMeaning(e, ms[1..]);
        assert e + UnionAll(ms[1..]) == env + (ms[0] + UnionAll(ms[1..]));
      }
    }
  }

  /** A name of the union comes from one of the sources. */
  lemma {:induction false} UnionAllFind(ms: seq<Env>, k: string) returns (i: nat)
    requires k in UnionAll(ms)
    ensures i < |ms| && k in ms[i]
    decreases |ms|
  {
    if k in UnionAll(ms[1..]) {
      var j := UnionAllFind(ms[1..], k);
      i := j + 1;
    } else {
      i := 0;
    }
  }

  /** With no name in two sources, the union holds every source's definitions. */
  lemma {:induction false} UnionAllAt(ms: seq<Env>, i: nat, k: string)
    requires forall a, b :: 0 <= a < b < |ms| ==> ms[a].Keys !! ms[b].Keys
    requires i < |ms| && k in ms[i]
    ensures k in UnionAll(ms) && UnionAll(ms)[k] == ms[i][k]
    decreases |ms|
  {
    var rest := ms[1..];
    if i == 0 {
      if k in UnionAll(rest) {
        var j := UnionAllFind(rest, k);
        assert false;
      }
    } else {
      forall a, b | 0 <= a < b < |rest| ensures rest[a].Keys !! rest[b].Keys {
        assert rest[a] == ms[a + 1] && rest[b] == ms[b + 1];
      }
      assert rest[i - 1] == ms[i];
      UnionAllAt(rest, i - 1, k);
    }
  }

  /** NoCollision, read off its first source. */
  lemma NoCollisionFirst(env: Env, ms: seq<Env>)
    requires ms != []
    ensures NoCollision(env, ms) <==> ms[0].Keys !! env.Keys && NoCollision(env + ms[0], ms[1..])
  {
    var rest := ms[1..];
    var e := env + ms[0];
    if NoCollision(env, ms) {
      forall i | 0 <= i < |rest| ensures rest[i].Keys !! e.Keys {
        assert rest[i] == ms[i + 1];
      }
      forall i, j | 0 <= i < j < |rest| ensures rest[i].Keys !! rest[j].Keys {
        assert rest[i] == ms[i + 1] && rest[j] == ms[j + 1];
      }
    }
    if ms[0].Keys !! env.Keys && NoCollision(e, rest) {
      forall i | 0 <= i < |ms| ensures ms[i].Keys !! env.Keys {
        if i > 0 { assert ms[i] == rest[i - 1]; }
      }
      forall i, j | 0 <= i < j < |ms| ensures ms[i].Keys !! ms[j].Keys {
        assert ms[j] == rest[j - 1];
        if i > 0 { assert ms[i] == rest[i - 1]; }
      }
    }
  }

  /** Adding `a` then `b` is adding `a + b`: a collision in `a` stops the lot. */
  lemma {:induction false} StrictMergeAllAppend(env: Env, a: seq<Env>, b: seq<Env>)
    ensures StrictMergeAll(env, a + b) ==
            if StrictMergeAll(env, a).None? then None else StrictMergeAll(StrictMergeAll(env, a).value, b)
    decreases |a|
  {
    if a == [] {
      assert a + b == b;
    } else {
      assert (a + b)[0] == a[0] && (a + b)[1..] == a[1..] + b;
      if StrictMerge(env, a[0]).Some? {
        StrictMergeAllAppend(StrictMerge(env, a[0]).value, a[1..], b);
      }
    }
  }

  /** Adding one more source after `ms`. */
  lemma StrictMergeAllSnoc(env: Env, ms: seq<Env>, m: Env)
    ensures StrictMergeAll(env, ms + [m]) ==
            if StrictMergeAll(env, ms).None? then None else StrictMerge(StrictMergeAll(env, ms).value, m)
  {
    StrictMergeAllAppend(env, ms, [m]);
    if StrictMergeAll(env, ms).Some? {
      var e := StrictMergeAll(env, ms).value;
      assert [m][1..] == [];
      if StrictMerge(e, m).Some? {
        assert StrictMergeAll(StrictMerge(e, m).value, []) == StrictMerge(e, m);
      }
    }
  }
}
