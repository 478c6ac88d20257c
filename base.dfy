/** Shared vocabulary: results with an error value, and the string operations
    the harness relies on (str.join, str.endswith, os.path.join, os.path.dirname). */
module Base {

  /** A value or the exception the source would raise instead. */
  datatype Result<+T, +E> = Ok(value: T) | Err(error: E)

  datatype Option<+T> = None | Some(value: T)

  /** Python's `delim.join(items)`. */
  function Join(items: seq<string>, delim: string): string
  {
    if |items| == 0 then ""
    else if |items| == 1 then items[0]
    else items[0] + delim + Join(items[1..], delim)
  }

  predicate StartsWith(s: string, prefix: string)
  {
    |prefix| <= |s| && s[..|prefix|] == prefix
  }

  /** Python's `s.endswith(suffix)`. */
  predicate EndsWith(s: string, suffix: string)
  {
    |suffix| <= |s| && s[|s| - |suffix|..] == suffix
  }

  /** Python's `sub in s` on two strings. */
  predicate IsInfix(sub: string, s: string)
  {
    exists i | 0 <= i <= |s| - |sub| :: InfixAt(sub, s, i)
  }

  /** `sub` occurs in `s` starting at position `i`. */
  predicate InfixAt(sub: string, s: string, i: int)
  {
    0 <= i <= |s| - |sub| && s[i..i + |sub|] == sub
  }

  /** An occurrence stays one when text is added before or after it. */
  lemma InfixAtAppend(sub: string, a: string, b: string, i: int)
    requires InfixAt(sub, b, i)
    ensures InfixAt(sub, a + b, |a| + i) && InfixAt(sub, b + a, i)
  {
    assert (a + b)[|a| + i..|a| + i + |sub|] == b[i..i + |sub|];
    assert (b + a)[i..i + |sub|] == b[i..i + |sub|];
  }

  /** `os.path.join(a, b)` for a relative component `b`. */
  function PathJoin(a: string, b: string): (r: string)
    ensures StartsWith(r, a) && EndsWith(r, b)
  {
    if a == "" || a[|a| - 1] == '/' then a + b else a + "/" + b
  }

  predicate AllSlashes(s: string)
  {
    forall i :: 0 <= i < |s| ==> s[i] == '/'
  }

  function StripTrailingSlashes(s: string): (r: string)
    ensures |r| <= |s| && r == s[..|r|]
    ensures AllSlashes(s[|r|..])
    ensures r == "" || r[|r| - 1] != '/'
  {
    if s != [] && s[|s| - 1] == '/' then
      var t := s[..|s| - 1];
      var r := StripTrailingSlashes(t);
      assert t[..|r|] == s[..|r|];
      assert s[|r|..] == t[|r|..] + ['/'];
      r
    else s
  }

  /** Position just after the last '/', or 0 when there is none. */
  function AfterLastSlash(p: string): (k: nat)
    ensures k <= |p|
    ensures k > 0 ==> p[k - 1] == '/'
    ensures forall i :: k <= i < |p| ==> p[i] != '/'
  {
    if p == [] then 0
    else if p[|p| - 1] == '/' then |p|
    else AfterLastSlash(p[..|p| - 1])
  }

  /** `os.path.dirname(p)`: the head before the last '/', trailing slashes
      removed unless the head is made of slashes only. */
  function Dirname(p: string): (r: string)
    ensures StartsWith(p, r)
  {
    var head := p[..AfterLastSlash(p)];
    if head != "" && !AllSlashes(head) then StripTrailingSlashes(head) else head
  }

  /** A sequence with no repeated element. */
  predicate Distinct<T(==)>(s: seq<T>)
  {
    forall i, j :: 0 <= i < j < |s| ==> s[i] != s[j]
  }

  /** The distinct values of `s` in order of first appearance. */
  function Dedup<T(==)>(s: seq<T>): seq<T>
  {
    if s == [] then [] else
    var d := Dedup(s[..|s| - 1]);
    if s[|s| - 1] in d then d else d + [s[|s| - 1]]
  }

  lemma {:induction false} DedupMeaning<T>(s: seq<T>)
    ensures Distinct(Dedup(s))
    ensures forall x :: x in Dedup(s) <==> x in s
  {
    if s != [] {
      var t := s[..|s| - 1];
      DedupMeaning(t);
      assert s == t + [s[|s| - 1]];
    }
  }

  /** Deduplicating a longer prefix only appends. */
  lemma {:induction false} DedupPrefix<T>(s: seq<T>, i: nat, j: nat)
    requires i <= j <= |s|
    ensures Dedup(s[..i]) <= Dedup(s[..j])
    decreases j - i
  {
    if i < j {
      DedupPrefix(s, i, j - 1);
      assert s[..j][..j - 1] == s[..j - 1];
    }
  }

  lemma {:induction false} JoinAppend(a: seq<string>, b: seq<string>, delim: string)
    requires |a| > 0 && |b| > 0
    ensures Join(a + b, delim) == Join(a, delim) + delim + Join(b, delim)
  {
    if |a| == 1 {
      assert (a + b)[1..] == b;
    } else {
      assert (a + b)[1..] == a[1..] + b;
      JoinAppend(a[1..], b, delim);
    }
  }

  /** Joining a joined group in place is the same as joining its items:
      the fold behind every recursive flag and path accessor. */
  lemma JoinFlatten(p: seq<string>, q: seq<string>, r: seq<string>, delim: string)
    requires |q| > 0
    ensures Join(p + [Join(q, delim)] + r, delim) == Join(p + q + r, delim)
  {
    var j := Join(q, delim);
    if |p| == 0 && |r| == 0 {
      assert p + [j] + r == [j];
      assert p + q + r == q;
    } else if |p| == 0 {
      assert p + [j] + r == [j] + r;
      assert p + q + r == q + r;
      JoinAppend([j], r, delim);
      JoinAppend(q, r, delim);
    } else if |r| == 0 {
      assert p + [j] + r == p + [j];
      assert p + q + r == p + q;
      JoinAppend(p, [j], delim);
      JoinAppend(p, q, delim);
    } else {
      assert p + [j] + r == p + ([j] + r);
      assert p + q + r == p + (q + r);
      JoinAppend(p, [j] + r, delim);
      JoinAppend([j], r, delim);
      JoinAppend(p, q + r, delim);
      JoinAppend(q, r, delim);
    }
  }

  /** The first item always leads the joined string. */
  lemma JoinStartsWithFirst(items: seq<string>, delim: string)
    requires |items| > 0
    ensures StartsWith(Join(items, delim), items[0])
  {
  }

  /** Every item of a join occurs in the result. */
  lemma JoinContainsItem(items: seq<string>, delim: string, k: nat)
    requires k < |items|
    ensures IsInfix(items[k], Join(items, delim))
  {
    var i := JoinItemPosition(items, delim, k);
  }

  lemma {:induction false} JoinItemPosition(items: seq<string>, delim: string, k: nat) returns (i: nat)
    requires k < |items|
    ensures InfixAt(items[k], Join(items, delim), i)
  {
    var s := Join(items, delim);
    if |items| == 1 {
      i := 0;
      assert s == items[0];
    } else if k == 0 {
      i := 0;
      assert s == items[0] + delim + Join(items[1..], delim);
      assert s[0..|items[0]|] == items[0];
    } else {
      var t := Join(items[1..], delim);
      var j := JoinItemPosition(items[1..], delim, k - 1);
      var off := |items[0]| + |delim|;
      assert s == items[0] + delim + t;
      i := off + j;
      assert s[i..i + |items[k]|] == t[j..j + |items[k]|];
    }
  }

  /** A sequence is its prefix and the rest; one more element extends the prefix. */
  lemma SplitAt<T>(s: seq<T>, n: nat)
    requires n <= |s|
    ensures s == s[..n] + s[n..]
    ensures n < |s| ==> s[..n + 1] == s[..n] + [s[n]]
  {
  }
}
