/** lttng_ivc/utils/ProjectFactory.py: projects built from the marker table,
    either fresh in a temporary directory (get_fresh) or precooked, that is
    built once, made immutable and kept in a pickle cache that later calls
    restore after checking it against the marker table (get_precook and
    _validate_pickle). The pickle files are a map from label to the stored
    Snapshot, and the directories cleanup() removes are recorded in order. */
module Factory {
  import opened Base
  import opened BuildGraph
  import opened Lifecycle
  import opened IvcProject
  import opened MarkerTable

  /** What get_fresh and get_precook raise. */
  datatype FactoryError =
    | LabelNotPresent               // "Label is no present"
    | UnknownProject(project: string)  // KeyError on the constructor table
    | KeyError                      // a marker without 'deps', or a label missing from the table
    | RecursionLimit                // RecursionError on a cycle of precook dependencies
    | Failed(error: Error)          // what the constructor or autobuild raised

  /** The constructor table: the project name of a marker to its Project subclass. */
  function ConstructorKind(project: string): Option<Kind>
  {
    if project == "babeltrace" then Some(Babeltrace)
    else if project == "lttng-modules" then Some(LttngModules)
    else if project == "lttng-tools" then Some(LttngTools)
    else if project == "lttng-ust" then Some(LttngUst)
    else None
  }

  /** The project name each kind is registered under; Urcu has none. */
  function KindName(k: Kind): Option<string>
  {
    match k
    case Babeltrace => Some("babeltrace")
    case LttngModules => Some("lttng-modules")
    case LttngTools => Some("lttng-tools")
    case LttngUst => Some("lttng-ust")
    case Urcu => None
  }

  /** The table maps exactly the registered names, each to its own kind. */
  lemma ConstructorKindName(project: string, k: Kind)
    ensures ConstructorKind(project) == Some(k) <==> KindName(k) == Some(project)
  {
  }

  /** The table has no urcu entry. */
  lemma NoUrcuConstructor(project: string)
    ensures ConstructorKind(project) != Some(Urcu)
    ensures ConstructorKind("urcu") == None
  {
  }

  // ---------------------------------------------------------------------
  // _validate_pickle

  /** `label in pickle.dependencies`, with the position of the entry. */
  function FindDep(deps: seq<Dep>, key: string): (r: Option<nat>)
    ensures r.None? <==> forall j :: 0 <= j < |deps| ==> deps[j].key != key
    ensures r.Some? ==> r.value < |deps| && deps[r.value].key == key
    ensures r.Some? ==> forall j :: 0 <= j < r.value ==> deps[j].key != key
  {
    if deps == [] then None
    else if deps[0].key == key then Some(0)
    else
      var k := FindDep(deps[1..], key);
      if k.None? then None else Some(k.value + 1)
  }

  /** _validate_pickle(s, label): None when it raises KeyError (the label
      or its 'deps' missing from the table), otherwise whether the pickle
      may be used. The checks come in the order the source makes them. */
  function Validate(s: Snapshot, key: string, markers: map<string, Entry>, checksum: string): Option<bool>
    decreases s, 1
  {
    if s.checksum != checksum then Some(false)
    else if s.key != key then Some(false)
    else if key !in markers then None
    else if s.sha1 != markers[key].sha1 then Some(false)
    else if markers[key].deps.None? then None
    else if |markers[key].deps.value| != |s.deps| then Some(false)
    else ValidateDeps(s, markers[key].deps.value, 0, markers, checksum)
  }

  /** The loop over the declared dependencies, from the `i`-th on. */
  function ValidateDeps(s: Snapshot, deps: seq<string>, i: nat, markers: map<string, Entry>, checksum: string): Option<bool>
    requires i <= |deps|
    decreases s, 0, |deps| - i
  {
    if i == |deps| then Some(true)
    else
      var k := FindDep(s.deps, deps[i]);
      if k.None? then Some(false)
      else
        var v := Validate(s.deps[k.value].snap, deps[i], markers, checksum);
        if v != Some(true) then v else ValidateDeps(s, deps, i + 1, markers, checksum)
  }

  /** When a pickle is acceptable, stated without the order of the checks:
      it was built from the same build logic, under the label asked for,
      at the commit the table names, with as many dependencies as the
      table declares, and every declared dependency is stored under its
      label and acceptable in turn. */
  ghost predicate Accepted(s: Snapshot, key: string, markers: map<string, Entry>, checksum: string)
    decreases s, 1
  {
    && s.checksum == checksum && s.key == key && key in markers
    && s.sha1 == markers[key].sha1 && markers[key].deps.Some?
    && |markers[key].deps.value| == |s.deps|
    && forall d :: d in markers[key].deps.value ==> DepAccepted(s, d, markers, checksum)
  }

  ghost predicate DepAccepted(s: Snapshot, d: string, markers: map<string, Entry>, checksum: string)
    decreases s, 0
  {
    exists k :: 0 <= k < |s.deps| && s.deps[k].key == d && Accepted(s.deps[k].snap, d, markers, checksum)
  }

  /** On a pickled graph (dict keys distinct at every level) the check
      succeeds exactly on the acceptable pickles. */
  lemma {:induction false} ValidateAccepted(s: Snapshot, key: string, markers: map<string, Entry>, checksum: string)
    requires WellFormed(s)
    ensures Validate(s, key, markers, checksum) == Some(true) <==> Accepted(s, key, markers, checksum)
    decreases s, 1
  {
    if && s.checksum == checksum && s.key == key && key in markers
       && s.sha1 == markers[key].sha1 && markers[key].deps.Some?
       && |markers[key].deps.value| == |s.deps|
    {
      var deps := markers[key].deps.value;
      ValidateDepsAccepted(s, deps, 0, markers, checksum);
      AcceptedFromMeaning(s, deps, 0, markers, checksum);
      assert (forall j :: 0 <= j < |deps| ==> DepAccepted(s, deps[j], markers, checksum))
         <==> (forall d :: d in deps ==> DepAccepted(s, d, markers, checksum));
    }
  }

  /** Every declared dependency from the `i`-th on is acceptable. */
  ghost predicate AcceptedFrom(s: Snapshot, deps: seq<string>, i: nat, markers: map<string, Entry>, checksum: string)
    requires i <= |deps|
    decreases |deps| - i
  {
    i == |deps| || (DepAccepted(s, deps[i], markers, checksum) && AcceptedFrom(s, deps, i + 1, markers, checksum))
  }

  lemma {:induction false} AcceptedFromMeaning(s: Snapshot, deps: seq<string>, i: nat, markers: map<string, Entry>, checksum: string)
    requires i <= |deps|
    ensures AcceptedFrom(s, deps, i, markers, checksum) <==>
            forall j :: i <= j < |deps| ==> DepAccepted(s, deps[j], markers, checksum)
    decreases |deps| - i
  {
    if i < |deps| {
      AcceptedFromMeaning(s, deps, i + 1, markers, checksum);
    }
  }

  lemma {:induction false} ValidateDepsAccepted(s: Snapshot, deps: seq<string>, i: nat, markers: map<string, Entry>, checksum: string)
    requires WellFormed(s) && i <= |deps|
    ensures ValidateDeps(s, deps, i, markers, checksum) == Some(true) <==> AcceptedFrom(s, deps, i, markers, checksum)
    decreases s, 0, |deps| - i
  {
    if i < |deps| {
      var k := FindDep(s.deps, deps[i]);
      ValidateDepsAccepted(s, deps, i + 1, markers, checksum);
      if k.None? {
        assert !DepAccepted(s, deps[i], markers, checksum);
      } else {
        DepsWellFormedMeaning(s, 0);
        var v := Validate(s.deps[k.value].snap, deps[i], markers, checksum);
        ValidateAccepted(s.deps[k.value].snap, deps[i], markers, checksum);
        DepAcceptedAt(s, deps[i], k.value, markers, checksum);
        if v != Some(true) {
          assert ValidateDeps(s, deps, i, markers, checksum) == v;
        } else {
          assert ValidateDeps(s, deps, i, markers, checksum) == ValidateDeps(s, deps, i + 1, markers, checksum);
        }
      }
    }
  }

  /** Dict keys are distinct, so the dependency stored under `d` is the one at `k`. */
  lemma DepAcceptedAt(s: Snapshot, d: string, k: nat, markers: map<string, Entry>, checksum: string)
    requires WellFormed(s) && k < |s.deps| && s.deps[k].key == d
    ensures DepAccepted(s, d, markers, checksum) <==> Accepted(s.deps[k].snap, d, markers, checksum)
  {
    if DepAccepted(s, d, markers, checksum) {
      var k' :| 0 <= k' < |s.deps| && s.deps[k'].key == d && Accepted(s.deps[k'].snap, d, markers, checksum);
      SameKeySameIndex(s, k, k');
    }
  }

  lemma SameKeySameIndex(s: Snapshot, k: nat, k': nat)
    requires WellFormed(s) && k < |s.deps| && k' < |s.deps| && s.deps[k].key == s.deps[k'].key
    ensures k == k'
  {
    assert DepKeys(s.deps)[k'] == DepKeys(s.deps)[k];
  }

  /** With distinct declared labels, an acceptable pickle stores exactly the
      declared dependencies. */
  lemma AcceptedDepsMatch(s: Snapshot, key: string, markers: map<string, Entry>, checksum: string)
    requires WellFormed(s) && Accepted(s, key, markers, checksum)
    requires Distinct(markers[key].deps.value)
    ensures (set k | k in DepKeys(s.deps)) == (set d | d in markers[key].deps.value)
  {
    var deps := markers[key].deps.value;
    var declared := set d | d in deps;
    var stored := set k | k in DepKeys(s.deps);
    forall d | d in declared ensures d in stored {
      var k :| 0 <= k < |s.deps| && s.deps[k].key == d && Accepted(s.deps[k].snap, d, markers, checksum);
      assert DepKeys(s.deps)[k] == d;
    }
    DistinctCard(deps);
    DistinctCard(DepKeys(s.deps));
    SubsetSameCard(declared, stored);
  }

  /** A project built for a label whose declared dependencies repeat holds
      each of them once, and the length check rejects its pickle: such a
      label is rebuilt on every get_precook. */
  lemma RepeatedDepsRejected(s: Snapshot, key: string, markers: map<string, Entry>, checksum: string)
    requires key in markers && markers[key].deps.Some?
    requires DepKeys(s.deps) == Dedup(markers[key].deps.value)
    requires !Distinct(markers[key].deps.value)
    ensures Validate(s, key, markers, checksum) != Some(true)
  {
    DedupShorter(markers[key].deps.value);
  }

  /** A sequence with a repeated element loses length when deduplicated. */
  lemma {:induction false} DedupShorter<T>(s: seq<T>)
    ensures |Dedup(s)| <= |s|
    ensures !Distinct(s) ==> |Dedup(s)| < |s|
  {
    if s != [] {
      var t := s[..|s| - 1];
      DedupShorter(t);
      if !Distinct(s) && Distinct(t) {
        var i, j :| 0 <= i < j < |s| && s[i] == s[j];
        assert j == |s| - 1;
        assert s[i] == t[i];
        DedupMeaning(t);
      }
    }
  }

  lemma {:induction false} DistinctCard<T>(s: seq<T>)
    requires Distinct(s)
    ensures |set x | x in s| == |s|
  {
    if s != [] {
      var t := s[..|s| - 1];
      DistinctCard(t);
      assert (set x | x in s) == (set x | x in t) + {s[|s| - 1]};
    }
  }

  lemma SubsetSameCard<T>(a: set<T>, b: set<T>)
    requires a <= b && |a| == |b|
    ensures a == b
  {
    if a != b {
      assert !(b <= a);
      var x :| x in b && x !in a;
      assert a <= b - {x};
      assert |b - {x}| == |b| - 1;
      SubsetCard(a, b - {x});
    }
  }

  lemma {:induction false} SubsetCard<T>(a: set<T>, b: set<T>)
    requires a <= b
    ensures |a| <= |b|
  {
    if a != {} {
      var x :| x in a;
      SubsetCard(a - {x}, b - {x});
    }
  }

  // ---------------------------------------------------------------------
  // get_fresh and get_precook

  class ProjectFactory {
    /** The marker table, read once when the module is loaded. */
    const markers: map<string, Entry>
    /** The checksum of the build-logic file, taken when the module is loaded. */
    const checksum: string
    const cacheFolder: string
    /** The file names Lttng_tools looks for as the MI schema. */
    const miXsdNames: seq<string>

    /** The pickle files of the cache, by label. */
    var store: map<string, Snapshot>
    /** The directories cleanup() removed, in order. */
    var removed: seq<string>
    /** The labels whose get_precook calls are rebuilding, outermost first:
        the frames of the recursion between the constructor call and
        pickle.dump. */
    ghost var pending: seq<string>

    /** Every pickle file holds a graph that pickle.load can recreate. */
    ghost predicate Valid()
      reads this`store
    {
      forall l :: l in store ==> WellFormed(store[l])
    }

    /** Every label being rebuilt has a declared entry and, its cache
        directory having been wiped by the constructor, no pickle; and each
        was reached from the declared dependencies of the one before. */
    ghost predicate Pending()
      reads this`store, this`pending
    {
      && (forall j :: 0 <= j < |pending| ==>
            pending[j] in markers && markers[pending[j]].deps.Some? && pending[j] !in store)
      && forall j :: 0 <= j < |pending| - 1 ==> pending[j + 1] in markers[pending[j]].deps.value
    }

    /** `key` is asked for by the innermost label being rebuilt. */
    ghost predicate CalledFromTop(key: string)
      reads this`pending
    {
      |pending| > 0 ==>
        && pending[|pending| - 1] in markers && markers[pending[|pending| - 1]].deps.Some?
        && key in markers[pending[|pending| - 1]].deps.value
    }

    constructor (markers: map<string, Entry>, checksum: string, cacheFolder: string, miXsdNames: seq<string>,
                 pickles: map<string, Snapshot>)
      requires forall l :: l in pickles ==> WellFormed(pickles[l])
      ensures Valid() && Pending()
      ensures this.markers == markers && this.checksum == checksum && this.cacheFolder == cacheFolder
      ensures this.miXsdNames == miXsdNames && store == pickles && removed == [] && pending == []
    {
      this.markers := markers;
      this.checksum := checksum;
      this.cacheFolder := cacheFolder;
      this.miXsdNames := miXsdNames;
      store := pickles;
      removed := [];
      pending := [];
    }

    /** get_fresh(label, tmpdir): a new project for the marker, not yet built. */
    method GetFresh(key: string, tmpdir: string, w: World) returns (r: Result<Project, FactoryError>, run: seq<Command>)
      ensures key !in markers ==> r == Err(LabelNotPresent) && run == []
      ensures key in markers && ConstructorKind(markers[key].project).None? ==>
                r == Err(UnknownProject(markers[key].project)) && run == []
      ensures r.Err? && r.error.Failed? ==> key in markers && ConstructorKind(markers[key].project).Some?
      ensures r.Ok? ==>
        && key in markers && ConstructorKind(markers[key].project).Some?
        && fresh(r.value.Repr) && r.value.Valid() && r.value.deps == map[]
        && r.value.key == key && r.value.gitPath == markers[key].path && r.value.sha1 == markers[key].sha1
        && r.value.kind == ConstructorKind(markers[key].project).value
        && r.value.checksum == checksum && r.value.basedir == tmpdir
        && !r.value.immutable && !r.value.isConfigured && !r.value.isBuilt && !r.value.isInstalled
    {
      if key !in markers {
        return Err(LabelNotPresent), [];
      }
      var marker := markers[key];
      var kind := ConstructorKind(marker.project);
      if kind.None? {
        return Err(UnknownProject(marker.project)), [];
      }
      var created;
      created, run := Project.Create(key, marker.path, marker.sha1, kind.value, checksum, tmpdir, miXsdNames, w);
      if created.Err? {
        return Err(Failed(created.error)), run;
      }
      return Ok(created.value), run;
    }

    /** The cache directory of a label. */
    function CachePath(key: string): string
    {
      PathJoin(cacheFolder, key)
    }

    /** get_precook(label): the pickle when it is acceptable; otherwise the
        stale pickle's directories are removed and the project is built in
        the label's cache directory on top of the precooked dependencies,
        made immutable and pickled. `fuel` bounds the depth of the
        recursion, as the interpreter's recursion limit does. A label asked
        for while it is itself being rebuilt (a cycle of dependencies) never
        comes back, and a rebuild that fails leaves no pickle behind. */
    method GetPrecook(key: string, w: World, fuel: nat) returns (r: Result<Project, FactoryError>, run: seq<Command>)
      requires Valid() && Pending() && CalledFromTop(key)
      modifies this
      ensures Valid() && Pending() && pending == old(pending)
      ensures key in old(pending) ==> r.Err?
      ensures key in markers && ConstructorKind(markers[key].project).Some? && markers[key].deps.Some? &&
              (key in old(store) ==> Validate(old(store[key]), key, markers, checksum) == Some(false)) ==>
                (r.Err? ==> key !in store)
      ensures key !in markers ==> r == Err(LabelNotPresent) && run == [] && unchanged(this)
      ensures key in markers && ConstructorKind(markers[key].project).None? ==>
                r == Err(UnknownProject(markers[key].project)) && run == [] && unchanged(this)
      ensures key in markers && ConstructorKind(markers[key].project).Some? && markers[key].deps.None? ==>
                r == Err(KeyError) && run == [] && unchanged(this)
      ensures key in markers && ConstructorKind(markers[key].project).Some? && markers[key].deps.Some? &&
              key in old(store) ==>
                && (Validate(old(store[key]), key, markers, checksum) == Some(true) ==>
                      r.Ok? && r.value.Valid() && r.value.ToSnapshot() == old(store[key]) && run == [] && unchanged(this))
                && (Validate(old(store[key]), key, markers, checksum).None? ==>
                      r == Err(KeyError) && run == [] && unchanged(this))
                && (Validate(old(store[key]), key, markers, checksum) == Some(false) ==>
                      |removed| >= |old(removed)| + 2 &&
                      removed[..|old(removed)| + 2] ==
                        old(removed) + [SourcePath(old(store[key]).basedir), InstallPath(old(store[key]).basedir)])
      ensures r.Ok? ==> old(store).Keys <= store.Keys
      ensures old(removed) <= removed
      ensures r.Ok? ==> key in markers && fresh(r.value.Repr) && r.value.Valid() && Stored(r.value, key)
      ensures r.Ok? && !(key in old(store) && Validate(old(store[key]), key, markers, checksum) == Some(true)) ==>
                Precooked(r.value, key)
      decreases fuel, 3
    {
      if key !in markers {
        return Err(LabelNotPresent), [];
      }
      var marker := markers[key];
      var kind := ConstructorKind(marker.project);
      if kind.None? {
        return Err(UnknownProject(marker.project)), [];
      }
      if marker.deps.None? {
        return Err(KeyError), [];
      }
      if key in store {
        var pickled := store[key];
        var valid := Validate(pickled, key, markers, checksum);
        if valid == Some(true) {
          var p := Project.Restore(pickled);
          return Ok(p), [];
        }
        if valid.None? {
          return Err(KeyError), [];
        }
        removed := removed + [SourcePath(pickled.basedir), InstallPath(pickled.basedir)];
      }
      r, run := Rebuild(key, w, fuel);
    }

    /** The pickle file of `key` holds the state of `p`. */
    ghost predicate Stored(p: Project, key: string)
      reads this`store, p, p.Repr
      requires p.Valid()
    {
      key in store && store[key] == p.ToSnapshot()
    }

    /** What a project built by get_precook is: immutable, the marker's
        checkout in the label's cache directory, holding each declared
        dependency once in declaration order, and built and installed
        unless it is an lttng-modules project that skipped. */
    ghost predicate Precooked(p: Project, key: string)
      reads p
    {
      && key in markers && markers[key].deps.Some? && ConstructorKind(markers[key].project).Some?
      && p.immutable && p.key == key && p.sha1 == markers[key].sha1 && p.gitPath == markers[key].path
      && p.checksum == checksum && p.basedir == CachePath(key)
      && p.kind == ConstructorKind(markers[key].project).value
      && p.depKeys == Dedup(markers[key].deps.value)
      && (p.kind != LttngModules ==> p.AllSteps())
      && (p.kind == LttngModules ==> p.skip || (p.isBuilt && p.isInstalled))
    }

    /** The rebuild path of get_precook: construct in the cache directory,
        whose removal takes the label's pickle with it, precook and set
        every dependency, autobuild, mark immutable, pickle. */
    method Rebuild(key: string, w: World, fuel: nat) returns (r: Result<Project, FactoryError>, run: seq<Command>)
      requires Valid() && Pending() && CalledFromTop(key)
      requires key in markers && ConstructorKind(markers[key].project).Some? && markers[key].deps.Some?
      modifies this
      ensures Valid() && Pending() && pending == old(pending)
      ensures key in old(pending) ==> r.Err?
      ensures r.Err? ==> key !in store
      ensures r.Ok? ==> old(store).Keys <= store.Keys
      ensures old(removed) <= removed
      ensures r.Ok? ==> fresh(r.value.Repr) && r.value.Valid() && Stored(r.value, key) && Precooked(r.value, key)
      decreases fuel, 2
    {
      Enter(key);
      var created;
      created, run := Construct(key, w);
      if created.Err? {
        Leave();
        return Err(Failed(created.error)), run;
      }
      var more;
      r, more := Assemble(created.value, key, w, fuel);
      run := run + more;
    }

    /** `constructor(label, path, sha1, cache_path)` for the marker of `key`. */
    method Construct(key: string, w: World) returns (r: Result<Project, Error>, run: seq<Command>)
      requires key in markers && ConstructorKind(markers[key].project).Some? && markers[key].deps.Some?
      ensures r.Ok? ==> fresh(r.value.Repr) && r.value.Valid() && r.value.depKeys == [] && Constructed(r.value, key)
    {
      var marker := markers[key];
      r, run := Project.Create(key, marker.path, marker.sha1, ConstructorKind(marker.project).value, checksum,
                               CachePath(key), miXsdNames, w);
    }

    /** The rest of that path, from the constructed project on; the
        rebuild of `key` ends once its dependencies are set. */
    method Assemble(p: Project, key: string, w: World, fuel: nat) returns (r: Result<Project, FactoryError>, run: seq<Command>)
      requires Valid() && Pending() && |pending| > 0 && pending[|pending| - 1] == key
      requires p.Valid() && p.depKeys == [] && Constructed(p, key)
      modifies this, p.Repr
      ensures Valid() && Pending() && pending == old(pending)[..|old(pending)| - 1]
      ensures key in old(pending)[..|old(pending)| - 1] ==> r.Err?
      ensures r.Err? ==> key !in store
      ensures r.Ok? ==> old(store).Keys + {key} <= store.Keys
      ensures old(removed) <= removed
      ensures r.Ok? ==> r.value == p && fresh(p.Repr - old(p.Repr)) && p.Valid() && Stored(p, key) && Precooked(p, key)
      decreases fuel, 1
    {
      var more;
      r, more := AttachPrecooked(p, markers[key].deps.value, w, fuel);
      run := more;
      ghost var inner := pending;
      Leave();
      if r.Err? {
        return;
      }
      // Every label on the stack is followed by one of its dependencies,
      // and none of `key`'s is pending.
      forall j | 0 <= j < |pending|
        ensures pending[j] != key
      {
        assert inner[j + 1] in inner;
        assert inner[j + 1] !in markers[key].deps.value;
        assert inner[j + 1] in markers[inner[j]].deps.value;
      }
      r, more := Finish(p, key, w);
      run := run + more;
    }

    /** The constructor's rmtree of the cache directory, which holds the
        pickle file, as the rebuild of `key` starts. */
    method Enter(key: string)
      requires Valid() && Pending() && CalledFromTop(key)
      requires key in markers && markers[key].deps.Some?
      modifies this`store, this`pending
      ensures Valid() && Pending()
      ensures store == map k | k in old(store) && k != key :: old(store)[k]
      ensures pending == old(pending) + [key]
    {
      store := map k | k in store && k != key :: store[k];
      pending := pending + [key];
    }

    /** The rebuild of the innermost pending label returns. */
    method Leave()
      requires Pending() && |pending| > 0
      modifies this`pending
      ensures Pending() && pending == old(pending)[..|old(pending)| - 1]
    {
      pending := pending[..|pending| - 1];
    }

    /** A project of `key` just constructed in the cache directory:
        nothing built, no dependencies set yet. */
    ghost predicate Constructed(p: Project, key: string)
      reads p
    {
      && key in markers && markers[key].deps.Some? && ConstructorKind(markers[key].project).Some?
      && !p.immutable && !p.isConfigured && !p.isBuilt && !p.isInstalled
      && p.key == key && p.sha1 == markers[key].sha1 && p.gitPath == markers[key].path
      && p.checksum == checksum && p.basedir == CachePath(key)
      && p.kind == ConstructorKind(markers[key].project).value
    }

    /** A project of `key` in the cache directory with its dependencies set
        and nothing built yet. */
    ghost predicate Prepared(p: Project, key: string)
      reads p
    {
      Constructed(p, key) && p.depKeys == Dedup(markers[key].deps.value)
    }

    /** The end of get_precook: autobuild, `_immutable = True`, pickle.dump. */
    method Finish(p: Project, key: string, w: World) returns (r: Result<Project, FactoryError>, run: seq<Command>)
      requires Valid() && p.Valid() && Prepared(p, key)
      modifies this`store, p.Repr
      ensures Valid() && p.Valid() && p.Repr == old(p.Repr)
      ensures old(store).Keys <= store.Keys && removed == old(removed)
      ensures store.Keys == old(store).Keys + if r.Ok? then {key} else {}
      ensures r.Ok? ==> r.value == p && Stored(p, key) && Precooked(p, key)
    {
      var built;
      built, run := AutobuildPrepared(p, key, w);
      if built.Err? {
        return Err(Failed(built.error)), run;
      }
      Seal(p, key);
      return Ok(p), run;
    }

    /** `project.autobuild()` on a prepared project: what get_precook needs
        of it is that, on success, every step flag is set, or for
        Lttng_modules that it is built and installed or skipped. */
    method AutobuildPrepared(p: Project, key: string, w: World) returns (r: Result<(), Error>, run: seq<Command>)
      requires p.Valid() && Prepared(p, key)
      modifies p.Repr`isConfigured, p.Repr`isBuilt, p.Repr`isInstalled, p.Repr`specialEnv, p.Repr`skip
      ensures p.Valid()
      ensures r.Ok? ==> (p.kind != LttngModules ==> p.AllSteps()) && (p.kind == LttngModules ==> p.Done())
    {
      r, run := p.Autobuild(w);
    }

    /** `project._immutable = True` and pickle.dump of the result. */
    method Seal(p: Project, key: string)
      requires Valid() && p.Valid()
      modifies this`store, p`immutable
      ensures Valid() && p.Valid() && p.immutable && Stored(p, key)
      ensures store.Keys == old(store).Keys + {key}
    {
      p.MarkImmutable();
      p.SnapshotWellFormed();
      Dump(key, p.ToSnapshot());
    }

    /** pickle.dump to the pickle file of `key`. */
    method Dump(key: string, s: Snapshot)
      requires Valid() && WellFormed(s)
      modifies this`store
      ensures Valid() && store == old(store)[key := s]
    {
      store := store[key := s];
    }

    /** The loop over the declared dependencies: each is precooked and set
        under its label, in order. */
    method AttachPrecooked(p: Project, deps: seq<string>, w: World, fuel: nat)
      returns (r: Result<Project, FactoryError>, run: seq<Command>)
      requires Valid() && p.Valid() && p.depKeys == []
      requires Pending() && |pending| > 0 && pending[|pending| - 1] in markers
      requires markers[pending[|pending| - 1]].deps == Some(deps)
      modifies this, p`deps, p`depKeys, p`Repr
      ensures Valid() && p.Valid() && old(p.Repr) <= p.Repr && fresh(p.Repr - old(p.Repr))
      ensures Pending() && pending == old(pending)
      ensures r.Ok? ==> r.value == p && p.depKeys == Dedup(deps)
      ensures r.Ok? ==> forall j :: 0 <= j < |deps| ==> deps[j] !in pending
      ensures r.Ok? ==> old(store).Keys <= store.Keys
      ensures old(removed) <= removed
      decreases fuel, 0
    {
      run := [];
      for i := 0 to |deps|
        invariant Valid() && p.Valid() && old(p.Repr) <= p.Repr && fresh(p.Repr - old(p.Repr))
        invariant Pending() && pending == old(pending)
        invariant p.depKeys == Dedup(deps[..i])
        invariant forall j :: 0 <= j < i ==> deps[j] !in pending
        invariant old(store).Keys <= store.Keys && old(removed) <= removed
      {
        if fuel == 0 {
          return Err(RecursionLimit), run;
        }
        var d, more := AttachNext(p, deps, i, w, fuel - 1);
        run := run + more;
        if d.Err? {
          return d, run;
        }
      }
      assert deps[..|deps|] == deps;
      return Ok(p), run;
    }

    /** The `i`-th turn of that loop, stated on the prefix of `deps` done. */
    method AttachNext(p: Project, deps: seq<string>, i: nat, w: World, fuel: nat)
      returns (r: Result<Project, FactoryError>, run: seq<Command>)
      requires Valid() && p.Valid() && Pending() && |pending| > 0 && pending[|pending| - 1] in markers
      requires markers[pending[|pending| - 1]].deps == Some(deps)
      requires i < |deps| && p.depKeys == Dedup(deps[..i])
      modifies this, p`deps, p`depKeys, p`Repr
      ensures Valid() && p.Valid() && old(p.Repr) <= p.Repr && fresh(p.Repr - old(p.Repr))
      ensures Pending() && pending == old(pending)
      ensures r.Ok? ==> p.depKeys == Dedup(deps[..i + 1]) && deps[i] !in pending
      ensures r.Ok? ==> old(store).Keys <= store.Keys
      ensures old(removed) <= removed
      decreases fuel, 5
    {
      DepKeysStep(p.depKeys, p.deps.Keys, deps, i);
      r, run := AddPrecooked(p, deps[i], w, fuel);
    }

    /** One turn of that loop: `project.dependencies[dep] = get_precook(dep)`. */
    method AddPrecooked(p: Project, dep: string, w: World, fuel: nat)
      returns (r: Result<Project, FactoryError>, run: seq<Command>)
      requires Valid() && p.Valid() && Pending() && CalledFromTop(dep)
      modifies this, p`deps, p`depKeys, p`Repr
      ensures Valid() && p.Valid() && old(p.Repr) <= p.Repr && fresh(p.Repr - old(p.Repr))
      ensures Pending() && pending == old(pending)
      ensures dep in old(pending) ==> r.Err?
      ensures r.Ok? ==> p.depKeys == if dep in old(p.deps) then old(p.depKeys) else old(p.depKeys) + [dep]
      ensures r.Ok? ==> old(store).Keys <= store.Keys
      ensures old(removed) <= removed
      decreases fuel, 4
    {
      var d;
      d, run := GetPrecook(dep, w, fuel);
      if d.Err? {
        return d, run;
      }
      p.SetDependency(dep, d.value);
      return Ok(p), run;
    }
  }

  /** Setting label `deps[i]` on a dict with keys `Dedup(deps[..i])` gives
      the keys `Dedup(deps[..i + 1])`, in insertion order. */
  lemma DepKeysStep(depKeys: seq<string>, keys: set<string>, deps: seq<string>, i: nat)
    requires i < |deps| && depKeys == Dedup(deps[..i]) && keys == (set k | k in depKeys)
    ensures Dedup(deps[..i + 1]) == if deps[i] in keys then depKeys else depKeys + [deps[i]]
  {
    assert deps[..i + 1][..i] == deps[..i];
  }
}
