/** The marker table that lttng_ivc/bootstrap.py and lttng_ivc/launch.py
    write for the test runners: every marker of the configuration file,
    resolved to a commit of its remote, under a name that must be unique.
    The git remotes are answered by a Repo value per remote path, and the
    url-to-directory encoding (a sha1 digest in bootstrap, quote_plus in
    launch) is a parameter. */
module MarkerTable {
  import opened Base

  /** One marker of the configuration file. `precookDeps` is absent when the
      marker has no precook_deps key. */
  datatype ConfigMarker = ConfigMarker(name: string, ref: string, url: string, precookDeps: Option<seq<string>>)

  /** One project of the configuration file with its marker list, which YAML
      leaves as None when the list is empty. */
  datatype ProjectMarkers = ProjectMarkers(project: string, markers: Option<seq<ConfigMarker>>)

  /** The configuration file, project by project in file order. */
  type Config = seq<ProjectMarkers>

  /** A marker together with the project it is listed under. */
  datatype Tagged = Tagged(project: string, marker: ConfigMarker)

  /** One row of the written table. `deps` is absent in the rows launch.py
      writes, which have no deps field. */
  datatype Entry = Entry(project: string, sha1: string, url: string, path: string, deps: Option<seq<string>>)

  /** What a fetched remote knows: its remote branches, its tags and the
      revisions rev_parse accepts, each with the commit it names. */
  datatype Repo = Repo(branches: map<string, string>, tags: map<string, string>, commits: map<string, string>)

  datatype SetupError =
    | UndefinedDependency(dep: string)   // "<dep> is not defined"
    | InvalidRef(marker: string)         // 'Invalid git reference for marker', exit(1)
    | Duplicate(marker: string)          // 'Duplicate for entry for marker', exit(1)
    | MissingRemote(url: string)         // KeyError on the remotes dict
    | NotAFolder                         // 'Remote path ... exists and is not a folder', exit()

  /** The markers of one project, in order; none when its list is None. */
  function Items(p: ProjectMarkers): (r: seq<Tagged>)
    ensures p.markers.None? ==> r == []
    ensures p.markers.Some? ==> |r| == |p.markers.value|
  {
    if p.markers.None? then [] else Tag(p.project, p.markers.value)
  }

  function Tag(project: string, ms: seq<ConfigMarker>): (r: seq<Tagged>)
    ensures |r| == |ms|
    decreases |ms|
  {
    if ms == [] then [] else Tag(project, ms[..|ms| - 1]) + [Tagged(project, ms[|ms| - 1])]
  }

  /** Marker `k` of the list, tagged with its project. */
  lemma {:induction false} TagAt(project: string, ms: seq<ConfigMarker>, k: nat)
    requires k < |ms|
    ensures Tag(project, ms)[k] == Tagged(project, ms[k])
    decreases |ms|
  {
    if k < |ms| - 1 {
      TagAt(project, ms[..|ms| - 1], k);
    }
  }

  /** The markers of a list appended after `pre` sit after it, in order. */
  lemma TagAfter(pre: seq<Tagged>, project: string, ms: seq<ConfigMarker>)
    ensures |pre + Tag(project, ms)| == |pre| + |ms|
    ensures forall j :: 0 <= j < |ms| ==> (pre + Tag(project, ms))[|pre| + j] == Tagged(project, ms[j])
  {
    forall j | 0 <= j < |ms| ensures (pre + Tag(project, ms))[|pre| + j] == Tagged(project, ms[j]) {
      TagAt(project, ms, j);
    }
  }

  lemma ItemsAt(p: ProjectMarkers, k: nat)
    requires p.markers.Some? && k < |p.markers.value|
    ensures Items(p)[k] == Tagged(p.project, p.markers.value[k])
  {
    TagAt(p.project, p.markers.value, k);
  }

  /** Every marker of the configuration, in the order the scripts visit them. */
  function Flatten(c: Config): seq<Tagged>
    decreases |c|
  {
    if c == [] then [] else Flatten(c[..|c| - 1]) + Items(c[|c| - 1])
  }

  lemma FlattenStep(c: Config, i: nat)
    requires i < |c|
    ensures Flatten(c[..i + 1]) == Flatten(c[..i]) + Items(c[i])
  {
    assert c[..i + 1][..i] == c[..i];
  }

  /** The marker names of `ts`. */
  function NamesOf(ts: seq<Tagged>): (r: set<string>)
    ensures forall k :: 0 <= k < |ts| ==> ts[k].marker.name in r
    decreases |ts|
  {
    if ts == [] then {} else NamesOf(ts[..|ts| - 1]) + {ts[|ts| - 1].marker.name}
  }

  /** A name of `ts` is the name of one of its markers. */
  lemma {:induction false} NamesOfFind(ts: seq<Tagged>, n: string) returns (k: nat)
    requires n in NamesOf(ts)
    ensures k < |ts| && ts[k].marker.name == n
    decreases |ts|
  {
    var front := ts[..|ts| - 1];
    if n in NamesOf(front) {
      k := NamesOfFind(front, n);
    } else {
      k := |ts| - 1;
    }
  }

  /** The remote urls of the first `i` markers of `ts`. */
  function UrlsUpTo(ts: seq<Tagged>, i: nat): (r: set<string>)
    requires i <= |ts|
    ensures forall k :: 0 <= k < i ==> ts[k].marker.url in r
  {
    if i == 0 then {} else UrlsUpTo(ts, i - 1) + {ts[i - 1].marker.url}
  }

  /** The remote urls of `ts`. */
  function UrlsOf(ts: seq<Tagged>): (r: set<string>)
    ensures forall k :: 0 <= k < |ts| ==> ts[k].marker.url in r
  {
    UrlsUpTo(ts, |ts|)
  }

  /** A url among the first `i` markers is the url of one of them. */
  lemma {:induction false} UrlsUpToFind(ts: seq<Tagged>, i: nat, u: string) returns (k: nat)
    requires i <= |ts| && u in UrlsUpTo(ts, i)
    ensures k < i && ts[k].marker.url == u
  {
    if u in UrlsUpTo(ts, i - 1) {
      k := UrlsUpToFind(ts, i - 1, u);
    } else {
      k := i - 1;
    }
  }

  /** The urls of the first `i` markers depend on those markers only. */
  lemma {:induction false} UrlsPrefix(a: seq<Tagged>, b: seq<Tagged>, i: nat)
    requires i <= |a| && i <= |b| && a[..i] == b[..i]
    ensures UrlsUpTo(a, i) == UrlsUpTo(b, i)
  {
    if i > 0 {
      assert a[..i - 1] == a[..i][..i - 1] && b[..i - 1] == b[..i][..i - 1];
      assert a[i - 1] == a[..i][i - 1];
      UrlsPrefix(a, b, i - 1);
    }
  }

  /** Every precook_deps label of the marker is a marker name. */
  predicate DepsDefined(m: ConfigMarker, names: set<string>)
  {
    m.precookDeps.Some? ==> forall d :: d in m.precookDeps.value ==> d in names
  }

  /** Every marker of `ts` has its precook_deps among `names`. */
  predicate AllDefined(ts: seq<Tagged>, names: set<string>)
  {
    forall k :: 0 <= k < |ts| ==> DepsDefined(ts[k].marker, names)
  }

  lemma NamesOfSnoc(ts: seq<Tagged>, t: Tagged)
    ensures NamesOf(ts + [t]) == NamesOf(ts) + {t.marker.name}
  {
    assert (ts + [t])[..|ts|] == ts;
  }

  /** The markers visited once project `i` has been gone through up to its
      marker `j`: a prefix of all of them. */
  lemma VisitedPrefix(config: Config, i: nat, j: nat)
    requires i < |config| && config[i].markers.Some? && j < |config[i].markers.value|
    ensures var done := Flatten(config[..i]) + Items(config[i])[..j];
      && done + [Tagged(config[i].project, config[i].markers.value[j])] == Flatten(config[..i]) + Items(config[i])[..j + 1]
      && Flatten(config[..i]) + Items(config[i])[..j + 1] <= Flatten(config)
  {
    var ts := Items(config[i]);
    ItemsAt(config[i], j);
    assert ts[..j + 1] == ts[..j] + [ts[j]];
    FlattenPrefix(config, i + 1);
    FlattenStep(config, i);
    assert ts[..j + 1] <= ts;
  }

  /** After the last marker of project `i`, or for a project without
      markers, the visited markers are those of the first `i + 1` projects. */
  lemma VisitedProject(config: Config, i: nat)
    requires i < |config|
    ensures config[i].markers.Some? ==>
      Flatten(config[..i]) + Items(config[i])[..|config[i].markers.value|] == Flatten(config[..i + 1])
    ensures config[i].markers.None? ==> Flatten(config[..i]) == Flatten(config[..i + 1])
  {
    FlattenStep(config, i);
    var ts := Items(config[i]);
    if config[i].markers.Some? {
      assert ts[..|config[i].markers.value|] == ts;
    } else {
      assert Flatten(config[..i]) + ts == Flatten(config[..i]);
    }
  }

  lemma FlattenAll(config: Config)
    ensures Flatten(config[..|config|]) == Flatten(config)
  {
    assert config[..|config|] == config;
  }

  /** The first loop of bootstrap.py: the set of every marker name, taken
      over the projects whose marker list is not None. */
  method DeclaredNames(config: Config) returns (names: set<string>)
    ensures names == NamesOf(Flatten(config))
  {
    names := {};
    for i := 0 to |config|
      invariant names == NamesOf(Flatten(config[..i]))
    {
      ghost var done := Flatten(config[..i]);
      if config[i].markers.Some? {
        var ms := config[i].markers.value;
        assert done + Items(config[i])[..0] == done;
        for j := 0 to |ms|
          invariant done == Flatten(config[..i]) + Items(config[i])[..j]
          invariant names == NamesOf(done)
        {
          VisitedPrefix(config, i, j);
          NamesOfSnoc(done, Tagged(config[i].project, ms[j]));
          names := names + {ms[j].name};
          done := done + [Tagged(config[i].project, ms[j])];
        }
      }
      VisitedProject(config, i);
    }
    FlattenAll(config);
  }

  /** The second loop of bootstrap.py: every precook_deps label must be the
      name of some marker, otherwise setup stops at the first one that is not. */
  method CheckPrecookDeps(config: Config, names: set<string>) returns (r: Result<(), SetupError>)
    ensures r.Ok? <==> AllDefined(Flatten(config), names)
    ensures r.Err? ==>
      && r.error.UndefinedDependency? && r.error.dep !in names
      && exists k :: 0 <= k < |Flatten(config)| && Flatten(config)[k].marker.precookDeps.Some? &&
                     r.error.dep in Flatten(config)[k].marker.precookDeps.value
  {
    for i := 0 to |config|
      invariant AllDefined(Flatten(config[..i]), names)
    {
      if config[i].markers.Some? {
        ghost var at;
        var missing;
        missing, at := UndefinedInProject(config[i].markers.value, names);
        if missing.Some? {
          DeclaredAt(config, i, at, missing.value, names);
          return Err(UndefinedDependency(missing.value));
        }
      }
      DefinedStep(config, i, names);
    }
    FlattenAll(config);
    return Ok(());
  }

  /** One more project whose markers all have their dependencies defined
      extends the defined prefix of the visit. */
  lemma DefinedStep(config: Config, i: nat, names: set<string>)
    requires i < |config|
    requires AllDefined(Flatten(config[..i]), names)
    requires config[i].markers.Some? ==>
      forall q :: 0 <= q < |config[i].markers.value| ==> DepsDefined(config[i].markers.value[q], names)
    ensures AllDefined(Flatten(config[..i + 1]), names)
  {
    FlattenStep(config, i);
    var items := Items(config[i]);
    forall k | 0 <= k < |items| ensures DepsDefined(items[k].marker, names) {
      ItemsAt(config[i], k);
    }
  }

  /** An undefined label declared by marker `at` of project `i` is declared
      by a marker of the whole visit. */
  lemma DeclaredAt(config: Config, i: nat, at: nat, dep: string, names: set<string>)
    requires i < |config| && config[i].markers.Some? && at < |config[i].markers.value|
    requires config[i].markers.value[at].precookDeps.Some? && dep in config[i].markers.value[at].precookDeps.value
    requires dep !in names
    ensures exists k :: 0 <= k < |Flatten(config)| && Flatten(config)[k].marker.precookDeps.Some? &&
                        dep in Flatten(config)[k].marker.precookDeps.value && !DepsDefined(Flatten(config)[k].marker, names)
  {
    var front, items := Flatten(config[..i]), Items(config[i]);
    FlattenStep(config, i);
    FlattenPrefix(config, i + 1);
    var k := |front| + at;
    ItemsAt(config[i], at);
    assert items[at].marker == config[i].markers.value[at];
    var upTo := Flatten(config[..i + 1]);
    assert upTo == front + items;
    assert upTo[k] == items[at];
    assert k < |upTo| && upTo <= Flatten(config);
    assert Flatten(config)[k] == upTo[k];
  }

  /** The loop over one project's markers: the first precook_deps label
      that is not a marker name, and the marker `at` that declares it. */
  method UndefinedInProject(ms: seq<ConfigMarker>, names: set<string>) returns (missing: Option<string>, ghost at: nat)
    ensures missing.None? <==> forall q :: 0 <= q < |ms| ==> DepsDefined(ms[q], names)
    ensures missing.Some? ==>
      at < |ms| && ms[at].precookDeps.Some? && missing.value in ms[at].precookDeps.value && missing.value !in names
  {
    for j := 0 to |ms|
      invariant forall q :: 0 <= q < j ==> DepsDefined(ms[q], names)
    {
      missing := UndefinedDep(ms[j], names);
      if missing.Some? {
        return missing, j;
      }
    }
    return None, 0;
  }

  /** The innermost loop: the first precook_deps label of `m` that is not
      a marker name. */
  method UndefinedDep(m: ConfigMarker, names: set<string>) returns (missing: Option<string>)
    ensures missing.None? <==> DepsDefined(m, names)
    ensures missing.Some? ==> m.precookDeps.Some? && missing.value in m.precookDeps.value && missing.value !in names
  {
    if m.precookDeps.Some? {
      var ds := m.precookDeps.value;
      for n := 0 to |ds|
        invariant forall q :: 0 <= q < n ==> ds[q] in names
      {
        if ds[n] !in names {
          return Some(ds[n]);
        }
      }
    }
    return None;
  }

  /** A prefix of the configuration flattens to a prefix of the markers. */
  lemma {:induction false} FlattenPrefix(c: Config, i: nat)
    requires i <= |c|
    ensures Flatten(c[..i]) <= Flatten(c)
    decreases |c| - i
  {
    if i < |c| {
      FlattenPrefix(c, i + 1);
      FlattenStep(c, i);
    } else {
      assert c[..i] == c;
    }
  }

  /** The hex SHA-1 digest of a url, as `digests` lists it; hashing is not
      modelled, and a url the map leaves out names its directory itself. */
  function Digest(digests: map<string, string>, url: string): string
  {
    if url in digests then digests[url] else url
  }

  /** A fetched remote's directory: the remote folder and the encoded url. */
  function RemotePath(folder: string, encoded: string): string
  {
    folder + "/" + encoded
  }

  /** The remotes dict: each url of the configuration, once, with the
      directory derived from it. */
  function RemotesOf(ts: seq<Tagged>, folder: string, digests: map<string, string>): (r: map<string, string>)
    ensures r.Keys == UrlsOf(ts)
    ensures forall u :: u in r ==> r[u] == RemotePath(folder, Digest(digests, u))
  {
    map u | u in UrlsOf(ts) :: RemotePath(folder, Digest(digests, u))
  }

  lemma RemotesIs(r: map<string, string>, ts: seq<Tagged>, folder: string, digests: map<string, string>)
    requires r.Keys == UrlsOf(ts)
    requires forall u :: u in r ==> r[u] == RemotePath(folder, Digest(digests, u))
    ensures r == RemotesOf(ts, folder, digests)
  {
  }

  /** The remotes loop of both scripts. */
  method Remotes(config: Config, folder: string, digests: map<string, string>) returns (r: map<string, string>)
    ensures r.Keys == UrlsOf(Flatten(config))
    ensures forall u :: u in r ==> r[u] == RemotePath(folder, Digest(digests, u))
  {
    r := map[];
    for i := 0 to |config|
      invariant r.Keys == UrlsOf(Flatten(config[..i]))
      invariant forall u :: u in r ==> r[u] == RemotePath(folder, Digest(digests, u))
    {
      r := ProjectRemotes(r, config, i, folder, digests);
    }
    FlattenAll(config);
  }

  /** Some remote's directory exists and is not a folder: `notFolders`
      are the paths that exist as something other than a directory. */
  predicate Blocked(remotes: map<string, string>, notFolders: set<string>)
  {
    exists u :: u in remotes && remotes[u] in notFolders
  }

  /** The fetch loop of both scripts: the first remote whose path exists
      and is not a folder stops the script; the clones and fetches
      themselves are outside the model (their results are `repos`). */
  method FetchRemotes(remotes: map<string, string>, notFolders: set<string>) returns (r: Result<(), SetupError>)
    ensures r.Err? <==> Blocked(remotes, notFolders)
    ensures r.Err? ==> r.error == NotAFolder
  {
    var left := remotes.Keys;
    while left != {}
      invariant left <= remotes.Keys
      invariant forall u :: u in remotes && u !in left ==> remotes[u] !in notFolders
      decreases |left|
    {
      var u :| u in left;
      if remotes[u] in notFolders {
        return Err(NotAFolder);
      }
      left := left - {u};
    }
    return Ok(());
  }

  /** `all` ends with the markers `ms` of `project`, in order, from
      position `start` on. */
  ghost predicate SlotOf(all: seq<Tagged>, start: nat, project: string, ms: seq<ConfigMarker>)
  {
    && start + |ms| == |all|
    && forall j :: 0 <= j < |ms| ==> all[start + j] == Tagged(project, ms[j])
  }

  /** Where the markers of project `i` sit among those of the first `i + 1`
      projects: after the markers of the first `i`, in order. */
  lemma ProjectSlot(config: Config, i: nat)
    requires i < |config| && config[i].markers.Some?
    ensures SlotOf(Flatten(config[..i + 1]), |Flatten(config[..i])|, config[i].project, config[i].markers.value)
  {
    FlattenStep(config, i);
    TagAfter(Flatten(config[..i]), config[i].project, config[i].markers.value);
  }

  /** The urls of the first `i` projects, read off the first `i + 1`. */
  lemma UrlsSlot(config: Config, i: nat)
    requires i < |config|
    ensures |Flatten(config[..i])| <= |Flatten(config[..i + 1])|
    ensures UrlsOf(Flatten(config[..i])) == UrlsUpTo(Flatten(config[..i + 1]), |Flatten(config[..i])|)
  {
    var pre, ts := Flatten(config[..i]), Flatten(config[..i + 1]);
    FlattenStep(config, i);
    assert ts[..|pre|] == pre[..|pre|];
    UrlsPrefix(ts, pre, |pre|);
  }

  /** The marker loop over the first `i` projects, read off the first `i + 1`. */
  lemma RunnableSlot(config: Config, i: nat, remotes: map<string, string>, repos: map<string, Repo>, withDeps: bool)
    requires i < |config|
    ensures |Flatten(config[..i])| <= |Flatten(config[..i + 1])|
    ensures Runnable(Flatten(config[..i]), remotes, repos, withDeps) ==
            RunnableUpTo(Flatten(config[..i + 1]), |Flatten(config[..i])|, remotes, repos, withDeps)
  {
    var pre, ts := Flatten(config[..i]), Flatten(config[..i + 1]);
    FlattenStep(config, i);
    assert ts[..|pre|] == pre[..|pre|];
    RunnablePrefix(ts, pre, |pre|, remotes, repos, withDeps);
  }

  /** One pass of the remotes loop, over the markers of project `i`. */
  method ProjectRemotes(r0: map<string, string>, config: Config, i: nat, folder: string, digests: map<string, string>)
    returns (r: map<string, string>)
    requires i < |config|
    requires r0.Keys == UrlsOf(Flatten(config[..i]))
    requires forall u :: u in r0 ==> r0[u] == RemotePath(folder, Digest(digests, u))
    ensures r.Keys == UrlsOf(Flatten(config[..i + 1]))
    ensures forall u :: u in r ==> r[u] == RemotePath(folder, Digest(digests, u))
  {
    if config[i].markers.Some? {
      ghost var pre, ts := Flatten(config[..i]), Flatten(config[..i + 1]);
      ProjectSlot(config, i);
      UrlsSlot(config, i);
      r := AddRemotes(r0, ts, |pre|, config[i].project, config[i].markers.value, folder, digests);
    } else {
      VisitedProject(config, i);
      r := r0;
    }
  }

  /** The inner loop of the remotes loop, over the markers `ms` of one
      project, which sit at positions `start` onwards of `all`. */
  method AddRemotes(r0: map<string, string>, ghost all: seq<Tagged>, ghost start: nat, project: string, ms: seq<ConfigMarker>,
                    folder: string, digests: map<string, string>) returns (r: map<string, string>)
    requires SlotOf(all, start, project, ms)
    requires r0.Keys == UrlsUpTo(all, start)
    requires forall u :: u in r0 ==> r0[u] == RemotePath(folder, Digest(digests, u))
    ensures r.Keys == UrlsOf(all)
    ensures forall u :: u in r ==> r[u] == RemotePath(folder, Digest(digests, u))
  {
    r := r0;
    for j := 0 to |ms|
      invariant r.Keys == UrlsUpTo(all, start + j)
      invariant forall u :: u in r ==> r[u] == RemotePath(folder, Digest(digests, u))
    {
      assert all[start + j].marker.url == ms[j].url;
      r := r[ms[j].url := RemotePath(folder, Digest(digests, ms[j].url))];
    }
  }

  /** The fetched remote at `path`; a path with no clone knows no refs. */
  function RepoAt(repos: map<string, Repo>, path: string): Repo
  {
    if path in repos then repos[path] else Repo(map[], map[], map[])
  }

  /** The commit a ref names: a remote branch first, then a tag, then any
      revision rev_parse accepts. */
  function ResolveRef(repo: Repo, ref: string): (r: Option<string>)
    ensures r.Some? <==> ref in repo.branches || ref in repo.tags || ref in repo.commits
    ensures r.Some? ==> r.value == (if ref in repo.branches then repo.branches[ref]
                                    else if ref in repo.tags then repo.tags[ref] else repo.commits[ref])
  {
    if ref in repo.branches then Some(repo.branches[ref])
    else if ref in repo.tags then Some(repo.tags[ref])
    else if ref in repo.commits then Some(repo.commits[ref])
    else None
  }

  /** The row written for a marker whose ref resolves to `sha1`; bootstrap
      records deps, defaulting to [], launch does not. */
  function EntryOf(t: Tagged, path: string, sha1: string, withDeps: bool): (e: Entry)
    ensures e.project == t.project && e.sha1 == sha1 && e.url == t.marker.url && e.path == path
    ensures withDeps ==> e.deps == Some(if t.marker.precookDeps.Some? then t.marker.precookDeps.value else [])
    ensures !withDeps ==> e.deps.None?
  {
    Entry(t.project, sha1, t.marker.url, path,
          if !withDeps then None
          else if t.marker.precookDeps.Some? then t.marker.precookDeps else Some([]))
  }

  /** Adding one marker to the table: its ref must resolve, then its name
      must be new. */
  function AddMarker(acc: map<string, Entry>, t: Tagged, remotes: map<string, string>, repos: map<string, Repo>, withDeps: bool): Result<map<string, Entry>, SetupError>
  {
    if t.marker.url !in remotes then Err(MissingRemote(t.marker.url)) else
    var path := remotes[t.marker.url];
    var sha := ResolveRef(RepoAt(repos, path), t.marker.ref);
    if sha.None? then Err(InvalidRef(t.marker.name))
    else if t.marker.name in acc then Err(Duplicate(t.marker.name))
    else Ok(acc[t.marker.name := EntryOf(t, path, sha.value, withDeps)])
  }

  /** The runnable_markers dict built over the first `i` markers of `ts`
      in order, stopping at the first marker that fails. */
  function RunnableUpTo(ts: seq<Tagged>, i: nat, remotes: map<string, string>, repos: map<string, Repo>, withDeps: bool): Result<map<string, Entry>, SetupError>
    requires i <= |ts|
  {
    if i == 0 then Ok(map[])
    else match RunnableUpTo(ts, i - 1, remotes, repos, withDeps)
      case Err(e) => Err(e)
      case Ok(acc) => AddMarker(acc, ts[i - 1], remotes, repos, withDeps)
  }

  /** The runnable_markers dict built over all of `ts`. */
  function Runnable(ts: seq<Tagged>, remotes: map<string, string>, repos: map<string, Repo>, withDeps: bool): Result<map<string, Entry>, SetupError>
  {
    RunnableUpTo(ts, |ts|, remotes, repos, withDeps)
  }

  /** The ref of marker `t` resolves on its remote. */
  predicate Resolves(t: Tagged, remotes: map<string, string>, repos: map<string, Repo>)
  {
    t.marker.url in remotes && ResolveRef(RepoAt(repos, remotes[t.marker.url]), t.marker.ref).Some?
  }

  /** No two markers of `ts` share a name. */
  predicate NamesDistinct(ts: seq<Tagged>)
  {
    forall a, b :: 0 <= a < b < |ts| ==> ts[a].marker.name != ts[b].marker.name
  }

  /** The row written for marker `t` when its ref resolves. */
  function Row(t: Tagged, remotes: map<string, string>, repos: map<string, Repo>, withDeps: bool): Entry
    requires Resolves(t, remotes, repos)
  {
    EntryOf(t, remotes[t.marker.url], ResolveRef(RepoAt(repos, remotes[t.marker.url]), t.marker.ref).value, withDeps)
  }

  /** The table is written exactly when every ref resolves and no name is
      repeated; it then holds one row per marker, under the marker's name,
      and nothing else. */
  lemma RunnableMeaning(ts: seq<Tagged>, remotes: map<string, string>, repos: map<string, Repo>, withDeps: bool)
    ensures Runnable(ts, remotes, repos, withDeps).Ok? <==>
      (forall k :: 0 <= k < |ts| ==> Resolves(ts[k], remotes, repos)) && NamesDistinct(ts)
    ensures Runnable(ts, remotes, repos, withDeps).Ok? ==>
      var table := Runnable(ts, remotes, repos, withDeps).value;
      && table.Keys == NamesOf(ts)
      && forall k :: 0 <= k < |ts| ==> table[ts[k].marker.name] == Row(ts[k], remotes, repos, withDeps)
  {
    RunnableUpToMeaning(ts, |ts|, remotes, repos, withDeps);
    var r := Runnable(ts, remotes, repos, withDeps);
    if r.Ok? {
      forall n | n in NamesOf(ts) ensures n in r.value {
        var k := NamesOfFind(ts, n);
      }
    }
  }

  /** RunnableMeaning for the first `i` markers. */
  lemma RunnableUpToMeaning(ts: seq<Tagged>, i: nat, remotes: map<string, string>, repos: map<string, Repo>, withDeps: bool)
    requires i <= |ts|
    ensures RunnableUpTo(ts, i, remotes, repos, withDeps).Ok? <==>
      && (forall k :: 0 <= k < i ==> Resolves(ts[k], remotes, repos))
      && (forall a, b :: 0 <= a < b < i ==> ts[a].marker.name != ts[b].marker.name)
    ensures RunnableUpTo(ts, i, remotes, repos, withDeps).Ok? ==>
      var table := RunnableUpTo(ts, i, remotes, repos, withDeps).value;
      && (forall n :: n in table ==> exists k :: 0 <= k < i && ts[k].marker.name == n)
      && forall k :: 0 <= k < i ==> ts[k].marker.name in table && table[ts[k].marker.name] == Row(ts[k], remotes, repos, withDeps)
  {
    RunnableUpToKeys(ts, i, remotes, repos, withDeps);
    RunnableUpToOk(ts, i, remotes, repos, withDeps);
    RunnableUpToRows(ts, i, remotes, repos, withDeps);
  }

  /** The names in the table built over the first `i` markers are theirs. */
  lemma {:induction false} RunnableUpToKeys(ts: seq<Tagged>, i: nat, remotes: map<string, string>, repos: map<string, Repo>, withDeps: bool)
    requires i <= |ts|
    ensures RunnableUpTo(ts, i, remotes, repos, withDeps).Ok? ==>
      forall n :: n in RunnableUpTo(ts, i, remotes, repos, withDeps).value <==> exists k :: 0 <= k < i && ts[k].marker.name == n
  {
    if i > 0 {
      RunnableUpToKeys(ts, i - 1, remotes, repos, withDeps);
      var r := RunnableUpTo(ts, i, remotes, repos, withDeps);
      if r.Ok? {
        var prev := RunnableUpTo(ts, i - 1, remotes, repos, withDeps).value;
        assert r.value.Keys == prev.Keys + {ts[i - 1].marker.name};
        forall n | n in r.value ensures exists k :: 0 <= k < i && ts[k].marker.name == n {
          if n == ts[i - 1].marker.name {
            assert ts[i - 1].marker.name == n;
          }
        }
      }
    }
  }

  /** The table is built over the first `i` markers exactly when each of
      them resolves and none repeats a name. */
  lemma RunnableUpToOk(ts: seq<Tagged>, i: nat, remotes: map<string, string>, repos: map<string, Repo>, withDeps: bool)
    requires i <= |ts|
    ensures RunnableUpTo(ts, i, remotes, repos, withDeps).Ok? <==>
      && (forall k :: 0 <= k < i ==> Resolves(ts[k], remotes, repos))
      && (forall a, b :: 0 <= a < b < i ==> ts[a].marker.name != ts[b].marker.name)
  {
    if RunnableUpTo(ts, i, remotes, repos, withDeps).Ok? {
      RunnableUpToOkSound(ts, i, remotes, repos, withDeps);
    }
    if (forall k :: 0 <= k < i ==> Resolves(ts[k], remotes, repos))
       && (forall a, b :: 0 <= a < b < i ==> ts[a].marker.name != ts[b].marker.name) {
      RunnableUpToOkComplete(ts, i, remotes, repos, withDeps);
    }
  }

  /** A table built over the first `i` markers shows each of them resolves
      and none repeats a name. */
  lemma {:induction false} RunnableUpToOkSound(ts: seq<Tagged>, i: nat, remotes: map<string, string>, repos: map<string, Repo>, withDeps: bool)
    requires i <= |ts|
    requires RunnableUpTo(ts, i, remotes, repos, withDeps).Ok?
    ensures forall k :: 0 <= k < i ==> Resolves(ts[k], remotes, repos)
    ensures forall a, b :: 0 <= a < b < i ==> ts[a].marker.name != ts[b].marker.name
  {
    if i > 0 {
      RunnableUpToOkSound(ts, i - 1, remotes, repos, withDeps);
      RunnableUpToKeys(ts, i - 1, remotes, repos, withDeps);
      var prev := RunnableUpTo(ts, i - 1, remotes, repos, withDeps).value;
      assert ts[i - 1].marker.name !in prev;
    }
  }

  /** When each of the first `i` markers resolves and none repeats a name,
      the table is built over them. */
  lemma {:induction false} RunnableUpToOkComplete(ts: seq<Tagged>, i: nat, remotes: map<string, string>, repos: map<string, Repo>, withDeps: bool)
    requires i <= |ts|
    requires forall k :: 0 <= k < i ==> Resolves(ts[k], remotes, repos)
    requires forall a, b :: 0 <= a < b < i ==> ts[a].marker.name != ts[b].marker.name
    ensures RunnableUpTo(ts, i, remotes, repos, withDeps).Ok?
  {
    if i > 0 {
      RunnableUpToOkComplete(ts, i - 1, remotes, repos, withDeps);
      RunnableUpToKeys(ts, i - 1, remotes, repos, withDeps);
      var prev := RunnableUpTo(ts, i - 1, remotes, repos, withDeps).value;
      forall n | n in prev ensures n != ts[i - 1].marker.name {
        var a :| 0 <= a < i - 1 && ts[a].marker.name == n;
      }
    }
  }

  /** Each of the first `i` markers has its row in the table. */
  lemma {:induction false} RunnableUpToRows(ts: seq<Tagged>, i: nat, remotes: map<string, string>, repos: map<string, Repo>, withDeps: bool)
    requires i <= |ts|
    ensures RunnableUpTo(ts, i, remotes, repos, withDeps).Ok? ==>
      var table := RunnableUpTo(ts, i, remotes, repos, withDeps).value;
      forall k :: 0 <= k < i ==>
        Resolves(ts[k], remotes, repos) && ts[k].marker.name in table && table[ts[k].marker.name] == Row(ts[k], remotes, repos, withDeps)
  {
    if i > 0 {
      RunnableUpToRows(ts, i - 1, remotes, repos, withDeps);
      RunnableUpToOk(ts, i, remotes, repos, withDeps);
    }
  }

  /** A reported duplicate is a name two markers share, and with a remote
      for every url no KeyError is raised. */
  lemma RunnableFailure(ts: seq<Tagged>, remotes: map<string, string>, repos: map<string, Repo>, withDeps: bool)
    ensures var r := Runnable(ts, remotes, repos, withDeps);
      r.Err? && r.error.Duplicate? ==>
        exists a, b :: 0 <= a < b < |ts| && ts[a].marker.name == ts[b].marker.name == r.error.marker
    ensures (forall k :: 0 <= k < |ts| ==> ts[k].marker.url in remotes) ==>
      !(Runnable(ts, remotes, repos, withDeps).Err? && Runnable(ts, remotes, repos, withDeps).error.MissingRemote?)
  {
    RunnableUpToFailure(ts, |ts|, remotes, repos, withDeps);
  }

  /** RunnableFailure for the first `i` markers. */
  lemma RunnableUpToFailure(ts: seq<Tagged>, i: nat, remotes: map<string, string>, repos: map<string, Repo>, withDeps: bool)
    requires i <= |ts|
    ensures var r := RunnableUpTo(ts, i, remotes, repos, withDeps);
      r.Err? && r.error.Duplicate? ==>
        exists a, b :: 0 <= a < b < i && ts[a].marker.name == ts[b].marker.name == r.error.marker
    ensures (forall k :: 0 <= k < i ==> ts[k].marker.url in remotes) ==>
      !(RunnableUpTo(ts, i, remotes, repos, withDeps).Err? && RunnableUpTo(ts, i, remotes, repos, withDeps).error.MissingRemote?)
  {
    RunnableUpToDuplicate(ts, i, remotes, repos, withDeps);
    RunnableUpToRemotes(ts, i, remotes, repos, withDeps);
  }

  /** A reported duplicate over the first `i` markers is a name two of them share. */
  lemma {:induction false} RunnableUpToDuplicate(ts: seq<Tagged>, i: nat, remotes: map<string, string>, repos: map<string, Repo>, withDeps: bool)
    requires i <= |ts|
    ensures var r := RunnableUpTo(ts, i, remotes, repos, withDeps);
      r.Err? && r.error.Duplicate? ==>
        exists a, b :: 0 <= a < b < i && ts[a].marker.name == ts[b].marker.name == r.error.marker
  {
    if i > 0 {
      var prev := RunnableUpTo(ts, i - 1, remotes, repos, withDeps);
      var t := ts[i - 1];
      if prev.Err? {
        RunnableUpToDuplicate(ts, i - 1, remotes, repos, withDeps);
      } else if t.marker.name in prev.value {
        RunnableUpToKeys(ts, i - 1, remotes, repos, withDeps);
        var a :| 0 <= a < i - 1 && ts[a].marker.name == t.marker.name;
        assert ts[a].marker.name == ts[i - 1].marker.name;
      }
    }
  }

  /** With a remote for every url among the first `i` markers, no KeyError. */
  lemma {:induction false} RunnableUpToRemotes(ts: seq<Tagged>, i: nat, remotes: map<string, string>, repos: map<string, Repo>, withDeps: bool)
    requires i <= |ts|
    ensures (forall k :: 0 <= k < i ==> ts[k].marker.url in remotes) ==>
      !(RunnableUpTo(ts, i, remotes, repos, withDeps).Err? && RunnableUpTo(ts, i, remotes, repos, withDeps).error.MissingRemote?)
  {
    if i > 0 {
      RunnableUpToRemotes(ts, i - 1, remotes, repos, withDeps);
    }
  }

  /** The marker loop over the first `i` markers sees only those markers. */
  lemma {:induction false} RunnablePrefix(a: seq<Tagged>, b: seq<Tagged>, i: nat, remotes: map<string, string>, repos: map<string, Repo>, withDeps: bool)
    requires i <= |a| && i <= |b| && a[..i] == b[..i]
    ensures RunnableUpTo(a, i, remotes, repos, withDeps) == RunnableUpTo(b, i, remotes, repos, withDeps)
  {
    if i > 0 {
      assert a[..i - 1] == a[..i][..i - 1] && b[..i - 1] == b[..i][..i - 1];
      assert a[i - 1] == a[..i][i - 1];
      RunnablePrefix(a, b, i - 1, remotes, repos, withDeps);
    }
  }

  /** One more step of the marker loop adds the next marker to the table. */
  lemma RunnableStep(ts: seq<Tagged>, k: nat, t: Tagged, acc: map<string, Entry>, remotes: map<string, string>, repos: map<string, Repo>, withDeps: bool)
    requires k < |ts| && ts[k] == t && RunnableUpTo(ts, k, remotes, repos, withDeps) == Ok(acc)
    ensures RunnableUpTo(ts, k + 1, remotes, repos, withDeps) == AddMarker(acc, t, remotes, repos, withDeps)
  {
  }

  /** Once the marker loop has failed it stays failed with the same error. */
  lemma {:induction false} RunnableErrStays(ts: seq<Tagged>, i: nat, n: nat, remotes: map<string, string>, repos: map<string, Repo>, withDeps: bool)
    requires i <= n <= |ts| && RunnableUpTo(ts, i, remotes, repos, withDeps).Err?
    ensures RunnableUpTo(ts, n, remotes, repos, withDeps) == RunnableUpTo(ts, i, remotes, repos, withDeps)
    decreases n
  {
    if n > i {
      RunnableErrStays(ts, i, n - 1, remotes, repos, withDeps);
    }
  }

  /** A run of the marker loop that fails on a prefix fails the same way
      on the whole sequence. */
  lemma RunnablePrefixErr(ts: seq<Tagged>, p: seq<Tagged>, remotes: map<string, string>, repos: map<string, Repo>, withDeps: bool)
    requires p <= ts && Runnable(p, remotes, repos, withDeps).Err?
    ensures Runnable(ts, remotes, repos, withDeps) == Runnable(p, remotes, repos, withDeps)
  {
    assert ts[..|p|] == p[..|p|];
    RunnablePrefix(ts, p, |p|, remotes, repos, withDeps);
    RunnableErrStays(ts, |p|, |ts|, remotes, repos, withDeps);
  }

  /** The runnable_markers loop of both scripts: each marker's ref is
      resolved on the remote its url names, and a name seen before stops
      the script. */
  method RunnableMarkers(config: Config, remotes: map<string, string>, repos: map<string, Repo>, withDeps: bool)
    returns (r: Result<map<string, Entry>, SetupError>)
    ensures r == Runnable(Flatten(config), remotes, repos, withDeps)
  {
    var table: map<string, Entry> := map[];
    for i := 0 to |config|
      invariant Runnable(Flatten(config[..i]), remotes, repos, withDeps) == Ok(table)
    {
      var step := ProjectRunnable(table, config, i, remotes, repos, withDeps);
      if step.Err? {
        FlattenPrefix(config, i + 1);
        RunnablePrefixErr(Flatten(config), Flatten(config[..i + 1]), remotes, repos, withDeps);
        return step;
      }
      table := step.value;
    }
    FlattenAll(config);
    return Ok(table);
  }

  /** One pass of the outer loop of runnable_markers, over the markers of
      project `i`. */
  method ProjectRunnable(table: map<string, Entry>, config: Config, i: nat, remotes: map<string, string>, repos: map<string, Repo>, withDeps: bool)
    returns (r: Result<map<string, Entry>, SetupError>)
    requires i < |config|
    requires Runnable(Flatten(config[..i]), remotes, repos, withDeps) == Ok(table)
    ensures r == Runnable(Flatten(config[..i + 1]), remotes, repos, withDeps)
  {
    if config[i].markers.Some? {
      ghost var pre, ts := Flatten(config[..i]), Flatten(config[..i + 1]);
      ProjectSlot(config, i);
      RunnableSlot(config, i, remotes, repos, withDeps);
      r := AddProjectMarkers(table, ts, |pre|, config[i].project, config[i].markers.value, remotes, repos, withDeps);
    } else {
      VisitedProject(config, i);
      r := Ok(table);
    }
  }

  /** The body of the inner loop of runnable_markers: marker `k` of `ts`
      added to the table of the markers before it. A failure there is the
      outcome of the whole loop. */
  method MarkerStep(prev: Result<map<string, Entry>, SetupError>, ghost ts: seq<Tagged>, ghost k: nat, t: Tagged,
                    remotes: map<string, string>, repos: map<string, Repo>, withDeps: bool)
    returns (next: Result<map<string, Entry>, SetupError>)
    requires k < |ts| && ts[k] == t && prev.Ok? && prev == RunnableUpTo(ts, k, remotes, repos, withDeps)
    ensures next == RunnableUpTo(ts, k + 1, remotes, repos, withDeps)
    ensures next.Err? ==> next == Runnable(ts, remotes, repos, withDeps)
  {
    next := AddMarker(prev.value, t, remotes, repos, withDeps);
    RunnableStep(ts, k, t, prev.value, remotes, repos, withDeps);
    if next.Err? {
      RunnableErrStays(ts, k + 1, |ts|, remotes, repos, withDeps);
    }
  }

  /** The inner loop of runnable_markers over the markers `ms` of one
      project, which sit at positions `start` onwards of `all`. */
  method AddProjectMarkers(table: map<string, Entry>, ghost all: seq<Tagged>, ghost start: nat, project: string, ms: seq<ConfigMarker>,
                           remotes: map<string, string>, repos: map<string, Repo>, withDeps: bool)
    returns (r: Result<map<string, Entry>, SetupError>)
    requires SlotOf(all, start, project, ms)
    requires Ok(table) == RunnableUpTo(all, start, remotes, repos, withDeps)
    ensures r == Runnable(all, remotes, repos, withDeps)
  {
    r := Ok(table);
    for j := 0 to |ms|
      invariant r.Ok? && r == RunnableUpTo(all, start + j, remotes, repos, withDeps)
    {
      var next := MarkerStep(r, all, start + j, Tagged(project, ms[j]), remotes, repos, withDeps);
      if next.Err? {
        return next;
      }
      r := next;
    }
  }

  /** bootstrap.py: the dependency check, the remotes, the fetch loop and
      the table with deps. */
  method Bootstrap(config: Config, folder: string, digests: map<string, string>, repos: map<string, Repo>,
                   notFolders: set<string>)
    returns (r: Result<map<string, Entry>, SetupError>)
    ensures var ts := Flatten(config);
      && ((forall k :: 0 <= k < |ts| ==> DepsDefined(ts[k].marker, NamesOf(ts))) ==>
            r == if Blocked(RemotesOf(ts, folder, digests), notFolders) then Err(NotAFolder)
                 else Runnable(ts, RemotesOf(ts, folder, digests), repos, true))
      && ((exists k :: 0 <= k < |ts| && !DepsDefined(ts[k].marker, NamesOf(ts))) ==> r.Err? && r.error.UndefinedDependency?)
      && !(r.Err? && r.error.MissingRemote?)
  {
    var names := DeclaredNames(config);
    var check := CheckPrecookDeps(config, names);
    if check.Err? {
      return Err(check.error);
    }
    var remotes := Remotes(config, folder, digests);
    RemotesIs(remotes, Flatten(config), folder, digests);
    var fetched := FetchRemotes(remotes, notFolders);
    if fetched.Err? {
      return Err(fetched.error);
    }
    r := RunnableMarkers(config, remotes, repos, true);
    RunnableFailure(Flatten(config), remotes, repos, true);
  }

  /** launch.py: the remotes, the fetch loop and the table without deps. */
  method Launch(config: Config, folder: string, digests: map<string, string>, repos: map<string, Repo>,
                notFolders: set<string>)
    returns (r: Result<map<string, Entry>, SetupError>)
    ensures var remotes := RemotesOf(Flatten(config), folder, digests);
      r == if Blocked(remotes, notFolders) then Err(NotAFolder) else Runnable(Flatten(config), remotes, repos, false)
    ensures !(r.Err? && r.error.MissingRemote?)
  {
    var remotes := Remotes(config, folder, digests);
    RemotesIs(remotes, Flatten(config), folder, digests);
    var fetched := FetchRemotes(remotes, notFolders);
    if fetched.Err? {
      return Err(fetched.error);
    }
    r := RunnableMarkers(config, remotes, repos, false);
    RunnableFailure(Flatten(config), remotes, repos, false);
  }
}
