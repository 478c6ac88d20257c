/** The Project objects of lttng_ivc/utils/project.py: a node with a map of
    dependencies, build-state flags, an immutability flag and a map of
    special environment variables. The external commands it runs (git,
    ./bootstrap, ./configure, make, depmod, chrpath) are answered by a
    Lifecycle.World value, and every method returns the commands it ran.
    Every state is read off as a BuildGraph.Snapshot, on which the recursive
    accessors and get_env are specified. */
module IvcProject {
  import opened Base
  import opened Environment
  import opened BuildGraph
  import opened Lifecycle
  import Utils

  /** `m` maps the labels of `s`'s dependencies from entry `i` on to valid
      graphs inside `footprint` whose snapshots are the stored ones, and has
      no other labels. */
  ghost predicate RestoredFrom(s: Snapshot, i: nat, m: map<string, Project>, footprint: set<Project>)
    reads footprint
  {
    && i <= |s.deps|
    && (forall k :: k in m ==> k in DepKeys(s.deps) && m[k] in footprint && m[k].Repr <= footprint && m[k].Valid())
    && forall j :: i <= j < |s.deps| ==> s.deps[j].key in m && m[s.deps[j].key].ToSnapshot() == s.deps[j].snap
  }

  class Project {
    const key: string
    const gitPath: string
    const sha1: string
    const kind: Kind
    /** The checksum of the build-logic file taken at construction. */
    const checksum: string
    const basedir: string
    const logPath: string := LogPath(basedir)
    const sourcePath: string := SourcePath(basedir)
    const installPath: string := InstallPath(basedir)

    var configureFlags: seq<string>
    /** The dependency labels in dict order, and the dependencies by label. */
    var depKeys: seq<string>
    var deps: map<string, Project>
    var immutable: bool
    var isConfigured: bool
    var isBuilt: bool
    var isInstalled: bool
    var skip: bool
    var specialEnv: Env
    var miXsd: Option<string>
    ghost var Repr: set<Project>

    /** The dependency graph below this project is well formed: no cycles,
        and every dependency's footprint lies inside this one's. */
    ghost predicate Valid()
      reads this`Repr, this`deps, this`depKeys, Repr`Repr, Repr`deps, Repr`depKeys
      decreases Repr
    {
      && this in Repr
      && Distinct(depKeys)
      && deps.Keys == (set k | k in depKeys)
      && forall k :: k in deps ==>
           && deps[k] in Repr
           && deps[k].Repr <= Repr
           && this !in deps[k].Repr
           && deps[k].Valid()
    }

    /** The project as pickle stores it. */
    function ToSnapshot(): Snapshot
      reads this, Repr
      requires Valid()
      decreases Repr, 1
    {
      Snapshot(key, gitPath, sha1, kind, checksum, basedir, configureFlags, immutable,
               isConfigured, isBuilt, isInstalled, skip, specialEnv, miXsd, DepsFrom(0))
    }

    function DepsFrom(i: nat): (r: seq<Dep>)
      reads this`Repr, this`deps, this`depKeys, Repr - {this}
      requires Valid() && i <= |depKeys|
      ensures |r| == |depKeys| - i
      decreases Repr, 0, |depKeys| - i
    {
      if i == |depKeys| then [] else [Dep(depKeys[i], deps[depKeys[i]].ToSnapshot())] + DepsFrom(i + 1)
    }

    /** The snapshot lists the dependencies in dict order, each under its label. */
    lemma SnapshotDeps(i: nat)
      requires Valid() && i < |depKeys|
      ensures |ToSnapshot().deps| == |depKeys|
      ensures ToSnapshot().deps[i] == Dep(depKeys[i], deps[depKeys[i]].ToSnapshot())
      ensures ToSnapshot().deps[i].snap.isInstalled == deps[depKeys[i]].isInstalled
    {
      DepsFromAt(0, i);
    }

    lemma {:induction false} DepsFromAt(from: nat, i: nat)
      requires Valid() && from <= i < |depKeys|
      ensures DepsFrom(from)[i - from] == Dep(depKeys[i], deps[depKeys[i]].ToSnapshot())
      decreases i - from
    {
      if from < i {
        DepsFromAt(from + 1, i);
      }
    }

    /** What get_env returns in this state, for the process environment `base`. */
    ghost function EnvFor(base: Env): Result<Env, Error>
      reads this, Repr
      requires Valid()
    {
      EnvSpec(ToSnapshot(), base)
    }

    predicate AllSteps()
      reads this
    {
      isConfigured && isBuilt && isInstalled
    }

    /** The fields Project.__init__ sets before checkout and bootstrap. */
    constructor (key: string, gitPath: string, sha1: string, kind: Kind, checksum: string, tmpdir: string, ccache: Option<string>)
      ensures Valid() && Repr == {this}
      ensures ToSnapshot() == Snapshot(key, gitPath, sha1, kind, checksum, tmpdir, BaseConfigureFlags(ccache),
        false, false, false, false, false, map[], None, [])
    {
      this.key := key;
      this.gitPath := gitPath;
      this.sha1 := sha1;
      this.kind := kind;
      this.checksum := checksum;
      basedir := tmpdir;
      configureFlags := BaseConfigureFlags(ccache);
      depKeys := [];
      deps := map[];
      immutable := false;
      isConfigured := false;
      isBuilt := false;
      isInstalled := false;
      skip := false;
      specialEnv := map[];
      miXsd := None;
      Repr := {this};
    }

    /** A project as pickle.load recreates it: the stored fields, and the
        dependency dict `m` restored for `s`, whose graphs make up
        `footprint`. */
    constructor Restored(s: Snapshot, m: map<string, Project>, ghost footprint: set<Project>)
      requires Distinct(DepKeys(s.deps)) && RestoredFrom(s, 0, m, footprint)
      ensures Valid() && Repr == {this} + footprint && ToSnapshot() == s
    {
      key := s.key;
      gitPath := s.gitPath;
      sha1 := s.sha1;
      kind := s.kind;
      checksum := s.checksum;
      basedir := s.basedir;
      configureFlags := s.configureFlags;
      depKeys := DepKeys(s.deps);
      deps := m;
      immutable := s.immutable;
      isConfigured := s.isConfigured;
      isBuilt := s.isBuilt;
      isInstalled := s.isInstalled;
      skip := s.skip;
      specialEnv := s.specialEnv;
      miXsd := s.miXsd;
      Repr := {this} + footprint;
      new;
      assert deps.Keys == (set k | k in depKeys);
      SnapshotIs(s, footprint);
    }

    /** The project's own fields are those of `s`. */
    predicate OwnFieldsOf(s: Snapshot)
      reads this`configureFlags, this`immutable, this`isConfigured, this`isBuilt, this`isInstalled
      reads this`skip, this`specialEnv, this`miXsd
    {
      && key == s.key && gitPath == s.gitPath && sha1 == s.sha1 && kind == s.kind && checksum == s.checksum
      && basedir == s.basedir && configureFlags == s.configureFlags && immutable == s.immutable
      && isConfigured == s.isConfigured && isBuilt == s.isBuilt && isInstalled == s.isInstalled
      && skip == s.skip && specialEnv == s.specialEnv && miXsd == s.miXsd
    }

    /** pickle.load: a graph of new projects whose snapshot is the stored one. */
    static method Restore(s: Snapshot) returns (p: Project)
      requires WellFormed(s)
      ensures fresh(p.Repr)
      ensures p.Valid() && p.ToSnapshot() == s
      decreases s, 1
    {
      var m, footprint := RestoreDeps(s, 0);
      p := new Project.Restored(s, m, footprint);
    }

    /** The dependency dict of an unpickled project, from entry `i` on. */
    static method RestoreDeps(s: Snapshot, i: nat) returns (m: map<string, Project>, ghost footprint: set<Project>)
      requires i <= |s.deps| && Distinct(DepKeys(s.deps))
      requires DepsWellFormed(s, i)
      ensures fresh(footprint) && RestoredFrom(s, i, m, footprint)
      decreases s, 0, |s.deps| - i
    {
      if i == |s.deps| {
        return map[], {};
      }
      var d := Restore(s.deps[i].snap);
      m, footprint := RestoreDeps(s, i + 1);
      RestoredExtend(s, i, m, footprint, d);
      m := m[s.deps[i].key := d];
      footprint := footprint + d.Repr;
    }

    /** One more restored dependency, under its own label. */
    static lemma RestoredExtend(s: Snapshot, i: nat, m: map<string, Project>, footprint: set<Project>, d: Project)
      requires i < |s.deps| && Distinct(DepKeys(s.deps))
      requires RestoredFrom(s, i + 1, m, footprint)
      requires d.Valid() && d.ToSnapshot() == s.deps[i].snap
      ensures RestoredFrom(s, i, m[s.deps[i].key := d], footprint + d.Repr)
    {
      var m', footprint' := m[s.deps[i].key := d], footprint + d.Repr;
      forall k | k in m' ensures k in DepKeys(s.deps) && m'[k] in footprint' && m'[k].Repr <= footprint' && m'[k].Valid() {
        if k == s.deps[i].key {
          assert DepKeys(s.deps)[i] == k;
        } else {
          assert m'[k] == m[k];
        }
      }
      forall j | i <= j < |s.deps| ensures s.deps[j].key in m' && m'[s.deps[j].key].ToSnapshot() == s.deps[j].snap {
        if j > i {
          assert DepKeys(s.deps)[j] != DepKeys(s.deps)[i];
          assert m'[s.deps[j].key] == m[s.deps[j].key];
        }
      }
    }

    /** A snapshot is fixed by the own fields, the labels and the snapshots
        of the dependencies. */
    lemma SnapshotIs(s: Snapshot, footprint: set<Project>)
      requires Valid() && OwnFieldsOf(s) && depKeys == DepKeys(s.deps) && RestoredFrom(s, 0, deps, footprint)
      ensures ToSnapshot() == s
    {
      forall j | 0 <= j < |s.deps| ensures ToSnapshot().deps[j] == s.deps[j] {
        assert depKeys[j] == s.deps[j].key;
        SnapshotDeps(j);
      }
    }

    /** The snapshot of a valid graph has distinct labels at every level. */
    lemma {:induction false} SnapshotWellFormed()
      requires Valid()
      ensures WellFormed(ToSnapshot())
      decreases Repr
    {
      var s := ToSnapshot();
      forall i | 0 <= i < |depKeys| ensures DepKeys(s.deps)[i] == depKeys[i] && WellFormed(s.deps[i].snap) {
        SnapshotDeps(i);
        deps[depKeys[i]].SnapshotWellFormed();
      }
      assert DepKeys(s.deps) == depKeys;
      DepsWellFormedMeaning(s, 0);
    }

    /** The constructor of a kind: Project.__init__ with its checkout and
        bootstrap, then what Lttng_modules, Lttng_ust or Lttng_tools add. */
    static method Create(key: string, gitPath: string, sha1: string, kind: Kind, checksum: string, tmpdir: string,
                         miXsdNames: seq<string>, w: World) returns (r: Result<Project, Error>, run: seq<Command>)
      ensures var co := CheckoutCommand(key, gitPath, SourcePath(tmpdir), sha1, w.env);
              var bs := BootstrapCommand(key, w.env);
              && (!w.Succeeds(co) ==> r == Err(CommandFailed(key, Checkout)) && run == [co])
              && (w.Succeeds(co) && kind != LttngModules && !w.Succeeds(bs) ==>
                    r == Err(CommandFailed(key, Bootstrap)) && run == [co, bs])
              && (w.Succeeds(co) && (kind == LttngModules || w.Succeeds(bs)) ==>
                    && run == [co] + (if kind == LttngModules then [] else [bs])
                    && (r.Err? <==> kind == LttngTools && FirstXsd(w.Walk(SourcePath(tmpdir)), miXsdNames).None?))
      ensures r.Err? && r.error == MiXsdNotFound ==> kind == LttngTools
      ensures r.Ok? ==> && fresh(r.value) && r.value.Valid() && r.value.Repr == {r.value}
                        && r.value.ToSnapshot() == Snapshot(key, gitPath, sha1, kind, checksum, tmpdir,
                             BaseConfigureFlags(w.ccache) + KindConfigureFlags(kind), false, false, false, false, false,
                             KindSpecialEnv(kind, InstallPath(tmpdir)),
                             if kind == LttngTools then FirstXsd(w.Walk(SourcePath(tmpdir)), miXsdNames) else None, [])
    {
      var p := new Project(key, gitPath, sha1, kind, checksum, tmpdir, w.ccache);
      var step, more;
      step, run := p.RunCheckout(w);
      if step.Err? {
        return Err(step.error), run;
      }
      step, more := p.RunBootstrap(w);
      run := run + more;
      if step.Err? {
        return Err(step.error), run;
      }
      var kinded := p.ApplyKind(miXsdNames, w);
      if kinded.Err? {
        return Err(kinded.error), run;
      }
      return Ok(p), run;
    }

    /** What the constructor of each kind adds once Project.__init__ is done:
        Lttng_ust's configure flags, one special variable per kind, and
        Lttng_tools' machine-interface schema, whose absence raises. */
    method ApplyKind(miXsdNames: seq<string>, w: World) returns (r: Result<(), Error>)
      requires Valid() && specialEnv == map[] && miXsd == None
      modifies this`configureFlags, this`specialEnv, this`miXsd
      ensures Valid()
      ensures r.Err? <==> kind == LttngTools && FirstXsd(w.Walk(sourcePath), miXsdNames).None?
      ensures r.Err? ==> r.error == MiXsdNotFound
      ensures r.Ok? ==> && configureFlags == old(configureFlags) + KindConfigureFlags(kind)
                        && specialEnv == KindSpecialEnv(kind, installPath)
                        && miXsd == if kind == LttngTools then FirstXsd(w.Walk(sourcePath), miXsdNames) else None
    {
      AddKindFlags();
      AddKindVariable();
      r := Ok(());
      if kind == LttngTools {
        var mi := FindMiXsd(w.Walk(sourcePath), miXsdNames);
        if mi.None? {
          return Err(MiXsdNotFound);
        }
        SetMiXsd(mi);
      }
    }

    /** The configure flags Lttng_ust's constructor appends. */
    method AddKindFlags()
      requires Valid()
      modifies this`configureFlags
      ensures Valid() && configureFlags == old(configureFlags) + KindConfigureFlags(kind)
    {
      if kind == LttngUst {
        AppendConfigureFlag("--disable-man-pages");
        AppendConfigureFlag("--enable-python-agent");
        AppendConfigureFlag("--enable-java-agent-jul");
      }
    }

    /** The one special variable of each kind's constructor, added with
        add_special_env_variable to a map that is still empty. */
    method AddKindVariable()
      requires Valid() && specialEnv == map[]
      modifies this`specialEnv
      ensures Valid() && specialEnv == KindSpecialEnv(kind, installPath)
    {
      var added: Result<(), Error>;
      match kind {
        case LttngModules =>
          added := AddSpecialEnvVariable("MODPROBE_OPTIONS", "-v -d " + installPath);
        case LttngUst =>
          added := AddSpecialEnvVariable("CLASSPATH", Join([PathJoin(installPath, "share/java/liblttng-ust-agent.jar"), "."], ":"));
        case LttngTools =>
          added := AddSpecialEnvVariable("LTTNG_SESSION_CONFIG_XSD_PATH", PathJoin(installPath, "share/xml/lttng/"));
        case _ =>
      }
    }

    /** `self.configure_args.append(flag)`. */
    method AppendConfigureFlag(flag: string)
      requires Valid()
      modifies this`configureFlags
      ensures Valid() && configureFlags == old(configureFlags) + [flag]
    {
      configureFlags := configureFlags + [flag];
    }

    method SetMiXsd(mi: Option<string>)
      requires Valid()
      modifies this`miXsd
      ensures Valid() && miXsd == mi
    {
      miXsd := mi;
    }

    /** add_special_env_variable: a name is defined at most once. */
    method AddSpecialEnvVariable(name: string, value: string) returns (r: Result<(), Error>)
      requires Valid()
      modifies this`specialEnv
      ensures Valid()
      ensures name in old(specialEnv) ==> r == Err(DuplicateSpecialVariable) && specialEnv == old(specialEnv)
      ensures name !in old(specialEnv) ==> r == Ok(()) && specialEnv == old(specialEnv)[name := value]
      ensures ToSnapshot() == old(ToSnapshot()).(specialEnv := specialEnv)
    {
      if name in specialEnv {
        return Err(DuplicateSpecialVariable);
      }
      specialEnv := specialEnv[name := value];
      return Ok(());
    }

    /** The flag assignments of configure, build, install and of
        Lttng_modules.autobuild: one field changes. */
    method MarkConfigured()
      requires Valid()
      modifies this`isConfigured
      ensures Valid() && isConfigured && ToSnapshot() == old(ToSnapshot()).(isConfigured := true)
    {
      isConfigured := true;
    }

    method MarkBuilt()
      requires Valid()
      modifies this`isBuilt
      ensures Valid() && isBuilt && ToSnapshot() == old(ToSnapshot()).(isBuilt := true)
    {
      isBuilt := true;
    }

    method MarkInstalled()
      requires Valid()
      modifies this`isInstalled
      ensures Valid() && isInstalled && ToSnapshot() == old(ToSnapshot()).(isInstalled := true)
    {
      isInstalled := true;
    }

    method MarkSkipped()
      requires Valid()
      modifies this`skip
      ensures Valid() && skip
    {
      skip := true;
    }

    /** `project._immutable = True`. */
    method MarkImmutable()
      requires Valid()
      modifies this`immutable
      ensures Valid() && immutable && ToSnapshot() == old(ToSnapshot()).(immutable := true)
    {
      immutable := true;
    }

    /** `project.dependencies[depKey] = d`: a new label goes last, an existing
        label keeps its place. */
    method SetDependency(depKey: string, d: Project)
      requires Valid() && d.Valid() && this !in d.Repr
      modifies this`deps, this`depKeys, this`Repr
      ensures Valid()
      ensures deps == old(deps)[depKey := d]
      ensures depKeys == if depKey in old(deps) then old(depKeys) else old(depKeys) + [depKey]
      ensures Repr == old(Repr) + d.Repr
    {
      if depKey !in deps {
        depKeys := depKeys + [depKey];
      }
      deps := deps[depKey := d];
      Repr := Repr + d.Repr;
    }

    /** get_cppflags … get_bin_path, on the graph as it stands. */
    method GetPaths(acc: Accessor) returns (r: string)
      requires Valid()
      ensures r == Paths(ToSnapshot(), acc)
    {
      r := ComputePaths(ToSnapshot(), acc);
    }

    /** get_env, on the graph as it stands. */
    method GetEnv(base: Env) returns (r: Result<Env, Error>)
      requires Valid()
      ensures r == EnvFor(base)
    {
      r := ComputeEnv(ToSnapshot(), base);
    }

    // -------------------------------------------------------------------
    // Lifecycle steps: each returns what it returned or raised, and the
    // commands it ran.

    /** checkout: git clone, then a checkout of the commit. */
    method RunCheckout(w: World) returns (r: Result<(), Error>, run: seq<Command>)
      ensures immutable ==> r == Err(Immutable("checkout")) && run == []
      ensures !immutable ==> var c := CheckoutCommand(key, gitPath, sourcePath, sha1, w.env);
        run == [c] && r == if w.Succeeds(c) then Ok(()) else Err(CommandFailed(key, Checkout))
    {
      if immutable {
        return Err(Immutable("checkout")), [];
      }
      var c := CheckoutCommand(key, gitPath, sourcePath, sha1, w.env);
      r := if w.Succeeds(c) then Ok(()) else Err(CommandFailed(key, Checkout));
      run := [c];
    }

    /** bootstrap; Lttng_modules has none. */
    method RunBootstrap(w: World) returns (r: Result<(), Error>, run: seq<Command>)
      ensures kind == LttngModules ==> r == Ok(()) && run == []
      ensures kind != LttngModules && immutable ==> r == Err(Immutable("bootstrap")) && run == []
      ensures kind != LttngModules && !immutable ==> var c := BootstrapCommand(key, w.env);
        run == [c] && r == if w.Succeeds(c) then Ok(()) else Err(CommandFailed(key, Bootstrap))
    {
      if kind == LttngModules {
        return Ok(()), [];
      }
      if immutable {
        return Err(Immutable("bootstrap")), [];
      }
      var c := BootstrapCommand(key, w.env);
      r := if w.Succeeds(c) then Ok(()) else Err(CommandFailed(key, Bootstrap));
      run := [c];
    }

    /** The loop of configure over the dependencies: true exactly when every
        one is flagged installed. */
    method CheckDepsInstalled() returns (b: bool)
      requires Valid()
      ensures b == DepsInstalledIn(ToSnapshot())
    {
      ghost var snap := ToSnapshot();
      for i := 0 to |depKeys|
        invariant forall j :: 0 <= j < i ==> snap.deps[j].snap.isInstalled
      {
        SnapshotDeps(i);
        if !deps[depKeys[i]].isInstalled {
          return false;
        }
      }
      return true;
    }

    /** configure, as ConfigureStep says. */
    method RunConfigure(w: World) returns (r: Result<(), Error>, run: seq<Command>)
      requires Valid()
      modifies this`isConfigured
      ensures Valid()
      ensures var o := ConfigureStep(old(ToSnapshot()), w, old(EnvFor(w.env)));
        ToSnapshot() == o.snap && run == o.run && r == o.result
    {
      if kind == LttngModules {
        return Ok(()), [];
      }
      if immutable {
        return Err(Immutable("configure")), [];
      }
      var ready := CheckDepsInstalled();
      if !ready {
        return Err(DependencyNotInstalled), [];
      }
      var env := GetEnv(w.env);
      if env.Err? {
        return Err(env.error), [];
      }
      var c := ConfigureCommand(key, installPath, configureFlags, env.value);
      run := [c];
      if !w.Succeeds(c) {
        return Err(CommandFailed(key, Configure)), run;
      }
      MarkConfigured();
      return Ok(()), run;
    }

    /** build, as BuildStep says. */
    method RunBuild(w: World) returns (r: Result<(), Error>, run: seq<Command>)
      requires Valid()
      modifies this`isBuilt
      ensures Valid()
      ensures var o := BuildStep(old(ToSnapshot()), w, old(EnvFor(w.env)));
        ToSnapshot() == o.snap && run == o.run && r == o.result
    {
      if immutable {
        return Err(Immutable("build")), [];
      }
      var env := GetEnv(w.env);
      if env.Err? {
        return Err(env.error), [];
      }
      var c := BuildCommand(key, w.cpus, env.value);
      run := [c];
      if !w.Succeeds(c) {
        return Err(CommandFailed(key, Build)), run;
      }
      MarkBuilt();
      return Ok(()), run;
    }

    /** install, as InstallStep says: Lttng_modules has its own install,
        Lttng_ust extends the common one. */
    method RunInstall(w: World) returns (r: Result<(), Error>, run: seq<Command>)
      requires Valid()
      modifies this`isInstalled, this`specialEnv
      ensures Valid()
      ensures var o := InstallStep(old(ToSnapshot()), w, old(EnvFor(w.env)));
        ToSnapshot() == o.snap && run == o.run && r == o.result
    {
      if kind == LttngModules {
        r, run := InstallModules(w);
        return;
      }
      r, run := InstallProject(w);
      if kind == LttngUst && r.Ok? {
        r := ExportPythonPath(w);
      }
    }

    /** Project.install: make install. */
    method InstallProject(w: World) returns (r: Result<(), Error>, run: seq<Command>)
      requires Valid()
      modifies this`isInstalled
      ensures Valid()
      ensures var o := ProjectInstallStep(old(ToSnapshot()), w, old(EnvFor(w.env)));
        ToSnapshot() == o.snap && run == o.run && r == o.result
    {
      if immutable {
        return Err(Immutable("install")), [];
      }
      var env := GetEnv(w.env);
      if env.Err? {
        return Err(env.error), [];
      }
      var c := InstallCommand(key, env.value);
      run := [c];
      if !w.Succeeds(c) {
        return Err(CommandFailed(key, Install)), run;
      }
      MarkInstalled();
      return Ok(()), run;
    }

    /** What Lttng_ust.install adds after make install: PYTHONPATH. */
    method ExportPythonPath(w: World) returns (r: Result<(), Error>)
      requires Valid()
      modifies this`specialEnv
      ensures Valid()
      ensures var o := ExportStep(old(ToSnapshot()), w); ToSnapshot() == o.snap && r == o.result
    {
      var py := Utils.FindLast(w.Walk(installPath), Utils.Dirs, "lttngust");
      r := Ok(());
      if py.Some? {
        r := AddSpecialEnvVariable("PYTHONPATH", Dirname(py.value));
      }
    }

    /** Lttng_modules.install: modules_install, then a local depmod. */
    method InstallModules(w: World) returns (r: Result<(), Error>, run: seq<Command>)
      requires Valid()
      modifies this`isInstalled
      ensures Valid()
      ensures var o := ModulesInstallStep(old(ToSnapshot()), w, old(EnvFor(w.env)));
        ToSnapshot() == o.snap && run == o.run && r == o.result
    {
      if immutable {
        return Err(Immutable("install")), [];
      }
      var env := GetEnv(w.env);
      if env.Err? {
        return Err(env.error), [];
      }
      var mi := ModulesInstallCommand(key, installPath, env.value);
      run := [mi];
      if !w.Succeeds(mi) {
        return Err(CommandFailed(key, ModulesInstall)), run;
      }
      var dm := DepmodCommand(key, installPath, env.value);
      run := run + [dm];
      if !w.Succeeds(dm) {
        return Err(CommandFailed(key, Depmod)), run;
      }
      MarkInstalled();
      return Ok(()), run;
    }

    /** rpath_strip has no immutability guard; Lttng_modules has none at all. */
    method RunRpathStrip(w: World) returns (r: Result<(), Error>, run: seq<Command>)
      requires Valid()
      ensures var o := RpathStripStep(ToSnapshot(), w); run == o.run && r == o.result
    {
      if kind == LttngModules {
        return Ok(()), [];
      }
      var c := RpathStripCommand(key, installPath, w.env);
      r := if w.Succeeds(c) then Ok(()) else Err(CommandFailed(key, RpathStrip));
      run := [c];
    }

    // -------------------------------------------------------------------
    // autobuild

    /** The project's own part of autobuild, as OwnAutobuild says: the
        "manually triggered" check, then configure, build, install and
        rpath_strip, stopping at the first that raises. */
    method AutobuildOwn(w: World) returns (r: Result<(), Error>, run: seq<Command>)
      requires Valid()
      modifies this`isConfigured, this`isBuilt, this`isInstalled, this`specialEnv
      ensures Valid()
      ensures var o := OwnAutobuild(old(ToSnapshot()), w, old(EnvFor(w.env)));
        ToSnapshot() == o.snap && run == o.run && r == o.result
    {
      if StepsManuallyTriggered(isConfigured, isBuilt, isInstalled) {
        return Err(ManuallyTriggered), [];
      }
      ghost var s := ToSnapshot();
      ghost var env := EnvFor(w.env);
      r, run := RunConfigure(w);
      if r.Err? {
        return;
      }
      StepsKeepEnv(s, w, env, w.env);
      var more;
      r, more := AutobuildFromBuild(w);
      run := run + more;
    }

    /** autobuild from build on, as FromBuild says. */
    method AutobuildFromBuild(w: World) returns (r: Result<(), Error>, run: seq<Command>)
      requires Valid()
      modifies this`isBuilt, this`isInstalled, this`specialEnv
      ensures Valid()
      ensures var o := FromBuild(old(ToSnapshot()), w, old(EnvFor(w.env)));
        ToSnapshot() == o.snap && run == o.run && r == o.result
    {
      ghost var s := ToSnapshot();
      ghost var env := EnvFor(w.env);
      r, run := RunBuild(w);
      if r.Err? {
        return;
      }
      StepsKeepEnv(s, w, env, w.env);
      var more;
      r, more := AutobuildFromInstall(w);
      run := run + more;
    }

    /** autobuild from install on, as FromInstall says. */
    method AutobuildFromInstall(w: World) returns (r: Result<(), Error>, run: seq<Command>)
      requires Valid()
      modifies this`isInstalled, this`specialEnv
      ensures Valid()
      ensures var o := FromInstall(old(ToSnapshot()), w, old(EnvFor(w.env)));
        ToSnapshot() == o.snap && run == o.run && r == o.result
    {
      r, run := RunInstall(w);
      if r.Err? {
        return;
      }
      var more;
      r, more := RunRpathStrip(w);
      run := run + more;
    }

    /** What autobuild relies on from its own part: the commands and the
        result of OwnAutobuild; when it succeeds, it got past the "manually
        triggered" check, set the flags of its steps and ran them last; when
        the check raises, nothing changes; no flag it finds set is cleared;
        and a failed command it raises is one of those it ran. */
    method AutobuildAfterDeps(w: World) returns (r: Result<(), Error>, run: seq<Command>)
      requires Valid()
      modifies this`isConfigured, this`isBuilt, this`isInstalled, this`specialEnv
      ensures Valid()
      ensures var o := OwnAutobuild(old(ToSnapshot()), w, old(EnvFor(w.env))); run == o.run && r == o.result
      ensures r.Ok? ==>
        && !StepsManuallyTriggered(old(isConfigured), old(isBuilt), old(isInstalled))
        && isBuilt && isInstalled && (kind != LttngModules ==> isConfigured && DepsInstalledIn(ToSnapshot()))
        && EndsWithSteps(run, key, OwnSteps(kind))
      ensures StepsManuallyTriggered(old(isConfigured), old(isBuilt), old(isInstalled)) ==>
        && r == Err(ManuallyTriggered) && run == []
        && isConfigured == old(isConfigured) && isBuilt == old(isBuilt) && isInstalled == old(isInstalled)
        && specialEnv == old(specialEnv)
      ensures (old(isBuilt) ==> isBuilt) && (old(isInstalled) ==> isInstalled)
      ensures FailureShown(run, w, r)
    {
      ghost var s := ToSnapshot();
      ghost var env := EnvFor(w.env);
      r, run := AutobuildOwn(w);
      OwnAutobuildGrows(s, w, env);
      OwnAutobuildFailureShown(s, w, env);
      if r.Ok? {
        OwnAutobuildPlanned(s, w, env);
        PlannedEndsRun([], s, env.value, w.cpus, w.env);
        assert [] + run == run;
      }
    }

    /** The project has been autobuilt: built and installed, or, for
        Lttng_modules, skipped after a failed command. */
    predicate Done()
      reads this`isBuilt, this`isInstalled, this`skip
    {
      (isBuilt && isInstalled) || (kind == LttngModules && skip)
    }

    /** Every dependency has its three step flags set, so that its autobuild
        returns at once. */
    predicate DepsFinished()
      reads this, Repr
      requires Valid()
    {
      forall k :: k in depKeys ==> deps[k].AllSteps()
    }

    /** Every dependency is done. */
    predicate DepsDone()
      reads this`Repr, this`deps, this`depKeys, Repr - {this}
      requires Valid()
    {
      forall k :: k in depKeys ==> deps[k].Done()
    }

    /** Lttng_modules caught a failed command of `run` and set `skip`. */
    predicate SkippedAfter(run: seq<Command>, w: World)
      reads this`skip
    {
      kind == LttngModules && skip && exists c :: c in run && !w.Succeeds(c)
    }

    /** The loop of autobuild over the dependencies, in dict order, stopping
        at the first that raises. This project itself is left alone; when
        the loop gets through, every dependency is done; when every
        dependency was finished already, nothing runs and nothing changes. */
    method AutobuildDeps(w: World) returns (r: Result<(), Error>, run: seq<Command>)
      requires Valid()
      modifies (Repr - {this})`isConfigured, (Repr - {this})`isBuilt, (Repr - {this})`isInstalled
      modifies (Repr - {this})`specialEnv, (Repr - {this})`skip
      ensures Valid()
      ensures r.Ok? ==> DepsDone()
      ensures forall p :: p in Repr && old(p.Done()) ==> p.Done()
      ensures FailureShown(run, w, r)
      ensures old(DepsFinished()) ==> r.Ok? && run == [] && unchanged(Repr)
      decreases Repr, 1
    {
      r, run := Ok(()), [];
      for i := 0 to |depKeys|
        invariant Valid()
        invariant forall j :: 0 <= j < i ==> deps[depKeys[j]].Done()
        invariant forall p :: p in Repr && old(p.Done()) ==> p.Done()
        invariant r.Ok?
        invariant old(DepsFinished()) ==> run == [] && unchanged(Repr)
      {
        var more;
        r, more := AutobuildDep(depKeys[i], w);
        FailureShownAfter(run, more, w, r);
        run := run + more;
        if r.Err? {
          return;
        }
      }
      assert forall k :: k in depKeys ==> exists j :: 0 <= j < |depKeys| && depKeys[j] == k;
    }

    /** One turn of that loop: autobuild of the dependency under `k`. */
    method AutobuildDep(k: string, w: World) returns (r: Result<(), Error>, run: seq<Command>)
      requires Valid() && k in deps
      modifies (Repr - {this})`isConfigured, (Repr - {this})`isBuilt, (Repr - {this})`isInstalled
      modifies (Repr - {this})`specialEnv, (Repr - {this})`skip
      ensures Valid()
      ensures r.Ok? ==> deps[k].Done()
      ensures forall p :: p in Repr && old(p.Done()) ==> p.Done()
      ensures FailureShown(run, w, r)
      ensures old(deps[k].AllSteps()) ==> r.Ok? && run == [] && unchanged(Repr)
      decreases Repr, 0
    {
      r, run := deps[k].Autobuild(w);
    }

    /** autobuild: nothing to do once the three flags are set, refused when
        immutable, otherwise every dependency first and then the project's
        own steps; Lttng_modules overrides it to turn a failed command into
        `skip`. A dependency left not done means the loop over the
        dependencies raised, so the project's own steps did not run; the
        "manually triggered" check does not let them run either; and with
        every dependency finished already, autobuild is the project's own
        part. */
    method Autobuild(w: World) returns (r: Result<(), Error>, run: seq<Command>)
      requires Valid()
      modifies Repr`isConfigured, Repr`isBuilt, Repr`isInstalled, Repr`specialEnv, Repr`skip
      ensures Valid()
      ensures old(AllSteps()) ==> r == Ok(()) && run == [] && unchanged(Repr)
      ensures !old(AllSteps()) && immutable ==> r == Err(Immutable("autobuild")) && run == [] && unchanged(Repr)
      ensures FailureShown(run, w, r)
      ensures skip != old(skip) ==> kind == LttngModules && exists c :: c in run && !w.Succeeds(c)
      ensures kind == LttngModules ==> !(r.Err? && r.error.CommandFailed?)
      ensures kind != LttngModules ==> skip == old(skip)
      ensures !old(AllSteps()) && !DepsDone() ==>
        && isConfigured == old(isConfigured) && isBuilt == old(isBuilt) && isInstalled == old(isInstalled)
        && specialEnv == old(specialEnv)
        && (r.Err? || SkippedAfter(run, w))
      ensures !old(AllSteps()) && StepsManuallyTriggered(old(isConfigured), old(isBuilt), old(isInstalled)) ==>
        && isConfigured == old(isConfigured) && isBuilt == old(isBuilt) && isInstalled == old(isInstalled)
        && specialEnv == old(specialEnv)
        && (r.Err? || SkippedAfter(run, w))
      ensures !old(AllSteps()) && !immutable && old(DepsFinished()) ==>
        var o := OwnAutobuild(old(ToSnapshot()), w, old(EnvFor(w.env)));
        && run == o.run
        && r == if kind == LttngModules && o.result.Err? && o.result.error.CommandFailed? then Ok(()) else o.result
      ensures !old(AllSteps()) && !immutable && old(DepsFinished()) &&
              StepsManuallyTriggered(old(isConfigured), old(isBuilt), old(isInstalled)) ==>
        r == Err(ManuallyTriggered) && run == [] && unchanged(Repr)
      ensures r.Ok? && !old(AllSteps()) && (kind != LttngModules || !skip) ==>
        && !StepsManuallyTriggered(old(isConfigured), old(isBuilt), old(isInstalled))
        && isBuilt && isInstalled && (kind != LttngModules ==> isConfigured && DepsInstalledIn(ToSnapshot()))
        && EndsWithSteps(run, key, OwnSteps(kind))
      ensures r.Ok? ==> Done()
      ensures forall p :: p in Repr && old(p.Done()) ==> p.Done()
      decreases Repr, 5
    {
      if kind == LttngModules {
        r, run := ModulesAutobuild(w);
      } else {
        r, run := ProjectAutobuild(w);
      }
    }

    /** Lttng_modules.autobuild: Project.autobuild, with a failed command
        caught into `skip`. */
    method ModulesAutobuild(w: World) returns (r: Result<(), Error>, run: seq<Command>)
      requires Valid() && kind == LttngModules
      modifies Repr`isConfigured, Repr`isBuilt, Repr`isInstalled, Repr`specialEnv, Repr`skip
      ensures Valid()
      ensures old(AllSteps()) ==> r == Ok(()) && run == [] && unchanged(Repr)
      ensures !old(AllSteps()) && immutable ==> r == Err(Immutable("autobuild")) && run == [] && unchanged(Repr)
      ensures !(r.Err? && r.error.CommandFailed?)
      ensures skip != old(skip) ==> exists c :: c in run && !w.Succeeds(c)
      ensures !old(AllSteps()) && !DepsDone() ==>
        && isConfigured == old(isConfigured) && isBuilt == old(isBuilt) && isInstalled == old(isInstalled)
        && specialEnv == old(specialEnv)
        && (r.Err? || SkippedAfter(run, w))
      ensures !old(AllSteps()) && StepsManuallyTriggered(old(isConfigured), old(isBuilt), old(isInstalled)) ==>
        && isConfigured == old(isConfigured) && isBuilt == old(isBuilt) && isInstalled == old(isInstalled)
        && specialEnv == old(specialEnv)
        && (r.Err? || SkippedAfter(run, w))
      ensures !old(AllSteps()) && !immutable && old(DepsFinished()) ==>
        var o := OwnAutobuild(old(ToSnapshot()), w, old(EnvFor(w.env)));
        && run == o.run
        && r == if o.result.Err? && o.result.error.CommandFailed? then Ok(()) else o.result
      ensures !old(AllSteps()) && !immutable && old(DepsFinished()) &&
              StepsManuallyTriggered(old(isConfigured), old(isBuilt), old(isInstalled)) ==>
        r == Err(ManuallyTriggered) && run == [] && unchanged(Repr)
      ensures r.Ok? && !old(AllSteps()) && !skip ==>
        && !StepsManuallyTriggered(old(isConfigured), old(isBuilt), old(isInstalled))
        && isBuilt && isInstalled && EndsWithSteps(run, key, OwnSteps(kind))
      ensures r.Ok? ==> Done()
      ensures forall p :: p in Repr && old(p.Done()) ==> p.Done()
      decreases Repr, 4
    {
      if AllSteps() {
        return Ok(()), [];
      }
      if immutable {
        return Err(Immutable("autobuild")), [];
      }
      r, run := ModulesAutobuildCommon(w);
    }

    /** Lttng_modules.autobuild past the first two checks: the common part,
        with a failed command caught into `skip`. */
    method ModulesAutobuildCommon(w: World) returns (r: Result<(), Error>, run: seq<Command>)
      requires Valid() && kind == LttngModules && !AllSteps() && !immutable
      modifies Repr`isConfigured, Repr`isBuilt, Repr`isInstalled, Repr`specialEnv, Repr`skip
      ensures Valid()
      ensures !(r.Err? && r.error.CommandFailed?)
      ensures skip != old(skip) ==> exists c :: c in run && !w.Succeeds(c)
      ensures !DepsDone() ==>
        && isConfigured == old(isConfigured) && isBuilt == old(isBuilt) && isInstalled == old(isInstalled)
        && specialEnv == old(specialEnv)
        && (r.Err? || SkippedAfter(run, w))
      ensures StepsManuallyTriggered(old(isConfigured), old(isBuilt), old(isInstalled)) ==>
        && isConfigured == old(isConfigured) && isBuilt == old(isBuilt) && isInstalled == old(isInstalled)
        && specialEnv == old(specialEnv)
        && (r.Err? || SkippedAfter(run, w))
      ensures old(DepsFinished()) ==>
        var o := OwnAutobuild(old(ToSnapshot()), w, old(EnvFor(w.env)));
        && run == o.run
        && r == if o.result.Err? && o.result.error.CommandFailed? then Ok(()) else o.result
      ensures old(DepsFinished()) && StepsManuallyTriggered(old(isConfigured), old(isBuilt), old(isInstalled)) ==>
        r == Err(ManuallyTriggered) && run == [] && unchanged(Repr)
      ensures r.Ok? && !skip ==>
        && !StepsManuallyTriggered(old(isConfigured), old(isBuilt), old(isInstalled))
        && isBuilt && isInstalled && EndsWithSteps(run, key, OwnSteps(kind))
      ensures r.Ok? ==> Done()
      ensures forall p :: p in Repr && old(p.Done()) ==> p.Done()
      decreases Repr, 3
    {
      var inner;
      inner, run := AutobuildCommon(w);
      r := CatchFailure(inner);
    }

    /** Lttng_modules.autobuild's `except CalledProcessError: self.skip = True`. */
    method CatchFailure(inner: Result<(), Error>) returns (r: Result<(), Error>)
      requires Valid() && kind == LttngModules
      modifies this`skip
      ensures Valid()
      ensures r == if inner.Err? && inner.error.CommandFailed? then Ok(()) else inner
      ensures skip == (old(skip) || (inner.Err? && inner.error.CommandFailed?))
    {
      r := inner;
      if inner.Err? && inner.error.CommandFailed? {
        MarkSkipped();
        r := Ok(());
      }
    }

    /** Project.autobuild: nothing to do once the three flags are set,
        refused when immutable, otherwise the dependencies and then the own
        part. */
    method ProjectAutobuild(w: World) returns (r: Result<(), Error>, run: seq<Command>)
      requires Valid()
      modifies (Repr - {this})`isConfigured, (Repr - {this})`isBuilt, (Repr - {this})`isInstalled
      modifies (Repr - {this})`specialEnv, (Repr - {this})`skip
      modifies this`isConfigured, this`isBuilt, this`isInstalled, this`specialEnv
      ensures Valid()
      ensures old(AllSteps()) ==> r == Ok(()) && run == [] && unchanged(Repr)
      ensures !old(AllSteps()) && immutable ==> r == Err(Immutable("autobuild")) && run == [] && unchanged(Repr)
      ensures FailureShown(run, w, r)
      ensures !old(AllSteps()) && !DepsDone() ==>
        && isConfigured == old(isConfigured) && isBuilt == old(isBuilt) && isInstalled == old(isInstalled)
        && specialEnv == old(specialEnv) && r.Err?
      ensures !old(AllSteps()) && StepsManuallyTriggered(old(isConfigured), old(isBuilt), old(isInstalled)) ==>
        && isConfigured == old(isConfigured) && isBuilt == old(isBuilt) && isInstalled == old(isInstalled)
        && specialEnv == old(specialEnv) && r.Err?
      ensures !old(AllSteps()) && !immutable && old(DepsFinished()) ==>
        var o := OwnAutobuild(old(ToSnapshot()), w, old(EnvFor(w.env)));
        run == o.run && r == o.result
      ensures !old(AllSteps()) && !immutable && old(DepsFinished()) &&
              StepsManuallyTriggered(old(isConfigured), old(isBuilt), old(isInstalled)) ==>
        r == Err(ManuallyTriggered) && run == [] && unchanged(Repr)
      ensures r.Ok? && !old(AllSteps()) ==>
        && !StepsManuallyTriggered(old(isConfigured), old(isBuilt), old(isInstalled))
        && isBuilt && isInstalled && (kind != LttngModules ==> isConfigured && DepsInstalledIn(ToSnapshot()))
        && EndsWithSteps(run, key, OwnSteps(kind))
      ensures r.Ok? ==> isBuilt && isInstalled
      ensures forall p :: p in Repr && old(p.Done()) ==> p.Done()
      decreases Repr, 3
    {
      if AllSteps() {
        return Ok(()), [];
      }
      if immutable {
        return Err(Immutable("autobuild")), [];
      }
      r, run := AutobuildCommon(w);
    }

    /** The common autobuild past its first two checks, before Lttng_modules
        catches a failed command: the dependencies, then the own part. */
    method AutobuildCommon(w: World) returns (r: Result<(), Error>, run: seq<Command>)
      requires Valid() && !AllSteps() && !immutable
      modifies (Repr - {this})`isConfigured, (Repr - {this})`isBuilt, (Repr - {this})`isInstalled
      modifies (Repr - {this})`specialEnv, (Repr - {this})`skip
      modifies this`isConfigured, this`isBuilt, this`isInstalled, this`specialEnv
      ensures Valid()
      ensures FailureShown(run, w, r)
      ensures !DepsDone() ==>
        && isConfigured == old(isConfigured) && isBuilt == old(isBuilt) && isInstalled == old(isInstalled)
        && specialEnv == old(specialEnv) && r.Err?
      ensures StepsManuallyTriggered(old(isConfigured), old(isBuilt), old(isInstalled)) ==>
        && isConfigured == old(isConfigured) && isBuilt == old(isBuilt) && isInstalled == old(isInstalled)
        && specialEnv == old(specialEnv) && r.Err?
      ensures old(DepsFinished()) ==>
        var o := OwnAutobuild(old(ToSnapshot()), w, old(EnvFor(w.env)));
        run == o.run && r == o.result
      ensures old(DepsFinished()) && StepsManuallyTriggered(old(isConfigured), old(isBuilt), old(isInstalled)) ==>
        r == Err(ManuallyTriggered) && run == [] && unchanged(Repr)
      ensures r.Ok? ==>
        && !StepsManuallyTriggered(old(isConfigured), old(isBuilt), old(isInstalled))
        && isBuilt && isInstalled && (kind != LttngModules ==> isConfigured && DepsInstalledIn(ToSnapshot()))
        && EndsWithSteps(run, key, OwnSteps(kind))
      ensures (old(isBuilt) ==> isBuilt) && (old(isInstalled) ==> isInstalled)
      ensures forall p :: p in Repr - {this} && old(p.Done()) ==> p.Done()
      decreases Repr, 2
    {
      r, run := AutobuildDeps(w);
      if r.Ok? {
        ghost var before := run;
        var more;
        r, more := AutobuildAfterDeps(w);
        FailureShownAfter(run, more, w, r);
        run := run + more;
        if r.Ok? {
          EndsWithStepsAfter(before, more, key, OwnSteps(kind));
        }
      }
    }
  }
}
