/** The lifecycle steps of lttng_ivc/utils/project.py (configure, build,
    install, rpath_strip and the project's own part of autobuild) as
    functions from a snapshot and the outside world to the snapshot after
    the step, the commands it ran and what it returned or raised. The Project
    class runs them on its own fields; the properties are proved here. */
module Lifecycle {
  import opened Base
  import opened Environment
  import opened BuildGraph
  import Utils

  /** What the harness reads from outside: os.environ, the external commands
      that exit with a non-zero status, the ccache lookup, the usable CPU
      count and the directory trees os.walk sees, by root path. */
  datatype World = World(
    env: Env,
    failing: set<Command>,
    ccache: Option<string>,
    cpus: string,
    trees: map<string, seq<Utils.WalkEntry>>)
  {
    /** Whether `c` exits with status 0. */
    predicate Succeeds(c: Command) { c !in failing }

    /** What os.walk yields under `path`; a missing directory yields nothing. */
    function Walk(path: string): seq<Utils.WalkEntry> { if path in trees then trees[path] else [] }
  }

  /** The snapshot after a step, the commands it ran, and what it returned
      (Ok) or raised (Err). */
  datatype Outcome = Outcome(snap: Snapshot, run: seq<Command>, result: Result<(), Error>)

  /** Every direct dependency is flagged installed. */
  predicate DepsInstalledIn(s: Snapshot)
  {
    forall i :: 0 <= i < |s.deps| ==> s.deps[i].snap.isInstalled
  }

  /** configure: refused when immutable or when a dependency is not
      installed, then ./configure with the composed environment; the flag is
      set only when it succeeds. Lttng_modules has no configure step. */
  function ConfigureStep(s: Snapshot, w: World, env: Result<Env, Error>): Outcome
  {
    if s.kind == LttngModules then Outcome(s, [], Ok(()))
    else if s.immutable then Outcome(s, [], Err(Immutable("configure")))
    else if !DepsInstalledIn(s) then Outcome(s, [], Err(DependencyNotInstalled))
    else match env
      case Err(e) => Outcome(s, [], Err(e))
      case Ok(e) =>
        var c := ConfigureCommand(s.key, InstallPath(s.basedir), s.configureFlags, e);
        if w.Succeeds(c) then Outcome(s.(isConfigured := true), [c], Ok(()))
        else Outcome(s, [c], Err(CommandFailed(s.key, Configure)))
  }

  /** build: make -j <cpus> V=1; it does not look at isConfigured. */
  function BuildStep(s: Snapshot, w: World, env: Result<Env, Error>): Outcome
  {
    if s.immutable then Outcome(s, [], Err(Immutable("build")))
    else match env
      case Err(e) => Outcome(s, [], Err(e))
      case Ok(e) =>
        var c := BuildCommand(s.key, w.cpus, e);
        if w.Succeeds(c) then Outcome(s.(isBuilt := true), [c], Ok(()))
        else Outcome(s, [c], Err(CommandFailed(s.key, Build)))
  }

  /** Project.install: make install. */
  function ProjectInstallStep(s: Snapshot, w: World, env: Result<Env, Error>): Outcome
  {
    if s.immutable then Outcome(s, [], Err(Immutable("install")))
    else match env
      case Err(e) => Outcome(s, [], Err(e))
      case Ok(e) =>
        var c := InstallCommand(s.key, e);
        if w.Succeeds(c) then Outcome(s.(isInstalled := true), [c], Ok(()))
        else Outcome(s, [c], Err(CommandFailed(s.key, Install)))
  }

  /** Lttng_modules.install: modules_install, then a local depmod, each with
      get_env, which gives the same environment both times. */
  function ModulesInstallStep(s: Snapshot, w: World, env: Result<Env, Error>): Outcome
  {
    if s.immutable then Outcome(s, [], Err(Immutable("install")))
    else match env
      case Err(e) => Outcome(s, [], Err(e))
      case Ok(e) =>
        var install := InstallPath(s.basedir);
        var mi := ModulesInstallCommand(s.key, install, e);
        var dm := DepmodCommand(s.key, install, e);
        if !w.Succeeds(mi) then Outcome(s, [mi], Err(CommandFailed(s.key, ModulesInstall)))
        else if !w.Succeeds(dm) then Outcome(s, [mi, dm], Err(CommandFailed(s.key, Depmod)))
        else Outcome(s.(isInstalled := true), [mi, dm], Ok(()))
  }

  /** What Lttng_ust.install adds: the parent of the last lttngust directory
      under the install path becomes PYTHONPATH, through
      add_special_env_variable. */
  function ExportStep(s: Snapshot, w: World): Outcome
  {
    match Utils.LastMatch(w.Walk(InstallPath(s.basedir)), Utils.Dirs, "lttngust")
    case None => Outcome(s, [], Ok(()))
    case Some(py) =>
      if "PYTHONPATH" in s.specialEnv then Outcome(s, [], Err(DuplicateSpecialVariable))
      else Outcome(s.(specialEnv := s.specialEnv["PYTHONPATH" := Dirname(py)]), [], Ok(()))
  }

  /** install for each kind. A PYTHONPATH that Lttng_ust finds already
      defined raises after isInstalled was set. */
  function InstallStep(s: Snapshot, w: World, env: Result<Env, Error>): Outcome
  {
    if s.kind == LttngModules then ModulesInstallStep(s, w, env)
    else
      var o := ProjectInstallStep(s, w, env);
      if s.kind == LttngUst && o.result.Ok? then After(o.run, ExportStep(o.snap, w)) else o
  }

  /** rpath_strip: no immutability guard, the process environment; nothing
      for Lttng_modules. */
  function RpathStripStep(s: Snapshot, w: World): Outcome
  {
    if s.kind == LttngModules then Outcome(s, [], Ok(()))
    else
      var c := RpathStripCommand(s.key, InstallPath(s.basedir), w.env);
      Outcome(s, [c], if w.Succeeds(c) then Ok(()) else Err(CommandFailed(s.key, RpathStrip)))
  }

  /** `o`, with the commands of earlier steps in front. */
  function After(earlier: seq<Command>, o: Outcome): Outcome
  {
    o.(run := earlier + o.run)
  }

  /** autobuild once the dependencies are done: the "manually triggered"
      check, then configure, build, install and rpath_strip, stopping at the
      first step that raises. Each step calls get_env; configure and build do
      not change what it returns (StepsKeepEnv), so `env` serves all three. */
  function OwnAutobuild(s: Snapshot, w: World, env: Result<Env, Error>): Outcome
  {
    if StepsManuallyTriggered(s.isConfigured, s.isBuilt, s.isInstalled) then Outcome(s, [], Err(ManuallyTriggered))
    else
      var c := ConfigureStep(s, w, env);
      if c.result.Err? then c else After(c.run, FromBuild(c.snap, w, env))
  }

  /** The rest of autobuild once configure succeeded. */
  function FromBuild(s: Snapshot, w: World, env: Result<Env, Error>): Outcome
  {
    var b := BuildStep(s, w, env);
    if b.result.Err? then b else After(b.run, FromInstall(b.snap, w, env))
  }

  /** The rest of autobuild once build succeeded. */
  function FromInstall(s: Snapshot, w: World, env: Result<Env, Error>): Outcome
  {
    var i := InstallStep(s, w, env);
    if i.result.Err? then i else After(i.run, RpathStripStep(i.snap, w))
  }

  // ---------------------------------------------------------------------
  // Properties of the steps

  /** The three guarded steps refuse an immutable project before running
      anything or changing any flag. */
  lemma ImmutableRefused(s: Snapshot, w: World, env: Result<Env, Error>)
    requires s.immutable
    ensures s.kind != LttngModules ==> ConfigureStep(s, w, env) == Outcome(s, [], Err(Immutable("configure")))
    ensures BuildStep(s, w, env) == Outcome(s, [], Err(Immutable("build")))
    ensures InstallStep(s, w, env) == Outcome(s, [], Err(Immutable("install")))
  {
  }

  /** configure never runs with a dependency that is not installed. */
  lemma ConfigureNeedsDeps(s: Snapshot, w: World, env: Result<Env, Error>, i: nat)
    requires s.kind != LttngModules && i < |s.deps| && !s.deps[i].snap.isInstalled
    ensures ConfigureStep(s, w, env).run == [] && ConfigureStep(s, w, env).snap == s
    ensures ConfigureStep(s, w, env).result == Err(if s.immutable then Immutable("configure") else DependencyNotInstalled)
  {
  }

  /** configure changes only isConfigured, which becomes true exactly when
      it succeeds. */
  lemma ConfigureSetsFlag(s: Snapshot, w: World, env: Result<Env, Error>)
    ensures var o := ConfigureStep(s, w, env);
      o.snap == s.(isConfigured := o.snap.isConfigured)
      && o.snap.isConfigured == (s.isConfigured || (s.kind != LttngModules && o.result.Ok?))
  {
  }

  /** build changes only isBuilt, which becomes true exactly when it succeeds. */
  lemma BuildSetsFlag(s: Snapshot, w: World, env: Result<Env, Error>)
    ensures var o := BuildStep(s, w, env);
      o.snap == s.(isBuilt := o.snap.isBuilt) && o.snap.isBuilt == (s.isBuilt || o.result.Ok?)
  {
  }

  /** install changes only isInstalled and, for Lttng_ust, PYTHONPATH: the
      flag becomes true when its commands succeed, even if adding PYTHONPATH
      then raises; PYTHONPATH is added only when it was not yet defined, and
      nothing else in the map changes. */
  lemma InstallSetsFlag(s: Snapshot, w: World, env: Result<Env, Error>)
    ensures var o := InstallStep(s, w, env);
      && o.snap == s.(isInstalled := o.snap.isInstalled, specialEnv := o.snap.specialEnv)
      && o.snap.isInstalled == (s.isInstalled || o.result.Ok? || (o.result == Err(DuplicateSpecialVariable) && o.run != []))
    ensures var o := InstallStep(s, w, env);
      o.snap.specialEnv != s.specialEnv ==>
        && s.kind == LttngUst && o.result.Ok? && "PYTHONPATH" !in s.specialEnv
        && o.snap.specialEnv == s.specialEnv["PYTHONPATH" := o.snap.specialEnv["PYTHONPATH"]]
  {
    var o := InstallStep(s, w, env);
    if s.kind != LttngModules {
      var p := ProjectInstallStep(s, w, env);
      ProjectInstallSetsFlag(s, w, env);
      if s.kind == LttngUst && p.result.Ok? {
        ExportStepAdds(p.snap, w);
        assert o == After(p.run, ExportStep(p.snap, w));
      }
    } else {
      ModulesInstallSetsFlag(s, w, env);
    }
  }

  lemma ModulesInstallSetsFlag(s: Snapshot, w: World, env: Result<Env, Error>)
    ensures var o := ModulesInstallStep(s, w, env);
      && o.snap == s.(isInstalled := o.snap.isInstalled)
      && o.snap.isInstalled == (s.isInstalled || o.result.Ok?)
      && (o.result.Ok? ==> o.run != [])
  {
  }

  lemma ProjectInstallSetsFlag(s: Snapshot, w: World, env: Result<Env, Error>)
    ensures var o := ProjectInstallStep(s, w, env);
      && o.snap == s.(isInstalled := o.snap.isInstalled)
      && o.snap.isInstalled == (s.isInstalled || o.result.Ok?)
      && (o.result.Ok? ==> o.run != [])
  {
  }

  /** Lttng_ust's addition adds PYTHONPATH and only it, and only when it was
      not yet defined. */
  lemma ExportStepAdds(s: Snapshot, w: World)
    ensures var o := ExportStep(s, w);
      && o.run == [] && o.snap == s.(specialEnv := o.snap.specialEnv)
      && (o.snap.specialEnv != s.specialEnv ==>
            o.result.Ok? && "PYTHONPATH" !in s.specialEnv
            && o.snap.specialEnv == s.specialEnv["PYTHONPATH" := o.snap.specialEnv["PYTHONPATH"]])
      && (o.result.Err? ==> o.result.error == DuplicateSpecialVariable)
  {
  }

  /** rpath_strip changes no field. */
  lemma RpathStripKeeps(s: Snapshot, w: World)
    ensures RpathStripStep(s, w).snap == s
  {
  }

  /** Every command a step runs belongs to the project, with the step's own
      name, and a step that succeeds ran all of its commands. */
  lemma StepsRunOwnCommands(s: Snapshot, w: World, env: Result<Env, Error>)
    ensures forall c :: c in ConfigureStep(s, w, env).run ==> c.owner == s.key && c.step == Configure
    ensures forall c :: c in BuildStep(s, w, env).run ==> c.owner == s.key && c.step == Build
    ensures forall c :: c in InstallStep(s, w, env).run ==> c.owner == s.key && c.step in {Install, ModulesInstall, Depmod}
    ensures forall c :: c in RpathStripStep(s, w).run ==> c.owner == s.key && c.step == RpathStrip
    ensures InstallStep(s, w, env).result.Ok? ==> |InstallStep(s, w, env).run| == if s.kind == LttngModules then 2 else 1
  {
    InstallRunsOwn(s, w, env);
  }

  lemma InstallRunsOwn(s: Snapshot, w: World, env: Result<Env, Error>)
    ensures forall c :: c in InstallStep(s, w, env).run ==> c.owner == s.key && c.step in {Install, ModulesInstall, Depmod}
    ensures InstallStep(s, w, env).result.Ok? ==> |InstallStep(s, w, env).run| == if s.kind == LttngModules then 2 else 1
  {
    if s.kind != LttngModules {
      var p := ProjectInstallStep(s, w, env);
      if s.kind == LttngUst && p.result.Ok? {
        ExportStepAdds(p.snap, w);
        assert InstallStep(s, w, env).run == p.run + [];
      }
    }
  }

  /** What configure ran when it succeeded. */
  lemma ConfigureRan(s: Snapshot, w: World, env: Result<Env, Error>)
    requires ConfigureStep(s, w, env).result.Ok?
    ensures s.kind == LttngModules ==> ConfigureStep(s, w, env).run == []
    ensures s.kind != LttngModules ==>
      && !s.immutable && DepsInstalledIn(s) && env.Ok?
      && ConfigureStep(s, w, env).run == [ConfigureCommand(s.key, InstallPath(s.basedir), s.configureFlags, env.value)]
  {
  }

  /** What build ran when it succeeded. */
  lemma BuildRan(s: Snapshot, w: World, env: Result<Env, Error>)
    requires BuildStep(s, w, env).result.Ok?
    ensures !s.immutable && env.Ok? && BuildStep(s, w, env).run == [BuildCommand(s.key, w.cpus, env.value)]
  {
  }

  /** What install ran when it succeeded. */
  lemma InstallRan(s: Snapshot, w: World, env: Result<Env, Error>)
    requires InstallStep(s, w, env).result.Ok?
    ensures !s.immutable && env.Ok?
    ensures var install := InstallPath(s.basedir);
      InstallStep(s, w, env).run ==
        if s.kind == LttngModules then [ModulesInstallCommand(s.key, install, env.value), DepmodCommand(s.key, install, env.value)]
        else [InstallCommand(s.key, env.value)]
  {
    if s.kind != LttngModules {
      var p := ProjectInstallStep(s, w, env);
      if s.kind == LttngUst {
        ExportStepAdds(p.snap, w);
        assert InstallStep(s, w, env).run == p.run + [];
      }
    }
  }

  /** Configure and build leave get_env's result as it was. */
  lemma StepsKeepEnv(s: Snapshot, w: World, env: Result<Env, Error>, base: Env)
    ensures EnvSpec(ConfigureStep(s, w, env).snap, base) == EnvSpec(s, base)
    ensures EnvSpec(BuildStep(s, w, env).snap, base) == EnvSpec(s, base)
  {
    ConfigureSetsFlag(s, w, env);
    BuildSetsFlag(s, w, env);
    EnvSpecLayout(s, ConfigureStep(s, w, env).snap, base);
    EnvSpecLayout(s, BuildStep(s, w, env).snap, base);
  }

  /** The own part of autobuild, when it succeeds, got past every guard, ran
      exactly the planned commands with the environment get_env gave, and
      set the flags of its steps: Lttng_modules, whose configure does
      nothing, never sets isConfigured. */
  lemma OwnAutobuildPlanned(s: Snapshot, w: World, env: Result<Env, Error>)
    requires OwnAutobuild(s, w, env).result.Ok?
    ensures !s.immutable && !StepsManuallyTriggered(s.isConfigured, s.isBuilt, s.isInstalled) && env.Ok?
    ensures s.kind != LttngModules ==> DepsInstalledIn(s)
    ensures OwnAutobuild(s, w, env).run == PlannedCommands(s, env.value, w.cpus, w.env)
    ensures var t := OwnAutobuild(s, w, env).snap;
      && t.isConfigured == (s.isConfigured || s.kind != LttngModules) && t.isBuilt && t.isInstalled
      && t.deps == s.deps
  {
    var c := ConfigureStep(s, w, env);
    var b := BuildStep(c.snap, w, env);
    var i := InstallStep(b.snap, w, env);
    var r := RpathStripStep(i.snap, w);
    OwnAutobuildParts(s, w, env);
    ConfigureSetsFlag(s, w, env);
    BuildSetsFlag(c.snap, w, env);
    InstallSetsFlag(b.snap, w, env);
    RpathStripKeeps(i.snap, w);
    ConfigureRan(s, w, env);
    BuildRan(c.snap, w, env);
    InstallRan(b.snap, w, env);
    assert i.snap.key == s.key && i.snap.basedir == s.basedir && i.snap.kind == s.kind;
    PlannedSplit(s, env.value, w.cpus, w.env, c.run, b.run, i.run, r.run);
  }

  /** The own part of autobuild, whatever its outcome, clears no step flag
      and changes neither the dependencies nor `skip`; when it raises the
      "manually triggered" error it changes nothing at all. */
  lemma {:induction false} OwnAutobuildGrows(s: Snapshot, w: World, env: Result<Env, Error>)
    ensures var t := OwnAutobuild(s, w, env).snap;
      && (s.isConfigured ==> t.isConfigured) && (s.isBuilt ==> t.isBuilt) && (s.isInstalled ==> t.isInstalled)
      && t.deps == s.deps && t.skip == s.skip
    ensures StepsManuallyTriggered(s.isConfigured, s.isBuilt, s.isInstalled) ==>
      OwnAutobuild(s, w, env) == Outcome(s, [], Err(ManuallyTriggered))
  {
    if !StepsManuallyTriggered(s.isConfigured, s.isBuilt, s.isInstalled) {
      var c := ConfigureStep(s, w, env);
      ConfigureSetsFlag(s, w, env);
      if c.result.Ok? {
        var b := BuildStep(c.snap, w, env);
        BuildSetsFlag(c.snap, w, env);
        if b.result.Ok? {
          var i := InstallStep(b.snap, w, env);
          InstallSetsFlag(b.snap, w, env);
          if i.result.Ok? {
            RpathStripKeeps(i.snap, w);
          }
        }
      }
    }
  }

  /** A raised CalledProcessError comes from a command of `run` that exited
      non-zero, run by the project and at the step the error names. */
  predicate FailureShown(run: seq<Command>, w: World, r: Result<(), Error>)
  {
    r.Err? && r.error.CommandFailed? ==>
      exists c :: c in run && !w.Succeeds(c) && c.owner == r.error.owner && c.step == r.error.step
  }

  /** Commands run earlier do not hide a failed command. */
  lemma FailureShownAfter(earlier: seq<Command>, run: seq<Command>, w: World, r: Result<(), Error>)
    requires FailureShown(run, w, r)
    ensures FailureShown(earlier + run, w, r)
  {
    if r.Err? && r.error.CommandFailed? {
      var c :| c in run && !w.Succeeds(c) && c.owner == r.error.owner && c.step == r.error.step;
      assert c in earlier + run;
    }
  }

  /** The own part of autobuild raises CalledProcessError only for one of
      its commands that exited non-zero, provided get_env itself raises
      something else. */
  lemma OwnAutobuildFailureShown(s: Snapshot, w: World, env: Result<Env, Error>)
    requires env.Err? ==> !env.error.CommandFailed?
    ensures FailureShown(OwnAutobuild(s, w, env).run, w, OwnAutobuild(s, w, env).result)
  {
    if !StepsManuallyTriggered(s.isConfigured, s.isBuilt, s.isInstalled) {
      var c := ConfigureStep(s, w, env);
      if c.result.Ok? {
        FromBuildFailureShown(c.snap, w, env);
        FailureShownAfter(c.run, FromBuild(c.snap, w, env).run, w, FromBuild(c.snap, w, env).result);
      } else if c.result.error.CommandFailed? {
        assert c.run[0] in c.run;
      }
    }
  }

  lemma FromBuildFailureShown(s: Snapshot, w: World, env: Result<Env, Error>)
    requires env.Err? ==> !env.error.CommandFailed?
    ensures FailureShown(FromBuild(s, w, env).run, w, FromBuild(s, w, env).result)
  {
    var b := BuildStep(s, w, env);
    if b.result.Ok? {
      FromInstallFailureShown(b.snap, w, env);
      FailureShownAfter(b.run, FromInstall(b.snap, w, env).run, w, FromInstall(b.snap, w, env).result);
    } else if b.result.error.CommandFailed? {
      assert b.run[0] in b.run;
    }
  }

  lemma FromInstallFailureShown(s: Snapshot, w: World, env: Result<Env, Error>)
    requires env.Err? ==> !env.error.CommandFailed?
    ensures FailureShown(FromInstall(s, w, env).run, w, FromInstall(s, w, env).result)
  {
    var i := InstallStep(s, w, env);
    InstallFailureShown(s, w, env);
    if i.result.Ok? {
      var rs := RpathStripStep(i.snap, w);
      if rs.result.Err? {
        assert rs.run[0] in rs.run;
      }
      FailureShownAfter(i.run, rs.run, w, rs.result);
    }
  }

  lemma InstallFailureShown(s: Snapshot, w: World, env: Result<Env, Error>)
    requires env.Err? ==> !env.error.CommandFailed?
    ensures FailureShown(InstallStep(s, w, env).run, w, InstallStep(s, w, env).result)
  {
    var i := InstallStep(s, w, env);
    if i.result.Err? && i.result.error.CommandFailed? {
      assert i.run[|i.run| - 1] in i.run;
    }
  }

  /** The own part of autobuild, when it succeeds, is its four steps one
      after the other. */
  lemma OwnAutobuildParts(s: Snapshot, w: World, env: Result<Env, Error>)
    requires OwnAutobuild(s, w, env).result.Ok?
    ensures !StepsManuallyTriggered(s.isConfigured, s.isBuilt, s.isInstalled)
    ensures var c := ConfigureStep(s, w, env);
            var b := BuildStep(c.snap, w, env);
            var i := InstallStep(b.snap, w, env);
            var r := RpathStripStep(i.snap, w);
      && c.result.Ok? && b.result.Ok? && i.result.Ok?
      && OwnAutobuild(s, w, env).run == c.run + b.run + i.run + r.run
      && OwnAutobuild(s, w, env).snap == r.snap
  {
    var c := ConfigureStep(s, w, env);
    FromBuildParts(c.snap, w, env);
    var b := BuildStep(c.snap, w, env);
    var i := InstallStep(b.snap, w, env);
    var r := RpathStripStep(i.snap, w);
    RunsRegroup(c.run, b.run, i.run, r.run);
  }

  lemma RunsRegroup(a: seq<Command>, b: seq<Command>, c: seq<Command>, d: seq<Command>)
    ensures a + (b + c + d) == a + b + c + d
    ensures b + (c + d) == b + c + d
  {
  }

  lemma FromBuildParts(s: Snapshot, w: World, env: Result<Env, Error>)
    ensures var b := BuildStep(s, w, env);
            var i := InstallStep(b.snap, w, env);
            var r := RpathStripStep(i.snap, w);
      FromBuild(s, w, env).result.Ok? ==>
      && b.result.Ok? && i.result.Ok?
      && FromBuild(s, w, env).run == b.run + i.run + r.run
      && FromBuild(s, w, env).snap == r.snap
  {
    var b := BuildStep(s, w, env);
    if b.result.Ok? {
      FromInstallParts(b.snap, w, env);
      var i := InstallStep(b.snap, w, env);
      var r := RpathStripStep(i.snap, w);
      RunsRegroup([], b.run, i.run, r.run);
    }
  }

  lemma FromInstallParts(s: Snapshot, w: World, env: Result<Env, Error>)
    ensures var i := InstallStep(s, w, env);
      FromInstall(s, w, env).result.Ok? ==>
      && i.result.Ok?
      && FromInstall(s, w, env).run == i.run + RpathStripStep(i.snap, w).run
      && FromInstall(s, w, env).snap == RpathStripStep(i.snap, w).snap
  {
  }

  /** The planned commands, step by step. */
  lemma PlannedSplit(s: Snapshot, e: Env, cpus: string, base: Env, c: seq<Command>, b: seq<Command>, i: seq<Command>, r: seq<Command>)
    requires var install := InstallPath(s.basedir);
      && c == (if s.kind == LttngModules then [] else [ConfigureCommand(s.key, install, s.configureFlags, e)])
      && b == [BuildCommand(s.key, cpus, e)]
      && i == (if s.kind == LttngModules then [ModulesInstallCommand(s.key, install, e), DepmodCommand(s.key, install, e)]
               else [InstallCommand(s.key, e)])
      && r == (if s.kind == LttngModules then [] else [RpathStripCommand(s.key, install, base)])
    ensures c + b + i + r == PlannedCommands(s, e, cpus, base)
  {
  }

  /** The planned commands are the project's own steps, in their order,
      whatever ran before them. */
  lemma PlannedEndsRun(earlier: seq<Command>, s: Snapshot, e: Env, cpus: string, base: Env)
    ensures EndsWithSteps(earlier + PlannedCommands(s, e, cpus, base), s.key, OwnSteps(s.kind))
  {
    var plan := PlannedCommands(s, e, cpus, base);
    var all := earlier + plan;
    forall i | |earlier| <= i < |all| ensures all[i] == plan[i - |earlier|] {
    }
  }

  /** Commands run before a run keep its last steps last. */
  lemma EndsWithStepsAfter(earlier: seq<Command>, trace: seq<Command>, key: string, steps: seq<Step>)
    requires EndsWithSteps(trace, key, steps)
    ensures EndsWithSteps(earlier + trace, key, steps)
  {
    var all := earlier + trace;
    forall i | |all| - |steps| <= i < |all| ensures all[i] == trace[i - |earlier|] {
    }
  }

  /** Conversely, past the guards and with every planned command succeeding,
      the own part of autobuild succeeds, unless Lttng_ust finds a PYTHONPATH
      to export that is already defined. */
  lemma OwnAutobuildSucceeds(s: Snapshot, w: World, env: Result<Env, Error>)
    requires s.kind != LttngModules && !s.immutable
    requires !StepsManuallyTriggered(s.isConfigured, s.isBuilt, s.isInstalled)
    requires DepsInstalledIn(s) && env.Ok?
    requires forall c :: c in PlannedCommands(s, env.value, w.cpus, w.env) ==> w.Succeeds(c)
    requires s.kind == LttngUst && "PYTHONPATH" in s.specialEnv ==>
      Utils.LastMatch(w.Walk(InstallPath(s.basedir)), Utils.Dirs, "lttngust").None?
    ensures OwnAutobuild(s, w, env).result.Ok?
  {
    var plan := PlannedCommands(s, env.value, w.cpus, w.env);
    assert w.Succeeds(plan[0]) && w.Succeeds(plan[1]) && w.Succeeds(plan[2]) && w.Succeeds(plan[3]);
    var c := ConfigureStep(s, w, env);
    ConfigureSetsFlag(s, w, env);
    var b := BuildStep(c.snap, w, env);
    BuildSetsFlag(c.snap, w, env);
    InstallSetsFlag(b.snap, w, env);
  }
}
