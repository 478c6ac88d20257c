/** The older Project class of lttng_b_test/utils/project.py: a list of
    dependencies, five state flags, and an environment made from the direct
    dependencies only. Its autobuild has no fast path: it reruns every step
    and refuses when an odd number of the step flags are set. The external
    commands are answered by a Lifecycle.World value, and every lifecycle
    method returns the commands it ran. */
module LegacyProject {
  import opened Base
  import opened Environment
  import BuildGraph
  import Lifecycle

  type Command = BuildGraph.Command
  type Error = BuildGraph.Error
  type World = Lifecycle.World

  /** The Project subclasses; only Lttng_modules and Lttng_ust behave
      differently from their parent. */
  datatype Kind = Generic | LttngModules | LttngUst | LttngTools | Babeltrace

  // ---------------------------------------------------------------------
  // The environment

  /** get_cppflags, get_ldflags and get_ld_library_path: the project's own
      installation directory, whatever its dependencies. */
  function IncludeFlag(install: string): string { " -I" + install + "/include" }
  function LibFlag(install: string): string { " -L" + install + "/lib" }
  function LibDir(install: string): string { install + "/lib" }

  /** The three variables get_env composes from the dependencies. */
  datatype PathVar = CppFlags | LdFlags | LdLibraryPath
  {
    function Name(): string
    {
      match this
      case CppFlags => "CPPFLAGS"
      case LdFlags => "LDFLAGS"
      case LdLibraryPath => "LD_LIBRARY_PATH"
    }

    /** What one dependency adds: " " and its flag, or its library
        directory and ":". */
    function Piece(install: string): (r: string)
      ensures r != ""
    {
      match this
      case CppFlags => " " + IncludeFlag(install)
      case LdFlags => " " + LibFlag(install)
      case LdLibraryPath => LibDir(install) + ":"
    }

    /** What stands between a value already in the environment and the
        accumulated one. */
    function Separator(): string
    {
      if this == LdLibraryPath then ":" else ""
    }
  }

  /** The accumulated value after the dependencies installed at `installs`. */
  function Accumulated(v: PathVar, installs: seq<string>): string
  {
    if installs == [] then "" else Accumulated(v, installs[..|installs| - 1]) + v.Piece(installs[|installs| - 1])
  }

  /** The same value built by the loop over the first `n` dependencies. */
  function AccumulatedTo(v: PathVar, installs: seq<string>, n: nat): string
    requires n <= |installs|
  {
    if n == 0 then "" else AccumulatedTo(v, installs, n - 1) + v.Piece(installs[n - 1])
  }

  /** The loop's value over the first `n` dependencies is the accumulated
      value of those dependencies. */
  lemma {:induction false} AccumulatedToPrefix(v: PathVar, installs: seq<string>, n: nat)
    requires n <= |installs|
    ensures AccumulatedTo(v, installs, n) == Accumulated(v, installs[..n])
  {
    if n > 0 {
      AccumulatedToPrefix(v, installs, n - 1);
      assert installs[..n][..n - 1] == installs[..n - 1];
    }
  }

  /** The variable is set to the accumulated value, after what was already
      there, and left alone when nothing accumulated. */
  function SetPathVar(env: Env, v: PathVar, acc: string): Env
  {
    if acc == "" then env
    else env[v.Name() := if v.Name() in env then env[v.Name()] + v.Separator() + acc else acc]
  }

  /** get_env: the process environment, the project's special variables and
      each direct dependency's added with a raise at a name already present,
      then CPPFLAGS, LDFLAGS and LD_LIBRARY_PATH from the dependencies'
      installation directories. */
  function LegacyEnv(base: Env, own: Env, depSpecials: seq<Env>, installs: seq<string>): Result<Env, Error>
  {
    match StrictMergeAll(base, [own] + depSpecials)
    case None => Err(BuildGraph.DuplicateSpecialVariable)
    case Some(merged) => Ok(WithPathVars(merged, installs))
  }

  /** CPPFLAGS, LDFLAGS and LD_LIBRARY_PATH set in turn. */
  function WithPathVars(env: Env, installs: seq<string>): Env
  {
    var e1 := SetPathVar(env, CppFlags, Accumulated(CppFlags, installs));
    var e2 := SetPathVar(e1, LdFlags, Accumulated(LdFlags, installs));
    SetPathVar(e2, LdLibraryPath, Accumulated(LdLibraryPath, installs))
  }

  /** Something accumulates exactly when there is a dependency. */
  lemma {:induction false} AccumulatedEmpty(v: PathVar, installs: seq<string>)
    ensures Accumulated(v, installs) == "" <==> installs == []
  {
    if installs != [] {
      var last := v.Piece(installs[|installs| - 1]);
      assert |Accumulated(v, installs)| >= |last| > 0;
    }
  }

  /** Every direct dependency's piece is in the accumulated value, in the
      dependency's place. */
  lemma {:induction false} AccumulatedHolds(v: PathVar, installs: seq<string>, i: nat) returns (p: nat)
    requires i < |installs|
    ensures InfixAt(v.Piece(installs[i]), Accumulated(v, installs), p)
  {
    var init := installs[..|installs| - 1];
    var front, last := Accumulated(v, init), v.Piece(installs[|installs| - 1]);
    var piece := v.Piece(installs[i]);
    assert Accumulated(v, installs) == front + last;
    if i == |installs| - 1 {
      assert InfixAt(piece, last, 0);
      InfixAtAppend(piece, front, last, 0);
      p := |front|;
    } else {
      assert init[i] == installs[i];
      p := AccumulatedHolds(v, init, i);
      InfixAtAppend(piece, last, front, p);
    }
  }

  /** get_env raises exactly when a special variable is defined twice:
      by the process environment and the project or a dependency, or by two
      of them. */
  lemma LegacyEnvFails(base: Env, own: Env, depSpecials: seq<Env>, installs: seq<string>)
    ensures LegacyEnv(base, own, depSpecials, installs).Err? <==> !NoCollision(base, [own] + depSpecials)
    ensures LegacyEnv(base, own, depSpecials, installs).Err? ==>
      LegacyEnv(base, own, depSpecials, installs).error == BuildGraph.DuplicateSpecialVariable
  {
    StrictMergeAllMeaning(base, [own] + depSpecials);
  }

  /** Without dependencies the environment is the process environment and
      the special variables, with the three variables as they were. */
  lemma LegacyEnvNoDeps(base: Env, own: Env, depSpecials: seq<Env>)
    requires NoCollision(base, [own] + depSpecials)
    ensures LegacyEnv(base, own, depSpecials, []) == Ok(base + UnionAll([own] + depSpecials))
  {
    StrictMergeAllMeaning(base, [own] + depSpecials);
  }

  /** Setting one variable leaves every other name alone. */
  lemma SetPathVarOther(env: Env, v: PathVar, acc: string, k: string)
    requires k != v.Name()
    ensures (k in SetPathVar(env, v, acc) <==> k in env) && (k in env ==> SetPathVar(env, v, acc)[k] == env[k])
  {
  }

  /** The three variables have three names. */
  lemma PathVarNames(u: PathVar, v: PathVar)
    requires u != v
    ensures u.Name() != v.Name()
  {
    assert |CppFlags.Name()| == 8 && |LdFlags.Name()| == 7 && |LdLibraryPath.Name()| == 15;
  }

  /** Once the three are set, each one's value is what its own step made
      of the earlier environment. */
  lemma WithPathVarsAt(env: Env, installs: seq<string>, v: PathVar)
    ensures var acc := Accumulated(v, installs);
      && (v.Name() in WithPathVars(env, installs) <==> v.Name() in SetPathVar(env, v, acc))
      && (v.Name() in env ==> WithPathVars(env, installs)[v.Name()] == SetPathVar(env, v, acc)[v.Name()])
      && (acc != "" ==> WithPathVars(env, installs)[v.Name()] == SetPathVar(env, v, acc)[v.Name()])
  {
    PathVarNames(CppFlags, LdFlags);
    PathVarNames(CppFlags, LdLibraryPath);
    PathVarNames(LdFlags, LdLibraryPath);
    var e1 := SetPathVar(env, CppFlags, Accumulated(CppFlags, installs));
    var e2 := SetPathVar(e1, LdFlags, Accumulated(LdFlags, installs));
    if v != CppFlags {
      SetPathVarOther(env, CppFlags, Accumulated(CppFlags, installs), v.Name());
    }
    if v == CppFlags || v == LdLibraryPath {
      SetPathVarOther(e1, LdFlags, Accumulated(LdFlags, installs), v.Name());
    }
    if v != LdLibraryPath {
      SetPathVarOther(e2, LdLibraryPath, Accumulated(LdLibraryPath, installs), v.Name());
    }
  }

  /** Names other than the three keep their values. */
  lemma WithPathVarsOther(env: Env, installs: seq<string>, k: string)
    requires k != "CPPFLAGS" && k != "LDFLAGS" && k != "LD_LIBRARY_PATH"
    ensures (k in WithPathVars(env, installs) <==> k in env) && (k in env ==> WithPathVars(env, installs)[k] == env[k])
  {
    var e1 := SetPathVar(env, CppFlags, Accumulated(CppFlags, installs));
    var e2 := SetPathVar(e1, LdFlags, Accumulated(LdFlags, installs));
    SetPathVarOther(env, CppFlags, Accumulated(CppFlags, installs), k);
    SetPathVarOther(e1, LdFlags, Accumulated(LdFlags, installs), k);
    SetPathVarOther(e2, LdLibraryPath, Accumulated(LdLibraryPath, installs), k);
  }

  /** With dependencies, each of the three variables keeps its earlier
      value in front and holds every direct dependency's piece. */
  lemma LegacyEnvWithDeps(base: Env, own: Env, depSpecials: seq<Env>, installs: seq<string>, v: PathVar, i: nat)
    requires NoCollision(base, [own] + depSpecials) && i < |installs|
    ensures var merged := base + UnionAll([own] + depSpecials);
      var env := LegacyEnv(base, own, depSpecials, installs);
      && env.Ok? && v.Name() in env.value
      && (v.Name() in merged ==> StartsWith(env.value[v.Name()], merged[v.Name()] + v.Separator()))
      && IsInfix(v.Piece(installs[i]), env.value[v.Name()])
  {
    StrictMergeAllMeaning(base, [own] + depSpecials);
    var merged := base + UnionAll([own] + depSpecials);
    var acc := Accumulated(v, installs);
    AccumulatedEmpty(v, installs);
    WithPathVarsAt(merged, installs, v);
    var value := WithPathVars(merged, installs)[v.Name()];
    var front := if v.Name() in merged then merged[v.Name()] + v.Separator() else "";
    assert value == front + acc;
    var p := AccumulatedHolds(v, installs, i);
    InfixAtAppend(v.Piece(installs[i]), front, acc, p);
    assert value[..|front|] == front;
  }

  /** Every name other than the three keeps the value the process
      environment or a special variable gave it. */
  lemma LegacyEnvKeepsOthers(base: Env, own: Env, depSpecials: seq<Env>, installs: seq<string>, k: string)
    requires NoCollision(base, [own] + depSpecials)
    requires k != "CPPFLAGS" && k != "LDFLAGS" && k != "LD_LIBRARY_PATH"
    ensures var merged := base + UnionAll([own] + depSpecials);
      var env := LegacyEnv(base, own, depSpecials, installs);
      && env.Ok? && (k in env.value <==> k in merged) && (k in merged ==> env.value[k] == merged[k])
  {
    StrictMergeAllMeaning(base, [own] + depSpecials);
    WithPathVarsOther(base + UnionAll([own] + depSpecials), installs, k);
  }

  /** What the dependencies contribute: their installation directories and
      their special variables, in list order. */
  function InstallsOf(ds: seq<Project>): (r: seq<string>)
    ensures |r| == |ds|
  {
    if ds == [] then [] else InstallsOf(ds[..|ds| - 1]) + [ds[|ds| - 1].installPath]
  }

  /** The special variables of the dependency objects, in attachment
      order: the heap counterpart of Sandbox.SpecialsOf, which reads the
      same field off the snapshots a runtime holds. */
  function SpecialsOf(ds: seq<Project>): (r: seq<Env>)
    reads ds`specialEnv
    ensures |r| == |ds|
  {
    if ds == [] then [] else SpecialsOf(ds[..|ds| - 1]) + [ds[|ds| - 1].specialEnv]
  }

  /** Entry `i` of each list is dependency `i`'s. */
  lemma {:induction false} DepListsAt(ds: seq<Project>)
    ensures forall i :: 0 <= i < |ds| ==> SpecialsOf(ds)[i] == ds[i].specialEnv && InstallsOf(ds)[i] == ds[i].installPath
  {
    if ds != [] {
      DepListsAt(ds[..|ds| - 1]);
    }
  }

  /** The project's own special variables come first. */
  lemma MergeFirst(base: Env, own: Env, specials: seq<Env>)
    ensures StrictMergeAll(base, [own] + specials[..0]) == StrictMerge(base, own)
    ensures StrictMerge(base, own).None? ==> StrictMergeAll(base, [own] + specials).None?
  {
    assert [own] + specials[..0] == [own] && [own][1..] == [];
    assert ([own] + specials)[0] == own;
  }

  /** Past the last dependency: the whole merge, and each accumulated value. */
  lemma MergeLast(base: Env, own: Env, specials: seq<Env>, installs: seq<string>, env: Env)
    requires StrictMergeAll(base, [own] + specials[..|specials|]) == Some(env)
    ensures StrictMergeAll(base, [own] + specials) == Some(env)
    ensures AccumulatedTo(CppFlags, installs, |installs|) == Accumulated(CppFlags, installs)
    ensures AccumulatedTo(LdFlags, installs, |installs|) == Accumulated(LdFlags, installs)
    ensures AccumulatedTo(LdLibraryPath, installs, |installs|) == Accumulated(LdLibraryPath, installs)
  {
    assert specials[..|specials|] == specials && installs[..|installs|] == installs;
    AccumulatedToPrefix(CppFlags, installs, |installs|);
    AccumulatedToPrefix(LdFlags, installs, |installs|);
    AccumulatedToPrefix(LdLibraryPath, installs, |installs|);
  }

  /** One more dependency's special variables: merged in, or the whole
      merge fails. */
  lemma MergeNext(base: Env, own: Env, specials: seq<Env>, i: nat, env: Env)
    requires i < |specials| && StrictMergeAll(base, [own] + specials[..i]) == Some(env)
    ensures StrictMergeAll(base, [own] + specials[..i + 1]) == StrictMerge(env, specials[i])
    ensures StrictMerge(env, specials[i]).None? ==> StrictMergeAll(base, [own] + specials).None?
  {
    var front := [own] + specials[..i];
    StrictMergeAllSnoc(base, front, specials[i]);
    assert [own] + specials[..i + 1] == front + [specials[i]];
    if StrictMerge(env, specials[i]).None? {
      var rest := specials[i + 1..];
      StrictMergeAllAppend(base, front + [specials[i]], rest);
      assert [own] + specials == front + [specials[i]] + rest;
    }
  }

  // ---------------------------------------------------------------------
  // Commands and the autobuild check

  /** make -j <cpus>, with CFLAGS forced to "-g -O0". */
  function BuildCommand(key: string, cpus: string, env: Env): Command
  {
    BuildGraph.Command(key, BuildGraph.Build, ["make", "-j", cpus], env["CFLAGS" := "-g -O0"])
  }

  /** The commands of configure, build and install, in order. */
  function OwnCommands(key: string, kind: Kind, install: string, flags: seq<string>, cpus: string, env: Env): seq<Command>
  {
    (if kind == LttngModules then [] else [BuildGraph.ConfigureCommand(key, install, flags, env)])
      + BuildInstallCommands(key, kind, install, cpus, env)
  }

  /** The commands of build and install. */
  function BuildInstallCommands(key: string, kind: Kind, install: string, cpus: string, env: Env): seq<Command>
  {
    [BuildCommand(key, cpus, env)] + InstallCommands(key, kind, install, env)
  }

  /** The commands of install. */
  function InstallCommands(key: string, kind: Kind, install: string, env: Env): seq<Command>
  {
    if kind == LttngModules then
      [BuildGraph.ModulesInstallCommand(key, install, env), BuildGraph.DepmodCommand(key, install, env)]
    else
      [BuildGraph.InstallCommand(key, env)]
  }

  /** Every command of `cs` goes through. */
  predicate AllSucceed(w: World, cs: seq<Command>)
  {
    forall i :: 0 <= i < |cs| ==> w.Succeeds(cs[i])
  }

  lemma AllSucceedAppend(w: World, a: seq<Command>, b: seq<Command>)
    ensures AllSucceed(w, a + b) <==> AllSucceed(w, a) && AllSucceed(w, b)
  {
    if AllSucceed(w, a) && AllSucceed(w, b) {
      forall i | 0 <= i < |a + b|
        ensures w.Succeeds((a + b)[i])
      {
        if i >= |a| {
          assert (a + b)[i] == b[i - |a|];
        }
      }
    }
    if AllSucceed(w, a + b) {
      forall i | 0 <= i < |a|
        ensures w.Succeeds(a[i])
      {
        assert (a + b)[i] == a[i];
      }
      forall i | 0 <= i < |b|
        ensures w.Succeeds(b[i])
      {
        assert (a + b)[|a| + i] == b[i];
      }
    }
  }

  /** The own commands are configure (left out for Lttng_modules), then
      build, then the kind's install commands; they all succeed exactly
      when each of those parts does. */
  lemma OwnCommandsSplit(w: World, key: string, kind: Kind, install: string, flags: seq<string>, cpus: string, env: Env)
    ensures var own := OwnCommands(key, kind, install, flags, cpus, env);
      && |own| == 3
      && (kind != LttngModules ==> own[0] == BuildGraph.ConfigureCommand(key, install, flags, env))
      && own[|own| - |InstallCommands(key, kind, install, env)| - 1] == BuildCommand(key, cpus, env)
    ensures AllSucceed(w, OwnCommands(key, kind, install, flags, cpus, env)) <==>
      && (kind == LttngModules || w.Succeeds(BuildGraph.ConfigureCommand(key, install, flags, env)))
      && w.Succeeds(BuildCommand(key, cpus, env))
      && AllSucceed(w, InstallCommands(key, kind, install, env))
  {
    var first := if kind == LttngModules then [] else [BuildGraph.ConfigureCommand(key, install, flags, env)];
    var build := [BuildCommand(key, cpus, env)];
    var installs := InstallCommands(key, kind, install, env);
    assert OwnCommands(key, kind, install, flags, cpus, env) == first + (build + installs);
    AllSucceedAppend(w, first, build + installs);
    AllSucceedAppend(w, build, installs);
  }

  /** The check of autobuild as written: a left-to-right xor of the flags in
      which isBootStrapped appears twice. */
  function ManuallyTriggered(checkedOut: bool, bootStrapped: bool, built: bool, configured: bool, installed: bool): bool
  {
    ((((checkedOut != bootStrapped) != bootStrapped) != built) != configured) != installed
  }

  function CountSet(flags: seq<bool>): nat
  {
    if flags == [] then 0 else (if flags[0] then 1 else 0) + CountSet(flags[1..])
  }

  /** isBootStrapped cancels out: autobuild refuses exactly when an odd
      number of isCheckedOut, isBuilt, isConfigured and isInstalled are set. */
  lemma ManuallyTriggeredOdd(checkedOut: bool, bootStrapped: bool, built: bool, configured: bool, installed: bool)
    ensures ManuallyTriggered(checkedOut, bootStrapped, built, configured, installed)
        <==> CountSet([checkedOut, built, configured, installed]) % 2 == 1
  {
    var c0 := if checkedOut then 1 else 0;
    var c1 := if built then 1 else 0;
    var c2 := if configured then 1 else 0;
    var c3 := if installed then 1 else 0;
    assert [installed][1..] == [];
    assert CountSet([installed]) == c3;
    assert [configured, installed][1..] == [installed];
    assert CountSet([configured, installed]) == c2 + c3;
    assert [built, configured, installed][1..] == [configured, installed];
    assert CountSet([built, configured, installed]) == c1 + c2 + c3;
    assert [checkedOut, built, configured, installed][1..] == [built, configured, installed];
    assert CountSet([checkedOut, built, configured, installed]) == c0 + c1 + c2 + c3;
  }

  /** After an autobuild that ran configure, build and install, the next
      one refuses: three flags are set and isCheckedOut never is. */
  lemma RebuildRefused(bootStrapped: bool)
    ensures ManuallyTriggered(false, bootStrapped, true, true, true)
  {
  }

  /** An Lttng_modules project never sets isConfigured, so its autobuild can
      run again; so can a new project's. */
  lemma ModulesRebuildAllowed(bootStrapped: bool)
    ensures !ManuallyTriggered(false, bootStrapped, true, false, true)
    ensures !ManuallyTriggered(false, bootStrapped, false, false, false)
  {
  }

  // ---------------------------------------------------------------------
  // Project

  class Project {
    const key: string
    const gitPath: string
    const sha1: string
    const kind: Kind
    const sourcePath: string
    const installPath: string

    var configureFlags: seq<string>
    var dependencies: seq<Project>
    var isCheckedOut: bool
    var isBootStrapped: bool
    var isBuilt: bool
    var isConfigured: bool
    var isInstalled: bool
    var specialEnv: Env
    ghost var Repr: set<Project>

    /** No dependency reaches back to this project, and each dependency's
        footprint lies inside this one's. */
    ghost predicate Valid()
      reads this`Repr, this`dependencies, Repr`Repr, Repr`dependencies
      decreases Repr
    {
      && this in Repr
      && forall i :: 0 <= i < |dependencies| ==>
           && dependencies[i] in Repr
           && dependencies[i].Repr <= Repr
           && this !in dependencies[i].Repr
           && dependencies[i].Valid()
    }

    /** What get_env returns in this state, for the process environment `base`. */
    function EnvOf(base: Env): Result<Env, Error>
      reads this`specialEnv, this`dependencies, dependencies`specialEnv
    {
      LegacyEnv(base, specialEnv, SpecialsOf(dependencies), InstallsOf(dependencies))
    }

    /** Every direct dependency is flagged installed. */
    predicate DepsInstalled()
      reads this`dependencies, dependencies`isInstalled
    {
      forall i :: 0 <= i < |dependencies| ==> dependencies[i].isInstalled
    }

    /** The fields __init__ sets before checkout and bootstrap; Lttng_ust
        adds --disable-man-pages to the configure flags. */
    constructor (key: string, gitPath: string, sha1: string, kind: Kind, tmpdir: string, ccache: Option<string>)
      ensures Valid() && Repr == {this}
      ensures this.key == key && this.gitPath == gitPath && this.sha1 == sha1 && this.kind == kind
      ensures sourcePath == tmpdir + "/source" && installPath == tmpdir + "/install"
      ensures configureFlags == CcacheFlags(ccache) + (if kind == LttngUst then ["--disable-man-pages"] else [])
      ensures dependencies == [] && specialEnv == map[]
      ensures !isCheckedOut && !isBootStrapped && !isBuilt && !isConfigured && !isInstalled
    {
      this.key := key;
      this.gitPath := gitPath;
      this.sha1 := sha1;
      this.kind := kind;
      sourcePath := tmpdir + "/source";
      installPath := tmpdir + "/install";
      configureFlags := CcacheFlags(ccache) + (if kind == LttngUst then ["--disable-man-pages"] else []);
      dependencies := [];
      isCheckedOut := false;
      isBootStrapped := false;
      isBuilt := false;
      isConfigured := false;
      isInstalled := false;
      specialEnv := map[];
      Repr := {this};
    }

    /** Project(...): the fields, then checkout (git clone and a checkout of
        the commit) and bootstrap; Lttng_modules has no bootstrap. Neither
        sets a flag. */
    static method Create(key: string, gitPath: string, sha1: string, kind: Kind, tmpdir: string, w: World)
      returns (r: Result<Project, Error>, run: seq<Command>)
      ensures var co := BuildGraph.CheckoutCommand(key, gitPath, tmpdir + "/source", sha1, w.env);
              var bs := BuildGraph.BootstrapCommand(key, w.env);
              && (!w.Succeeds(co) ==> r == Err(BuildGraph.CommandFailed(key, BuildGraph.Checkout)) && run == [co])
              && (w.Succeeds(co) && kind != LttngModules && !w.Succeeds(bs) ==>
                    r == Err(BuildGraph.CommandFailed(key, BuildGraph.Bootstrap)) && run == [co, bs])
              && (w.Succeeds(co) && (kind == LttngModules || w.Succeeds(bs)) ==>
                    r.Ok? && run == [co] + (if kind == LttngModules then [] else [bs]))
      ensures r.Ok? ==>
        && fresh(r.value) && r.value.Valid() && r.value.Repr == {r.value}
        && r.value.key == key && r.value.kind == kind && r.value.installPath == tmpdir + "/install"
        && r.value.dependencies == [] && r.value.specialEnv == map[]
        && r.value.configureFlags == CcacheFlags(w.ccache) + (if kind == LttngUst then ["--disable-man-pages"] else [])
        && !r.value.isCheckedOut && !r.value.isBootStrapped && !r.value.isBuilt && !r.value.isConfigured && !r.value.isInstalled
    {
      var p := new Project(key, gitPath, sha1, kind, tmpdir, w.ccache);
      var co := BuildGraph.CheckoutCommand(key, gitPath, p.sourcePath, sha1, w.env);
      run := [co];
      if !w.Succeeds(co) {
        return Err(BuildGraph.CommandFailed(key, BuildGraph.Checkout)), run;
      }
      if kind != LttngModules {
        var bs := BuildGraph.BootstrapCommand(key, w.env);
        run := run + [bs];
        if !w.Succeeds(bs) {
          return Err(BuildGraph.CommandFailed(key, BuildGraph.Bootstrap)), run;
        }
      }
      return Ok(p), run;
    }

    /** `project.dependencies.append(d)`, as the callers do. */
    method AddDependency(d: Project)
      requires Valid() && d.Valid() && this !in d.Repr
      modifies this`dependencies, this`Repr
      ensures Valid()
      ensures dependencies == old(dependencies) + [d] && Repr == old(Repr) + d.Repr
    {
      dependencies := dependencies + [d];
      Repr := Repr + d.Repr;
    }

    /** get_env: the project's special variables, the loop over the
        dependencies, then the three path variables. */
    method GetEnv(base: Env) returns (r: Result<Env, Error>)
      ensures r == EnvOf(base)
    {
      var own := AddStrict(base, specialEnv);
      MergeFirst(base, specialEnv, SpecialsOf(dependencies));
      if own.None? {
        return Err(BuildGraph.DuplicateSpecialVariable);
      }
      var merged, cpp, ld, ldPath := MergeDeps(base, specialEnv, dependencies, own.value);
      if merged.None? {
        return Err(BuildGraph.DuplicateSpecialVariable);
      }
      var env := SetPathVar(merged.value, CppFlags, cpp);
      env := SetPathVar(env, LdFlags, ld);
      env := SetPathVar(env, LdLibraryPath, ldPath);
      return Ok(env);
    }

    /** The loop of get_env over the dependencies: each one's special
        variables added, stopping at a name already present, and its pieces
        appended to the three accumulated values. */
    static method MergeDeps(base: Env, own: Env, ds: seq<Project>, start: Env)
      returns (merged: Option<Env>, cpp: string, ld: string, ldPath: string)
      requires StrictMerge(base, own) == Some(start)
      ensures merged == StrictMergeAll(base, [own] + SpecialsOf(ds))
      ensures merged.Some? ==> && cpp == Accumulated(CppFlags, InstallsOf(ds))
                               && ld == Accumulated(LdFlags, InstallsOf(ds))
                               && ldPath == Accumulated(LdLibraryPath, InstallsOf(ds))
    {
      ghost var specials, installs := SpecialsOf(ds), InstallsOf(ds);
      DepListsAt(ds);
      MergeFirst(base, own, specials);
      merged, cpp, ld, ldPath := MergeLoop(base, own, ds, specials, installs, start);
      if merged.Some? {
        MergeLast(base, own, specials, installs, merged.value);
      }
    }

    /** The loop itself, over the special variables and installation
        directories of `ds`. */
    static method MergeLoop(base: Env, own: Env, ds: seq<Project>, ghost specials: seq<Env>, ghost installs: seq<string>, start: Env)
      returns (merged: Option<Env>, cpp: string, ld: string, ldPath: string)
      requires |specials| == |ds| && forall i :: 0 <= i < |ds| ==> specials[i] == ds[i].specialEnv
      requires |installs| == |ds| && forall i :: 0 <= i < |ds| ==> installs[i] == ds[i].installPath
      requires StrictMergeAll(base, [own] + specials[..0]) == Some(start)
      ensures merged.None? ==> StrictMergeAll(base, [own] + specials).None?
      ensures merged.Some? ==> StrictMergeAll(base, [own] + specials[..|specials|]) == merged
      ensures merged.Some? ==> && cpp == AccumulatedTo(CppFlags, installs, |installs|)
                               && ld == AccumulatedTo(LdFlags, installs, |installs|)
                               && ldPath == AccumulatedTo(LdLibraryPath, installs, |installs|)
    {
      var env := start;
      cpp, ld, ldPath := "", "", "";
      for i := 0 to |ds|
        invariant StrictMergeAll(base, [own] + specials[..i]) == Some(env)
        invariant cpp == AccumulatedTo(CppFlags, installs, i)
        invariant ld == AccumulatedTo(LdFlags, installs, i)
        invariant ldPath == AccumulatedTo(LdLibraryPath, installs, i)
      {
        var d := ds[i];
        var added;
        added, cpp, ld, ldPath := MergeDep(base, own, specials, installs, i, env, d.specialEnv, d.installPath, cpp, ld, ldPath);
        if added.None? {
          return None, cpp, ld, ldPath;
        }
        env := added.value;
      }
      return Some(env), cpp, ld, ldPath;
    }

    /** One turn of that loop, for the dependency with special variables
        `special` installed at `install`. */
    static method MergeDep(base: Env, own: Env, ghost specials: seq<Env>, ghost installs: seq<string>, i: nat,
                           env: Env, special: Env, install: string, cpp: string, ld: string, ldPath: string)
      returns (added: Option<Env>, cpp': string, ld': string, ldPath': string)
      requires i < |specials| && i < |installs| && specials[i] == special && installs[i] == install
      requires StrictMergeAll(base, [own] + specials[..i]) == Some(env)
      requires cpp == AccumulatedTo(CppFlags, installs, i) && ld == AccumulatedTo(LdFlags, installs, i)
      requires ldPath == AccumulatedTo(LdLibraryPath, installs, i)
      ensures added == StrictMergeAll(base, [own] + specials[..i + 1])
      ensures added.None? ==> StrictMergeAll(base, [own] + specials).None?
      ensures cpp' == AccumulatedTo(CppFlags, installs, i + 1) && ld' == AccumulatedTo(LdFlags, installs, i + 1)
      ensures ldPath' == AccumulatedTo(LdLibraryPath, installs, i + 1)
    {
      cpp' := cpp + CppFlags.Piece(install);
      ld' := ld + LdFlags.Piece(install);
      ldPath' := ldPath + LdLibraryPath.Piece(install);
      added := AddStrict(env, special);
      MergeNext(base, own, specials, i, env);
    }

    // -------------------------------------------------------------------
    // Lifecycle steps: each returns what it returned or raised, and the
    // commands it ran; a flag is set only after its command succeeded.

    method CheckDepsInstalled() returns (b: bool)
      ensures b == DepsInstalled()
    {
      for i := 0 to |dependencies|
        invariant forall j :: 0 <= j < i ==> dependencies[j].isInstalled
      {
        if !dependencies[i].isInstalled {
          return false;
        }
      }
      return true;
    }

    /** configure: refused while a dependency is not installed, then
        ./configure --prefix=<install> with the configure flags. Lttng_modules
        has no configure step. */
    method RunConfigure(w: World) returns (r: Result<(), Error>, run: seq<Command>)
      modifies this`isConfigured
      ensures EnvOf(w.env) == old(EnvOf(w.env))
      ensures kind == LttngModules ==> r == Ok(()) && run == [] && isConfigured == old(isConfigured)
      ensures kind != LttngModules && !old(DepsInstalled()) ==>
        r == Err(BuildGraph.DependencyNotInstalled) && run == [] && isConfigured == old(isConfigured)
      ensures kind != LttngModules && old(DepsInstalled()) && old(EnvOf(w.env)).Err? ==>
        r == Err(old(EnvOf(w.env)).error) && run == [] && isConfigured == old(isConfigured)
      ensures kind != LttngModules && old(DepsInstalled()) && old(EnvOf(w.env)).Ok? ==>
        var c := BuildGraph.ConfigureCommand(key, installPath, configureFlags, old(EnvOf(w.env)).value);
        && run == [c]
        && r == (if w.Succeeds(c) then Ok(()) else Err(BuildGraph.CommandFailed(key, BuildGraph.Configure)))
        && isConfigured == (old(isConfigured) || w.Succeeds(c))
    {
      if kind == LttngModules {
        return Ok(()), [];
      }
      var ready := CheckDepsInstalled();
      if !ready {
        return Err(BuildGraph.DependencyNotInstalled), [];
      }
      var env := GetEnv(w.env);
      if env.Err? {
        return Err(env.error), [];
      }
      var c := BuildGraph.ConfigureCommand(key, installPath, configureFlags, env.value);
      run := [c];
      if !w.Succeeds(c) {
        return Err(BuildGraph.CommandFailed(key, BuildGraph.Configure)), run;
      }
      isConfigured := true;
      return Ok(()), run;
    }

    /** build: make -j <cpus> with CFLAGS="-g -O0" over the environment; it
        does not look at isConfigured. */
    method RunBuild(w: World) returns (r: Result<(), Error>, run: seq<Command>)
      modifies this`isBuilt
      ensures EnvOf(w.env) == old(EnvOf(w.env))
      ensures old(EnvOf(w.env)).Err? ==> r == Err(old(EnvOf(w.env)).error) && run == [] && isBuilt == old(isBuilt)
      ensures old(EnvOf(w.env)).Ok? ==>
        var c := BuildCommand(key, w.cpus, old(EnvOf(w.env)).value);
        && run == [c] && c.env["CFLAGS"] == "-g -O0"
        && r == (if w.Succeeds(c) then Ok(()) else Err(BuildGraph.CommandFailed(key, BuildGraph.Build)))
        && isBuilt == (old(isBuilt) || w.Succeeds(c))
    {
      var env := GetEnv(w.env);
      if env.Err? {
        return Err(env.error), [];
      }
      var c := BuildCommand(key, w.cpus, env.value);
      run := [c];
      if !w.Succeeds(c) {
        return Err(BuildGraph.CommandFailed(key, BuildGraph.Build)), run;
      }
      isBuilt := true;
      return Ok(()), run;
    }

    /** install: make install; Lttng_modules runs make modules_install into
        the installation directory and then a local depmod. */
    method RunInstall(w: World) returns (r: Result<(), Error>, run: seq<Command>)
      modifies this`isInstalled
      ensures old(EnvOf(w.env)).Err? ==> r == Err(old(EnvOf(w.env)).error) && run == [] && isInstalled == old(isInstalled)
      ensures old(EnvOf(w.env)).Ok? && kind != LttngModules ==>
        var c := BuildGraph.InstallCommand(key, old(EnvOf(w.env)).value);
        && run == [c]
        && r == (if w.Succeeds(c) then Ok(()) else Err(BuildGraph.CommandFailed(key, BuildGraph.Install)))
        && isInstalled == (old(isInstalled) || w.Succeeds(c))
      ensures old(EnvOf(w.env)).Ok? && kind == LttngModules ==>
        var mi := BuildGraph.ModulesInstallCommand(key, installPath, old(EnvOf(w.env)).value);
        var dm := BuildGraph.DepmodCommand(key, installPath, old(EnvOf(w.env)).value);
        && run == (if w.Succeeds(mi) then [mi, dm] else [mi])
        && r == (if !w.Succeeds(mi) then Err(BuildGraph.CommandFailed(key, BuildGraph.ModulesInstall))
                 else if !w.Succeeds(dm) then Err(BuildGraph.CommandFailed(key, BuildGraph.Depmod))
                 else Ok(()))
        && isInstalled == (old(isInstalled) || r.Ok?)
      ensures r.Ok? <==> old(EnvOf(w.env)).Ok? && AllSucceed(w, InstallCommands(key, kind, installPath, old(EnvOf(w.env)).value))
      ensures r.Ok? ==> run == InstallCommands(key, kind, installPath, old(EnvOf(w.env)).value) && isInstalled
    {
      var env := GetEnv(w.env);
      if env.Err? {
        return Err(env.error), [];
      }
      ghost var cs := InstallCommands(key, kind, installPath, env.value);
      if kind != LttngModules {
        var c := BuildGraph.InstallCommand(key, env.value);
        run := [c];
        if !w.Succeeds(c) {
          assert !w.Succeeds(cs[0]);
          return Err(BuildGraph.CommandFailed(key, BuildGraph.Install)), run;
        }
      } else {
        var mi := BuildGraph.ModulesInstallCommand(key, installPath, env.value);
        run := [mi];
        if !w.Succeeds(mi) {
          assert !w.Succeeds(cs[0]);
          return Err(BuildGraph.CommandFailed(key, BuildGraph.ModulesInstall)), run;
        }
        var dm := BuildGraph.DepmodCommand(key, installPath, env.value);
        run := run + [dm];
        if !w.Succeeds(dm) {
          assert !w.Succeeds(cs[1]);
          return Err(BuildGraph.CommandFailed(key, BuildGraph.Depmod)), run;
        }
      }
      isInstalled := true;
      return Ok(()), run;
    }

    /** The project's own part of autobuild, once the dependencies are
        built: the check of the flags, then the three steps. */
    method AutobuildOwn(w: World) returns (r: Result<(), Error>, run: seq<Command>)
      modifies this`isConfigured, this`isBuilt, this`isInstalled
      ensures r == Err(BuildGraph.ManuallyTriggered) <==>
        ManuallyTriggered(isCheckedOut, isBootStrapped, old(isBuilt), old(isConfigured), old(isInstalled))
      ensures r.Ok? <==>
        && !ManuallyTriggered(isCheckedOut, isBootStrapped, old(isBuilt), old(isConfigured), old(isInstalled))
        && old(OwnSucceeds(w, DepsInstalled()))
      ensures r.Ok? ==>
        && run == OwnCommands(key, kind, installPath, configureFlags, w.cpus, old(EnvOf(w.env)).value)
        && isBuilt && isInstalled && (kind != LttngModules ==> isConfigured && DepsInstalled())
      ensures old(isInstalled) ==> isInstalled
    {
      if ManuallyTriggered(isCheckedOut, isBootStrapped, isBuilt, isConfigured, isInstalled) {
        return Err(BuildGraph.ManuallyTriggered), [];
      }
      r, run := RunSteps(w);
    }

    /** Whether configure, build and install all go through: the
        dependencies are installed (Lttng_modules does not ask), the
        environment can be made and none of the commands fails. */
    predicate OwnSucceeds(w: World, depsInstalled: bool)
      reads this`configureFlags, this`specialEnv, this`dependencies, dependencies`specialEnv
    {
      && (kind == LttngModules || depsInstalled) && EnvOf(w.env).Ok?
      && AllSucceed(w, OwnCommands(key, kind, installPath, configureFlags, w.cpus, EnvOf(w.env).value))
    }

    /** configure, build and install, every time, stopping at the first
        that raises. */
    method RunSteps(w: World) returns (r: Result<(), Error>, run: seq<Command>)
      modifies this`isConfigured, this`isBuilt, this`isInstalled
      ensures r != Err(BuildGraph.ManuallyTriggered)
      ensures r.Ok? <==> old(OwnSucceeds(w, DepsInstalled()))
      ensures r.Ok? ==> run == OwnCommands(key, kind, installPath, configureFlags, w.cpus, old(EnvOf(w.env)).value)
      ensures r.Ok? ==> isBuilt && isInstalled && (kind != LttngModules ==> isConfigured && DepsInstalled())
      ensures old(isInstalled) ==> isInstalled
    {
      ghost var env, deps := EnvOf(w.env), DepsInstalled();
      ghost var first := if env.Ok? && kind != LttngModules then [BuildGraph.ConfigureCommand(key, installPath, configureFlags, env.value)] else [];
      ghost var rest := if env.Ok? then BuildInstallCommands(key, kind, installPath, w.cpus, env.value) else [];
      ghost var own := first + rest;
      assert env.Ok? ==> own == OwnCommands(key, kind, installPath, configureFlags, w.cpus, env.value);
      AllSucceedAppend(w, first, rest);
      var more;
      r, run := RunConfigure(w);
      if r.Err? {
        assert kind != LttngModules && (!deps || env.Err? || !w.Succeeds(own[0]));
        return;
      }
      assert run == first;
      r, more := RunBuildInstall(w);
      run := run + more;
    }

    /** build, then install: make install, or for Lttng_modules
        make modules_install and depmod. */
    method RunBuildInstall(w: World) returns (r: Result<(), Error>, run: seq<Command>)
      modifies this`isBuilt, this`isInstalled
      ensures r != Err(BuildGraph.ManuallyTriggered)
      ensures r.Ok? <==> old(EnvOf(w.env)).Ok? && AllSucceed(w, BuildInstallCommands(key, kind, installPath, w.cpus, old(EnvOf(w.env)).value))
      ensures r.Ok? ==>
        && run == BuildInstallCommands(key, kind, installPath, w.cpus, old(EnvOf(w.env)).value)
        && isBuilt && isInstalled
      ensures old(isInstalled) ==> isInstalled
    {
      ghost var env := EnvOf(w.env);
      ghost var first := if env.Ok? then [BuildCommand(key, w.cpus, env.value)] else [];
      ghost var rest := if env.Ok? then InstallCommands(key, kind, installPath, env.value) else [];
      assert env.Ok? ==> first + rest == BuildInstallCommands(key, kind, installPath, w.cpus, env.value);
      AllSucceedAppend(w, first, rest);
      var more;
      r, run := RunBuild(w);
      if r.Err? {
        assert env.Ok? ==> !w.Succeeds(first[0]);
        return;
      }
      assert run == first;
      r, more := RunInstall(w);
      run := run + more;
    }

    /** The loop of autobuild over the dependencies, in list order, stopping
        at the first that raises. This project itself is left alone. */
    method AutobuildDeps(w: World) returns (r: Result<(), Error>, run: seq<Command>)
      requires Valid()
      modifies (Repr - {this})`isConfigured, (Repr - {this})`isBuilt, (Repr - {this})`isInstalled
      ensures Valid()
      ensures r.Ok? ==> DepsInstalled()
      ensures forall p :: p in Repr && old(p.isInstalled) ==> p.isInstalled
      decreases Repr, 1
    {
      r, run := Ok(()), [];
      for i := 0 to |dependencies|
        invariant Valid()
        invariant forall j :: 0 <= j < i ==> dependencies[j].isInstalled
        invariant forall p :: p in Repr && old(p.isInstalled) ==> p.isInstalled
      {
        var more;
        r, more := AutobuildDep(i, w);
        run := run + more;
        if r.Err? {
          return;
        }
      }
    }

    /** One turn of that loop: `dependencies[i].autobuild()`. */
    method AutobuildDep(i: nat, w: World) returns (r: Result<(), Error>, run: seq<Command>)
      requires Valid() && i < |dependencies|
      modifies (Repr - {this})`isConfigured, (Repr - {this})`isBuilt, (Repr - {this})`isInstalled
      ensures Valid()
      ensures r.Ok? ==> dependencies[i].isInstalled
      ensures forall p :: p in Repr && old(p.isInstalled) ==> p.isInstalled
      decreases Repr, 0
    {
      var d := dependencies[i];
      r, run := d.Autobuild(w);
    }

    /** autobuild: every dependency first, then the project's own part. It
        raises when an odd number of the step flags are set, and otherwise
        reruns configure, build and install even when they ran before. */
    method Autobuild(w: World) returns (r: Result<(), Error>, run: seq<Command>)
      requires Valid()
      modifies Repr`isConfigured, Repr`isBuilt, Repr`isInstalled
      ensures Valid()
      ensures ManuallyTriggered(isCheckedOut, isBootStrapped, old(isBuilt), old(isConfigured), old(isInstalled)) ==> r.Err?
      ensures r.Ok? ==> EnvOf(w.env).Ok?
      ensures r.Ok? && EnvOf(w.env).Ok? ==>
        var own := OwnCommands(key, kind, installPath, configureFlags, w.cpus, EnvOf(w.env).value);
        && |own| <= |run| && run[|run| - |own|..] == own
        && isBuilt && isInstalled && (kind != LttngModules ==> isConfigured && DepsInstalled())
      ensures forall p :: p in Repr && old(p.isInstalled) ==> p.isInstalled
      decreases Repr, 2
    {
      var more;
      r, run := AutobuildDeps(w);
      if r.Err? {
        return;
      }
      r, more := AutobuildOwn(w);
      run := run + more;
    }
  }

  /** The configure flags that name ccache, when it is installed. */
  function CcacheFlags(ccache: Option<string>): seq<string>
  {
    match ccache
    case Some(c) => ["CC=" + c + " gcc", "CXX=" + c + " g++"]
    case None => []
  }
}
