/** The values behind lttng_ivc/utils/project.py: the kinds of project, the
    external commands they run, the errors they raise, and the persisted
    form of a project (what pickle stores: its fields and, recursively, its
    dependencies in dict order). The recursive flag and path accessors and
    the environment get_env composes are defined here on that tree. */
module BuildGraph {
  import opened Base
  import opened Environment
  import Utils

  /** The Project subclass: Babeltrace, Lttng_modules, Lttng_tools, Lttng_ust, Urcu. */
  datatype Kind = Babeltrace | LttngModules | LttngTools | LttngUst | Urcu

  /** The external commands a project runs. */
  datatype Step = Checkout | Bootstrap | Configure | Build | Install | ModulesInstall | Depmod | RpathStrip

  /** One external command: the project it belongs to, its step, its
      arguments and the environment it runs with. */
  datatype Command = Command(owner: string, step: Step, args: seq<string>, env: Env)

  /** The exceptions the lifecycle raises. */
  datatype Error =
    | Immutable(operation: string)              // "Object is immutable. Illegal <operation>"
    | CommandFailed(owner: string, step: Step)  // subprocess.CalledProcessError, or a git failure
    | DependencyNotInstalled
    | ManuallyTriggered
    | DuplicateSpecialVariable                  // "Multiple definition of a special environment variable"
    | MiXsdNotFound

  /** A project as pickle stores it. */
  datatype Snapshot = Snapshot(
    key: string,             // the marker label
    gitPath: string,
    sha1: string,
    kind: Kind,
    checksum: string,        // checksum of the build-logic file when it was built
    basedir: string,
    configureFlags: seq<string>,
    immutable: bool,
    isConfigured: bool,
    isBuilt: bool,
    isInstalled: bool,
    skip: bool,
    specialEnv: Env,
    miXsd: Option<string>,
    deps: seq<Dep>)          // the dependencies dict, in insertion order

  datatype Dep = Dep(key: string, snap: Snapshot)

  function LogPath(basedir: string): string { PathJoin(basedir, "log") }
  function SourcePath(basedir: string): string { PathJoin(basedir, "source") }
  function InstallPath(basedir: string): string { PathJoin(basedir, "install") }

  /** The dependency labels of a snapshot, in order. */
  function DepKeys(deps: seq<Dep>): (r: seq<string>)
    ensures |r| == |deps| && forall i :: 0 <= i < |deps| ==> r[i] == deps[i].key
  {
    if deps == [] then [] else [deps[0].key] + DepKeys(deps[1..])
  }

  /** Dependency labels are distinct at every level, as dict keys are. */
  predicate WellFormed(s: Snapshot)
    decreases s, 1
  {
    Distinct(DepKeys(s.deps)) && DepsWellFormed(s, 0)
  }

  predicate DepsWellFormed(s: Snapshot, i: nat)
    requires i <= |s.deps|
    decreases s, 0, |s.deps| - i
  {
    i == |s.deps| || (WellFormed(s.deps[i].snap) && DepsWellFormed(s, i + 1))
  }

  /** DepsWellFormed says that every dependency from `i` on is well formed. */
  lemma {:induction false} DepsWellFormedMeaning(s: Snapshot, i: nat)
    requires i <= |s.deps|
    ensures DepsWellFormed(s, i) <==> forall j :: i <= j < |s.deps| ==> WellFormed(s.deps[j].snap)
    decreases |s.deps| - i
  {
    if i < |s.deps| {
      DepsWellFormedMeaning(s, i + 1);
    }
  }

  // ---------------------------------------------------------------------
  // Recursive accessors

  /** The five recursive accessors get_cppflags … get_bin_path. */
  datatype Accessor = CppFlags | LdFlags | LdLibraryPath | PkgConfigPath | BinPath

  /** This project's own item of an accessor. */
  function OwnEntry(acc: Accessor, install: string): string
  {
    match acc
    case CppFlags => "-I" + install + "/include"
    case LdFlags => "-L" + install + "/lib"
    case LdLibraryPath => install + "/lib"
    case PkgConfigPath => install + "/lib/pkgconfig"
    case BinPath => install + "/bin"
  }

  /** Flags are joined with a space, search paths with a colon. */
  function Delim(acc: Accessor): string
  {
    if acc == CppFlags || acc == LdFlags then " " else ":"
  }

  /** The environment variable an accessor's value goes to. */
  function VarName(acc: Accessor): string
  {
    match acc
    case CppFlags => "CPPFLAGS"
    case LdFlags => "LDFLAGS"
    case LdLibraryPath => "LD_LIBRARY_PATH"
    case PkgConfigPath => "PKG_CONFIG_PATH"
    case BinPath => "PATH"
  }

  /** An accessor: the own item, then each dependency's recursive result in
      dict order, joined. */
  function Paths(s: Snapshot, acc: Accessor): string
    decreases s, 1
  {
    Join([OwnEntry(acc, InstallPath(s.basedir))] + DepPaths(s, acc, 0), Delim(acc))
  }

  function DepPaths(s: Snapshot, acc: Accessor, i: nat): (r: seq<string>)
    requires i <= |s.deps|
    ensures |r| == |s.deps| - i
    decreases s, 0, |s.deps| - i
  {
    if i == |s.deps| then [] else [Paths(s.deps[i].snap, acc)] + DepPaths(s, acc, i + 1)
  }

  /** The install paths of the graph in preorder: this one, then each
      dependency's, in dict order. */
  function Installs(s: Snapshot): (r: seq<string>)
    ensures r != [] && r[0] == InstallPath(s.basedir)
    decreases s, 1
  {
    [InstallPath(s.basedir)] + DepInstalls(s, 0)
  }

  function DepInstalls(s: Snapshot, i: nat): seq<string>
    requires i <= |s.deps|
    decreases s, 0, |s.deps| - i
  {
    if i == |s.deps| then [] else Installs(s.deps[i].snap) + DepInstalls(s, i + 1)
  }

  function Entries(acc: Accessor, installs: seq<string>): (r: seq<string>)
    ensures |r| == |installs| && forall i :: 0 <= i < |installs| ==> r[i] == OwnEntry(acc, installs[i])
  {
    if installs == [] then [] else [OwnEntry(acc, installs[0])] + Entries(acc, installs[1..])
  }

  lemma EntriesAppend(acc: Accessor, a: seq<string>, b: seq<string>)
    ensures Entries(acc, a + b) == Entries(acc, a) + Entries(acc, b)
  {
  }

  /** Every accessor is its own item applied to the preorder of install paths,
      joined once: the nested joins flatten. */
  lemma {:induction false} PathsPreorder(s: Snapshot, acc: Accessor)
    ensures Paths(s, acc) == Join(Entries(acc, Installs(s)), Delim(acc))
    decreases s, 1
  {
    DepPathsFlatten(s, acc, [OwnEntry(acc, InstallPath(s.basedir))], 0);
    EntriesAppend(acc, [InstallPath(s.basedir)], DepInstalls(s, 0));
  }

  lemma {:induction false} DepPathsFlatten(s: Snapshot, acc: Accessor, p: seq<string>, i: nat)
    requires i <= |s.deps| && p != []
    ensures Join(p + DepPaths(s, acc, i), Delim(acc)) == Join(p + Entries(acc, DepInstalls(s, i)), Delim(acc))
    decreases s, 0, |s.deps| - i
  {
    if i < |s.deps| {
      var d := s.deps[i].snap;
      var q := Entries(acc, Installs(d));
      var rest := DepPaths(s, acc, i + 1);
      var tail := Entries(acc, DepInstalls(s, i + 1));
      PathsPreorder(d, acc);
      DepPathsFlatten(s, acc, p + q, i + 1);
      EntriesAppend(acc, Installs(d), DepInstalls(s, i + 1));
      FlattenStep(p, Paths(d, acc), rest, q, tail, Delim(acc));
      assert DepPaths(s, acc, i) == [Paths(d, acc)] + rest;
      assert DepInstalls(s, i) == Installs(d) + DepInstalls(s, i + 1);
    }
  }

  /** One dependency's step of the flattening: its joined group is replaced
      by its items, and the rest is already flat. */
  lemma FlattenStep(p: seq<string>, x: string, rest: seq<string>, q: seq<string>, tail: seq<string>, delim: string)
    requires p != [] && q != [] && x == Join(q, delim)
    requires Join(p + q + rest, delim) == Join(p + q + tail, delim)
    ensures Join(p + ([x] + rest), delim) == Join(p + (q + tail), delim)
  {
    JoinFlatten(p, q, rest, delim);
    assert p + ([x] + rest) == p + [x] + rest;
    assert p + (q + tail) == p + q + tail;
  }

  /** The own item leads every accessor, and each direct dependency's result
      occurs inside it. */
  lemma PathsOwnFirst(s: Snapshot, acc: Accessor, i: nat)
    requires i < |s.deps|
    ensures StartsWith(Paths(s, acc), OwnEntry(acc, InstallPath(s.basedir)))
    ensures IsInfix(Paths(s.deps[i].snap, acc), Paths(s, acc))
  {
    var items := [OwnEntry(acc, InstallPath(s.basedir))] + DepPaths(s, acc, 0);
    JoinStartsWithFirst(items, Delim(acc));
    DepPathsAt(s, acc, 0, i);
    JoinContainsItem(items, Delim(acc), i + 1);
  }

  lemma {:induction false} DepPathsAt(s: Snapshot, acc: Accessor, from: nat, i: nat)
    requires from <= i < |s.deps|
    ensures DepPaths(s, acc, from)[i - from] == Paths(s.deps[i].snap, acc)
    decreases i - from
  {
    if from < i {
      DepPathsAt(s, acc, from + 1, i);
    }
  }

  /** get_cppflags … get_bin_path: the own item, then each dependency asked
      for its own result, in dict order. */
  method ComputePaths(s: Snapshot, acc: Accessor) returns (r: string)
    ensures r == Paths(s, acc)
    decreases s
  {
    ghost var dp := DepPaths(s, acc, 0);
    var parts := [OwnEntry(acc, InstallPath(s.basedir))];
    for i := 0 to |s.deps|
      invariant parts == [OwnEntry(acc, InstallPath(s.basedir))] + dp[..i]
    {
      var p := ComputePaths(s.deps[i].snap, acc);
      DepPathsAt(s, acc, 0, i);
      assert dp[..i + 1] == dp[..i] + [p];
      parts := parts + [p];
    }
    assert dp[..|s.deps|] == dp;
    r := Join(parts, Delim(acc));
  }

  // ---------------------------------------------------------------------
  // get_env

  /** An own special variable may extend one of these names instead of clashing. */
  predicate Appendable(name: string)
  {
    name == "LD_LIBRARY_PATH" || name == "CPPFLAGS" || name == "CFLAGS" || name == "LDFLAGS"
  }

  /** How an own special variable extends an existing value. */
  function Appended(name: string, prior: string, value: string): string
  {
    if name == "LD_LIBRARY_PATH" then prior + ":" + value else prior + " " + value
  }

  /** `env` after the own special variables named in `done` were added. */
  function OwnMergeOf(env: Env, vars: Env, done: set<string>): Env
    requires done <= vars.Keys
  {
    map k | k in env.Keys + done ::
      if k in done && k in env then Appended(k, env[k], vars[k])
      else if k in done then vars[k] else env[k]
  }

  /** The own special variables added to `env`: fails on an existing name that
      may not be extended; an existing appendable name is extended, a new
      name is set. */
  function OwnMerge(env: Env, vars: Env): Option<Env>
  {
    if exists k :: k in vars && k in env && !Appendable(k) then None
    else Some(OwnMergeOf(env, vars, vars.Keys))
  }

  lemma OwnMergeStep(env: Env, vars: Env, done: set<string>, k: string)
    requires done <= vars.Keys && k in vars && k !in done
    ensures var acc := OwnMergeOf(env, vars, done);
      OwnMergeOf(env, vars, done + {k})
        == acc[k := if k in acc then Appended(k, acc[k], vars[k]) else vars[k]]
  {
  }

  /** The loop over the own special variables; whatever order it visits them
      in, it ends as OwnMerge says. */
  method AddOwnSpecials(env: Env, vars: Env) returns (r: Option<Env>)
    ensures r == OwnMerge(env, vars)
  {
    var acc := env;
    var todo := vars.Keys;
    assert acc == OwnMergeOf(env, vars, {});
    while todo != {}
      invariant todo <= vars.Keys
      invariant forall k :: k in vars.Keys - todo && k in env ==> Appendable(k)
      invariant acc == OwnMergeOf(env, vars, vars.Keys - todo)
      decreases todo
    {
      var k :| k in todo;
      OwnMergeStep(env, vars, vars.Keys - todo, k);
      assert vars.Keys - (todo - {k}) == (vars.Keys - todo) + {k};
      if k in acc {
        if !Appendable(k) {
          return None;
        }
        acc := acc[k := Appended(k, acc[k], vars[k])];
      } else {
        acc := acc[k := vars[k]];
      }
      todo := todo - {k};
    }
    assert vars.Keys - todo == vars.Keys;
    return Some(acc);
  }

  /** The path-variable rule: the computed value, then any prior value. */
  function SetPath(env: Env, name: string, value: string, delim: string): (r: Env)
    ensures r.Keys == env.Keys + {name}
    ensures forall k :: k in env && k != name ==> r[k] == env[k]
  {
    env[name := if name in env then value + delim + env[name] else value]
  }

  /** The four names get_env always sets. */
  predicate IsPathVariable(name: string)
  {
    name == "CPPFLAGS" || name == "LDFLAGS" || name == "LD_LIBRARY_PATH" || name == "PKG_CONFIG_PATH"
  }

  /** The special variables of the direct dependencies, in dict order. */
  function DepSpecials(s: Snapshot): (r: seq<Env>)
    ensures |r| == |s.deps| && forall i :: 0 <= i < |s.deps| ==> r[i] == s.deps[i].snap.specialEnv
  {
    seq(|s.deps|, i requires 0 <= i < |s.deps| => s.deps[i].snap.specialEnv)
  }

  /** The four path variables set, in get_env's order, to the given values. */
  function WithValues(env: Env, cpp: string, ld: string, lib: string, pkg: string): Env
  {
    var e1 := SetPath(env, VarName(CppFlags), cpp, Delim(CppFlags));
    var e2 := SetPath(e1, VarName(LdFlags), ld, Delim(LdFlags));
    var e3 := SetPath(e2, VarName(LdLibraryPath), lib, Delim(LdLibraryPath));
    SetPath(e3, VarName(PkgConfigPath), pkg, Delim(PkgConfigPath))
  }

  function WithPaths(s: Snapshot, env: Env): Env
  {
    WithValues(env, Paths(s, CppFlags), Paths(s, LdFlags), Paths(s, LdLibraryPath), Paths(s, PkgConfigPath))
  }

  /** Each path variable gets its value and then the prior one; every other
      name is kept. */
  lemma WithValuesAt(env: Env, cpp: string, ld: string, lib: string, pkg: string, name: string)
    ensures var r := WithValues(env, cpp, ld, lib, pkg);
      var v := if name == "CPPFLAGS" then cpp else if name == "LDFLAGS" then ld
               else if name == "LD_LIBRARY_PATH" then lib else pkg;
      var d := if name == "CPPFLAGS" || name == "LDFLAGS" then " " else ":";
      && (name in r <==> name in env || IsPathVariable(name))
      && (IsPathVariable(name) ==> r[name] == v + (if name in env then d + env[name] else ""))
      && (!IsPathVariable(name) && name in env ==> r[name] == env[name])
  {
  }

  /** The environment before the path variables: the own special variables,
      then those of each direct dependency. */
  function Merged(s: Snapshot, base: Env): Option<Env>
  {
    match OwnMerge(base, s.specialEnv)
    case None => None
    case Some(e1) => StrictMergeAll(e1, DepSpecials(s))
  }

  /** What get_env computes from the process environment `base`. */
  function EnvSpec(s: Snapshot, base: Env): Result<Env, Error>
  {
    match Merged(s, base)
    case None => Err(DuplicateSpecialVariable)
    case Some(e) => Ok(WithPaths(s, e))
  }

  /** get_env: the accessors, the own special variables, those of each
      dependency, then the four path variables. */
  method ComputeEnv(s: Snapshot, base: Env) returns (r: Result<Env, Error>)
    ensures r == EnvSpec(s, base)
  {
    var cpp := ComputePaths(s, CppFlags);
    var ld := ComputePaths(s, LdFlags);
    var lib := ComputePaths(s, LdLibraryPath);
    var pkg := ComputePaths(s, PkgConfigPath);
    var own := AddOwnSpecials(base, s.specialEnv);
    if own.None? {
      return Err(DuplicateSpecialVariable);
    }
    var env := own.value;
    ghost var specials := DepSpecials(s);
    for i := 0 to |s.deps|
      invariant Merged(s, base) == StrictMergeAll(env, specials[i..])
    {
      assert specials[i..][0] == s.deps[i].snap.specialEnv && specials[i..][1..] == specials[i + 1..];
      var step := AddStrict(env, s.deps[i].snap.specialEnv);
      if step.None? {
        return Err(DuplicateSpecialVariable);
      }
      env := step.value;
    }
    assert specials[|s.deps|..] == [];
    env := SetPath(env, "CPPFLAGS", cpp, " ");
    env := SetPath(env, "LDFLAGS", ld, " ");
    env := SetPath(env, "LD_LIBRARY_PATH", lib, ":");
    env := SetPath(env, "PKG_CONFIG_PATH", pkg, ":");
    return Ok(env);
  }

  /** Every name the earlier stages define, with its value. */
  function Prior(s: Snapshot, base: Env): Env
  {
    match OwnMerge(base, s.specialEnv)
    case None => map[]
    case Some(e1) => e1 + UnionAll(DepSpecials(s))
  }

  /** get_env fails exactly when an own special variable meets an existing
      name it may not extend, or when a dependency's special variable meets
      a name already defined: by the environment, by the project itself or by
      an earlier dependency. Equal values clash too. */
  lemma EnvSpecFails(s: Snapshot, base: Env)
    ensures EnvSpec(s, base).Ok? <==>
      && (forall k :: k in s.specialEnv && k in base ==> Appendable(k))
      && NoCollision(base + s.specialEnv, DepSpecials(s))
  {
    var own := OwnMerge(base, s.specialEnv);
    if own.Some? {
      assert own.value.Keys == (base + s.specialEnv).Keys;
      StrictMergeAllMeaning(own.value, DepSpecials(s));
      StrictMergeAllMeaning(base + s.specialEnv, DepSpecials(s));
    }
  }

  /** When get_env succeeds, the earlier stages give Prior. */
  lemma MergedIsPrior(s: Snapshot, base: Env)
    requires EnvSpec(s, base).Ok?
    ensures Merged(s, base) == Some(Prior(s, base))
  {
    StrictMergeAllMeaning(OwnMerge(base, s.specialEnv).value, DepSpecials(s));
  }

  /** A path variable holds its accessor result followed by any value an
      earlier stage gave it. */
  lemma EnvSpecPathVariable(s: Snapshot, base: Env, acc: Accessor)
    requires EnvSpec(s, base).Ok? && acc != BinPath
    ensures var prior := Prior(s, base);
      EnvSpec(s, base).value[VarName(acc)]
        == Paths(s, acc) + (if VarName(acc) in prior then Delim(acc) + prior[VarName(acc)] else "")
  {
    MergedIsPrior(s, base);
    var cpp, ld, lib, pkg := Paths(s, CppFlags), Paths(s, LdFlags), Paths(s, LdLibraryPath), Paths(s, PkgConfigPath);
    WithValuesAt(Prior(s, base), cpp, ld, lib, pkg, VarName(acc));
  }

  /** Any other name keeps the value the earlier stages gave it. */
  lemma EnvSpecOtherVariable(s: Snapshot, base: Env, name: string)
    requires EnvSpec(s, base).Ok? && !IsPathVariable(name)
    ensures name in EnvSpec(s, base).value <==> name in Prior(s, base)
    ensures name in Prior(s, base) ==> EnvSpec(s, base).value[name] == Prior(s, base)[name]
  {
    MergedIsPrior(s, base);
    var cpp, ld, lib, pkg := Paths(s, CppFlags), Paths(s, LdFlags), Paths(s, LdLibraryPath), Paths(s, PkgConfigPath);
    WithValuesAt(Prior(s, base), cpp, ld, lib, pkg, name);
  }

  /** What the earlier stages give a name: an own special variable its value,
      extending the process value where it may; a process value not
      overridden stays. */
  lemma PriorOwnVariable(s: Snapshot, base: Env, name: string)
    requires EnvSpec(s, base).Ok?
    ensures name in s.specialEnv && name in base ==> Prior(s, base)[name] == Appended(name, base[name], s.specialEnv[name])
    ensures name in s.specialEnv && name !in base ==> Prior(s, base)[name] == s.specialEnv[name]
    ensures name !in s.specialEnv && name in base ==> Prior(s, base)[name] == base[name]
  {
    var own := OwnMerge(base, s.specialEnv).value;
    EnvSpecFails(s, base);
    assert own.Keys == base.Keys + s.specialEnv.Keys;
    if name in UnionAll(DepSpecials(s)) {
      var i := UnionAllFind(DepSpecials(s), name);
      assert name !in (base + s.specialEnv).Keys;
    }
  }

  /** A dependency's special variable never meets a name already present, and
      keeps its value. */
  lemma PriorDependencyVariable(s: Snapshot, base: Env, i: nat, name: string)
    requires EnvSpec(s, base).Ok? && i < |s.deps| && name in s.deps[i].snap.specialEnv
    ensures name !in base && name !in s.specialEnv
    ensures name in Prior(s, base) && Prior(s, base)[name] == s.deps[i].snap.specialEnv[name]
  {
    EnvSpecFails(s, base);
    UnionAllAt(DepSpecials(s), i, name);
  }

  /** get_env reads only the install location, the special variables and the
      dependencies: the build-state flags do not change it. */
  lemma EnvSpecLayout(s: Snapshot, t: Snapshot, base: Env)
    requires t.basedir == s.basedir && t.specialEnv == s.specialEnv && t.deps == s.deps
    ensures EnvSpec(t, base) == EnvSpec(s, base)
  {
    forall acc: Accessor ensures Paths(t, acc) == Paths(s, acc) {
      DepPathsLayout(s, t, acc, 0);
    }
    assert DepSpecials(t) == DepSpecials(s);
  }

  lemma {:induction false} DepPathsLayout(s: Snapshot, t: Snapshot, acc: Accessor, i: nat)
    requires t.deps == s.deps && i <= |s.deps|
    ensures DepPaths(t, acc, i) == DepPaths(s, acc, i)
    decreases |s.deps| - i
  {
    if i < |s.deps| {
      DepPathsLayout(s, t, acc, i + 1);
    }
  }

  /** An odd number of the three flags is set: the "manually triggered" test. */
  function StepsManuallyTriggered(configured: bool, built: bool, installed: bool): (r: bool)
    ensures r <==> ((if configured then 1 else 0) + (if built then 1 else 0) + (if installed then 1 else 0)) % 2 == 1
  {
    (configured != built) != installed
  }

  // ---------------------------------------------------------------------
  // Construction constants and commands

  function BaseConfigureFlags(ccache: Option<string>): seq<string>
  {
    (match ccache
     case Some(c) => ["CC=" + c + " gcc", "CXX=" + c + " g++"]
     case None => [])
    + ["CFLAGS=-g -O0"]
  }

  function KindConfigureFlags(kind: Kind): seq<string>
  {
    if kind == LttngUst then ["--disable-man-pages", "--enable-python-agent", "--enable-java-agent-jul"] else []
  }

  /** The special variables a kind's constructor adds. */
  function KindSpecialEnv(kind: Kind, install: string): Env
  {
    match kind
    case LttngModules => map["MODPROBE_OPTIONS" := "-v -d " + install]
    case LttngUst => map["CLASSPATH" := Join([PathJoin(install, "share/java/liblttng-ust-agent.jar"), "."], ":")]
    case LttngTools => map["LTTNG_SESSION_CONFIG_XSD_PATH" := PathJoin(install, "share/xml/lttng/")]
    case _ => map[]
  }

  /** git clone of `gitPath` into `source`, then a checkout of `sha1`. */
  function CheckoutCommand(key: string, gitPath: string, source: string, sha1: string, env: Env): Command
  {
    Command(key, Checkout, [gitPath, source, sha1], env)
  }

  function BootstrapCommand(key: string, env: Env): Command
  {
    Command(key, Bootstrap, ["./bootstrap"], env)
  }

  function ConfigureCommand(key: string, install: string, flags: seq<string>, env: Env): Command
  {
    Command(key, Configure, ["./configure", "--prefix=" + install] + flags, env)
  }

  function BuildCommand(key: string, cpus: string, env: Env): Command
  {
    Command(key, Build, ["make", "-j", cpus, "V=1"], env)
  }

  function InstallCommand(key: string, env: Env): Command
  {
    Command(key, Install, ["make", "install"], env)
  }

  function ModulesInstallCommand(key: string, install: string, env: Env): Command
  {
    Command(key, ModulesInstall, ["make", "INSTALL_MOD_PATH=" + install, "modules_install"], env)
  }

  function DepmodCommand(key: string, install: string, env: Env): Command
  {
    Command(key, Depmod, ["depmod", "-b", install], env)
  }

  /** chrpath -d over every ELF file under bin/ and lib/, as one command. */
  function RpathStripCommand(key: string, install: string, env: Env): Command
  {
    Command(key, RpathStrip, ["chrpath", "-d", PathJoin(install, "bin"), PathJoin(install, "lib")], env)
  }

  /** The last commands of `trace` belong to `key` and are `steps`, in order. */
  predicate EndsWithSteps(trace: seq<Command>, key: string, steps: seq<Step>)
  {
    |steps| <= |trace| &&
    forall i :: |trace| - |steps| <= i < |trace| ==>
      trace[i].owner == key && trace[i].step == steps[i - (|trace| - |steps|)]
  }

  /** The commands a project's own part of autobuild runs. */
  function OwnSteps(kind: Kind): seq<Step>
  {
    if kind == LttngModules then [Build, ModulesInstall, Depmod] else [Configure, Build, Install, RpathStrip]
  }

  /** The commands a project's own part of autobuild runs when every step
      succeeds: `e` is what get_env returns, `base` the process environment
      chrpath inherits. */
  function PlannedCommands(s: Snapshot, e: Env, cpus: string, base: Env): (r: seq<Command>)
    ensures |r| == |OwnSteps(s.kind)|
    ensures forall i :: 0 <= i < |r| ==> r[i].owner == s.key && r[i].step == OwnSteps(s.kind)[i]
  {
    var install := InstallPath(s.basedir);
    if s.kind == LttngModules then
      [BuildCommand(s.key, cpus, e), ModulesInstallCommand(s.key, install, e), DepmodCommand(s.key, install, e)]
    else
      [ConfigureCommand(s.key, install, s.configureFlags, e), BuildCommand(s.key, cpus, e),
       InstallCommand(s.key, e), RpathStripCommand(s.key, install, base)]
  }

  /** The MI schema Lttng_tools looks for: the first name with a match, each
      name searched with find_file over the source tree. */
  function FirstXsd(walk: seq<Utils.WalkEntry>, names: seq<string>): Option<string>
  {
    if names == [] then None
    else match Utils.LastMatch(walk, Utils.Files, names[0])
      case Some(p) => Some(p)
      case None => FirstXsd(walk, names[1..])
  }

  method FindMiXsd(walk: seq<Utils.WalkEntry>, names: seq<string>) returns (mi: Option<string>)
    ensures mi == FirstXsd(walk, names)
    ensures mi.None? <==> forall i :: 0 <= i < |names| ==> Utils.LastMatch(walk, Utils.Files, names[i]).None?
  {
    mi := None;
    var i := 0;
    while i < |names|
      invariant 0 <= i <= |names|
      invariant mi.None?
      invariant FirstXsd(walk, names) == FirstXsd(walk, names[i..])
    {
      assert names[i..][0] == names[i] && names[i..][1..] == names[i + 1..];
      mi := Utils.FindLast(walk, Utils.Files, names[i]);
      if mi.Some? {
        break;
      }
      i := i + 1;
    }
    assert i == |names| ==> names[i..] == [];
    FirstXsdNone(walk, names);
  }

  lemma {:induction false} FirstXsdNone(walk: seq<Utils.WalkEntry>, names: seq<string>)
    ensures FirstXsd(walk, names).None? <==> forall i :: 0 <= i < |names| ==> Utils.LastMatch(walk, Utils.Files, names[i]).None?
  {
    if names != [] {
      FirstXsdNone(walk, names[1..]);
      assert forall i :: 1 <= i < |names| ==> names[i] == names[1..][i - 1];
    }
  }
}
