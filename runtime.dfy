/** lttng_ivc/utils/runtime.py: the sandbox a test runs in. It owns a home
    directory for the tracer, the projects whose installations the tests
    use, a table of spawned daemons with their output files, and a counter
    of the commands it ran to completion. What the host answers (the process
    environment, whether the home directory exists, the exit code of each
    process and command, a free port) is a Host value. */
module Sandbox {
  import opened Base
  import opened Environment
  import opened BuildGraph
  import opened IvcProject

  /** The longest lttng_home path the runtime accepts. */
  const HomeLimit := 88

  /** A spawned process is running or has an exit code; its stdout and
      stderr files are open or closed. */
  datatype Status = Running | Exited(code: int)
  datatype Proc = Proc(args: seq<string>, env: Env, status: Status)
  datatype Handles = Open | Closed

  /** What the runtime raises. */
  datatype RuntimeError =
    | HomeTooLong                                      // "TemporaryDirectory for lttng_home is to long"
    | HomeMissing                                      // "lttng home does not exist"
    | SpecialVariableRedefined                         // "Multiple definition of a special environment variable"
    | NoSuchProcess(id: string)                        // KeyError on the process table
    | NotAttached                                      // ValueError from list.remove
    | EmptyCommand                                     // IndexError on args[0]
    | ProcessGone                                      // killpg of a process already reaped
    | HomeCopyExists                                   // copytree onto the copy of an earlier close
    | CalledProcessError(code: int, args: seq<string>)
    | SubProcessError(failures: seq<RuntimeError>)
    | TestFailure                                      // what the body of a `with get_runtime(...)` raised

  /** What the host answers: os.environ, whether the home directory exists,
      the exit codes of the processes by id and of the commands by run
      number, and the free port gdbserver gets. */
  datatype Host = Host(
    environ: Env,
    homeIsDir: bool,
    termCodes: map<string, int>,   // processes that exit within the wait after terminate()
    killCodes: map<string, int>,
    waitCodes: map<string, int>,
    runCodes: map<nat, int>,
    freePort: nat)
  {
    /** The exit code after terminate() and wait(timeout); None when the
        wait times out. */
    function TermExit(id: string): Option<int> { if id in termCodes then Some(termCodes[id]) else None }

    /** The exit code after SIGKILL; -9 (killed by signal 9) unless listed. */
    function KillExit(id: string): int { if id in killCodes then killCodes[id] else -9 }

    /** The exit code a plain wait() gets; 0 unless listed. */
    function WaitExit(id: string): int { if id in waitCodes then waitCodes[id] else 0 }

    /** The exit code of the command run as number `n`; 0 unless listed. */
    function RunExit(n: nat): int { if n in runCodes then runCodes[n] else 0 }
  }

  /** The keyword arguments of Runtime.run. */
  datatype RunOptions = RunOptions(checkReturn: bool, ldPreload: string, classpath: string, ldDebug: bool, gdbserver: bool)

  /** A command that ran: its line of cmd.map and its entry of runtime.log. */
  datatype RunRecord = RunRecord(id: nat, args: seq<string>, env: Env, code: int)

  /** What run returns: the completed process and its two log files. */
  datatype Completed = Completed(code: int, args: seq<string>, outPath: string, errPath: string)

  // ---------------------------------------------------------------------
  // Names and paths

  /** `str(n)`. */
  function NatToString(n: nat): (r: string)
    ensures |r| >= 1 && (n >= 10 ==> |r| >= 2)
    decreases n
  {
    if n < 10 then [Digit(n)] else NatToString(n / 10) + [Digit(n % 10)]
  }

  function Digit(d: nat): char
    requires d < 10
  {
    ('0' as int + d) as char
  }

  /** Different counters print differently. */
  lemma {:induction false} NatToStringInjective(n: nat, m: nat)
    requires NatToString(n) == NatToString(m)
    ensures n == m
    decreases n
  {
    var s := NatToString(n);
    if n >= 10 && m >= 10 {
      assert NatToString(n / 10) == s[..|s| - 1] == NatToString(m / 10);
      NatToStringInjective(n / 10, m / 10);
      assert Digit(n % 10) == s[|s| - 1] == Digit(m % 10);
    }
  }

  /** `os.path.basename(p)`. */
  function Basename(p: string): (r: string)
    ensures EndsWith(p, r) && forall i :: 0 <= i < |r| ==> r[i] != '/'
  {
    p[AfterLastSlash(p)..]
  }

  /** The id spawn_subprocess gives a process: the basename of its
      executable, a dash and the uuid. */
  function ProcId(executable: string, uuid: string): (r: string)
    ensures EndsWith(r, "-" + uuid)
  {
    Basename(executable) + "-" + uuid
  }

  /** The log file `<dir>/<n><suffix>` of the `n`-th run. */
  function RunLog(dir: string, n: nat, suffix: string): string
  {
    PathJoin(dir, NatToString(n) + suffix)
  }

  /** Two runs never share a log file. */
  lemma RunLogsDistinct(dir: string, n: nat, m: nat, suffix: string)
    requires n != m
    ensures RunLog(dir, n, suffix) != RunLog(dir, m, suffix)
  {
    var a, b := NatToString(n) + suffix, NatToString(m) + suffix;
    if RunLog(dir, n, suffix) == RunLog(dir, m, suffix) {
      assert a == b;
      assert NatToString(n) == a[..|a| - |suffix|] == b[..|b| - |suffix|] == NatToString(m);
      NatToStringInjective(n, m);
    }
  }

  // ---------------------------------------------------------------------
  // The environment of the sandbox

  /** The special variables every runtime starts with. */
  const DefaultSpecials: Env := map[
    "LTTNG_UST_DEBUG" := "1",
    "LTTNG_APP_SOCKET_TIMEOUT" := "-1",
    "LTTNG_NETWORK_SOCKET_TIMEOUT" := "-1",
    "LTTNG_SESSIOND_PATH" := "/bin/true"]

  /** A path variable get_env fills from the projects: its name, the project
      accessor, and the delimiter used both between projects and before the
      prior value. */
  datatype PathVar = PathVar(name: string, acc: Accessor, delim: string)

  const PathVars: seq<PathVar> := [
    PathVar("CPPFLAGS", CppFlags, " "),
    PathVar("LDFLAGS", LdFlags, " "),
    PathVar("LD_LIBRARY_PATH", LdLibraryPath, ":"),
    PathVar("PATH", BinPath, ":")]

  /** The two variables get_env sets before the path variables. */
  function HomeEnv(environ: Env, home: string): Env
  {
    environ["LTTNG_HOME" := home]["LD_BIND_NOW" := "enabled"]
  }

  /** Every name get_env sets before the special variables. */
  function FixedNames(): set<string>
  {
    {"LTTNG_HOME", "LD_BIND_NOW", "CPPFLAGS", "LDFLAGS", "LD_LIBRARY_PATH", "PATH"}
  }

  /** The accessor results of the projects, in attachment order. */
  function PathsOf(snaps: seq<Snapshot>, acc: Accessor): (r: seq<string>)
    ensures |r| == |snaps| && forall i :: 0 <= i < |snaps| ==> r[i] == Paths(snaps[i], acc)
  {
    if snaps == [] then [] else PathsOf(snaps[..|snaps| - 1], acc) + [Paths(snaps[|snaps| - 1], acc)]
  }

  /** get_cppflags, get_ldflags, get_ld_library_path and get_bin_path. */
  function Aggregate(snaps: seq<Snapshot>, acc: Accessor, delim: string): string
  {
    Join(PathsOf(snaps, acc), delim)
  }

  /** The aggregates of the path variables, in PathVars order. */
  function Aggregates(snaps: seq<Snapshot>): (r: seq<string>)
    ensures |r| == |PathVars|
    ensures forall k :: 0 <= k < |PathVars| ==> r[k] == Aggregate(snaps, PathVars[k].acc, PathVars[k].delim)
  {
    AggregatesFrom(snaps, PathVars)
  }

  function AggregatesFrom(snaps: seq<Snapshot>, pvs: seq<PathVar>): (r: seq<string>)
    ensures |r| == |pvs|
    ensures forall k :: 0 <= k < |pvs| ==> r[k] == Aggregate(snaps, pvs[k].acc, pvs[k].delim)
  {
    if pvs == [] then [] else AggregatesFrom(snaps, pvs[..|pvs| - 1]) + [Aggregate(snaps, pvs[|pvs| - 1].acc, pvs[|pvs| - 1].delim)]
  }

  /** The first `k` path variables set, each to its value of `values`, the
      delimiter and the prior value. */
  function Fetch(env: Env, values: seq<string>, k: nat): Env
    requires k <= |PathVars| == |values|
  {
    if k == 0 then env
    else
      var pv := PathVars[k - 1];
      var e := Fetch(env, values, k - 1);
      e[pv.name := values[k - 1] + pv.delim + (if pv.name in e then e[pv.name] else "")]
  }

  /** One more path variable set. */
  lemma FetchNext(env: Env, snaps: seq<Snapshot>, k: nat)
    requires k < |PathVars|
    ensures var pv, e := PathVars[k], Fetch(env, Aggregates(snaps), k);
      Fetch(env, Aggregates(snaps), k + 1) ==
      e[pv.name := Aggregate(snaps, pv.acc, pv.delim) + pv.delim + (if pv.name in e then e[pv.name] else "")]
  {
  }

  /** The special variables of the projects, in attachment order. */
  function SpecialsOf(snaps: seq<Snapshot>): (r: seq<Env>)
    ensures |r| == |snaps| && forall i :: 0 <= i < |snaps| ==> r[i] == snaps[i].specialEnv
  {
    if snaps == [] then [] else SpecialsOf(snaps[..|snaps| - 1]) + [snaps[|snaps| - 1].specialEnv]
  }

  /** The environment once the home and path variables are set. */
  function Fetched(environ: Env, home: string, snaps: seq<Snapshot>): Env
  {
    Fetch(HomeEnv(environ, home), Aggregates(snaps), |PathVars|)
  }

  /** What get_env returns: the path variables set, then the runtime's
      special variables and each project's added, raising at a name that is
      already present. */
  function RuntimeEnv(environ: Env, home: string, special: Env, snaps: seq<Snapshot>): Result<Env, RuntimeError>
  {
    var merged := StrictMergeAll(Fetched(environ, home, snaps), [special] + SpecialsOf(snaps));
    if merged.None? then Err(SpecialVariableRedefined) else Ok(merged.value)
  }

  /** No two path variables share a name. */
  lemma PathVarsDistinct(i: nat, j: nat)
    requires i < j < |PathVars|
    ensures PathVars[i].name != PathVars[j].name
  {
  }

  /** The names of the path variables from the first `k` on. */
  function FetchNames(k: nat): set<string>
    requires k <= |PathVars|
  {
    if k == 0 then {} else FetchNames(k - 1) + {PathVars[k - 1].name}
  }

  /** A name that is not a path variable keeps its presence and value. */
  lemma {:induction false} FetchOther(env: Env, values: seq<string>, k: nat, n: string)
    requires k <= |PathVars| == |values| && n !in FetchNames(k)
    ensures (n in Fetch(env, values, k) <==> n in env) && (n in env ==> Fetch(env, values, k)[n] == env[n])
  {
    if k > 0 {
      FetchOther(env, values, k - 1, n);
    }
  }

  /** The `j`-th path variable holds the aggregate, its delimiter and its prior value. */
  lemma {:induction false} FetchAt(env: Env, values: seq<string>, k: nat, j: nat)
    requires j < k <= |PathVars| == |values|
    ensures var pv := PathVars[j];
      && pv.name in Fetch(env, values, k)
      && Fetch(env, values, k)[pv.name] == values[j] + pv.delim + (if pv.name in env then env[pv.name] else "")
  {
    if j == k - 1 {
      forall i | 0 <= i < j ensures PathVars[i].name != PathVars[j].name {
        PathVarsDistinct(i, j);
      }
      NotInFetchNames(j, PathVars[j].name);
      FetchOther(env, values, j, PathVars[j].name);
    } else {
      FetchAt(env, values, k - 1, j);
      PathVarsDistinct(j, k - 1);
    }
  }

  lemma {:induction false} NotInFetchNames(k: nat, n: string)
    requires k <= |PathVars| && forall i :: 0 <= i < k ==> PathVars[i].name != n
    ensures n !in FetchNames(k)
  {
    if k > 0 {
      NotInFetchNames(k - 1, n);
    }
  }

  lemma {:induction false} FetchKeysAt(env: Env, values: seq<string>, k: nat)
    requires k <= |PathVars| == |values|
    ensures Fetch(env, values, k).Keys == env.Keys + FetchNames(k)
  {
    if k > 0 {
      FetchKeysAt(env, values, k - 1);
    }
  }

  lemma FetchNamesAll()
    ensures FetchNames(|PathVars|) == {"CPPFLAGS", "LDFLAGS", "LD_LIBRARY_PATH", "PATH"}
  {
    assert FetchNames(1) == {"CPPFLAGS"};
    assert FetchNames(2) == {"CPPFLAGS", "LDFLAGS"};
    assert FetchNames(3) == {"CPPFLAGS", "LDFLAGS", "LD_LIBRARY_PATH"};
  }

  /** The names set before the special variables. */
  lemma FetchKeys(environ: Env, home: string, snaps: seq<Snapshot>)
    ensures Fetched(environ, home, snaps).Keys == environ.Keys + FixedNames()
  {
    FetchKeysAt(HomeEnv(environ, home), Aggregates(snaps), |PathVars|);
    FetchNamesAll();
  }

  /** Each path variable is the aggregate, its delimiter and the value the
      process environment had (or nothing); the home variables are set and
      other names are untouched. */
  lemma FetchValues(environ: Env, home: string, snaps: seq<Snapshot>)
    ensures var f := Fetched(environ, home, snaps);
      && FixedNames() <= f.Keys
      && f["LTTNG_HOME"] == home && f["LD_BIND_NOW"] == "enabled"
      && (forall k :: 0 <= k < |PathVars| ==>
            f[PathVars[k].name] == Aggregate(snaps, PathVars[k].acc, PathVars[k].delim) + PathVars[k].delim +
                                   (if PathVars[k].name in environ then environ[PathVars[k].name] else ""))
      && forall n :: n in environ && n !in FixedNames() ==> n in f && f[n] == environ[n]
  {
    var h, values := HomeEnv(environ, home), Aggregates(snaps);
    FetchKeys(environ, home, snaps);
    FetchNamesAll();
    FetchOther(h, values, |PathVars|, "LTTNG_HOME");
    FetchOther(h, values, |PathVars|, "LD_BIND_NOW");
    forall k | 0 <= k < |PathVars|
      ensures Fetched(environ, home, snaps)[PathVars[k].name] == Aggregate(snaps, PathVars[k].acc, PathVars[k].delim) + PathVars[k].delim +
                                   (if PathVars[k].name in environ then environ[PathVars[k].name] else "")
    {
      FetchAt(h, values, |PathVars|, k);
    }
    forall n | n in environ && n !in FixedNames() ensures n in Fetched(environ, home, snaps) && Fetched(environ, home, snaps)[n] == environ[n] {
      FetchOther(h, values, |PathVars|, n);
    }
  }

  /** Adding the runtime's special variables and then each project's fails
      exactly when a name meets one already set or one added before. */
  lemma {:induction false} SpecialsMergeFails(f: Env, special: Env, specials: seq<Env>)
    ensures StrictMergeAll(f, [special] + specials).None? <==>
        || (exists n :: n in special && n in f)
        || (exists i, n :: 0 <= i < |specials| && n in specials[i] && (n in f || n in special))
        || (exists i, j, n :: 0 <= i < j < |specials| && n in specials[i] && n in specials[j])
  {
    var ms := [special] + specials;
    StrictMergeAllMeaning(f, ms);
    assert ms[0] == special;
    assert forall i :: 0 <= i < |specials| ==> ms[i + 1] == specials[i];
    if !NoCollision(f, ms) {
      if exists a :: 0 <= a < |ms| && !(ms[a].Keys !! f.Keys) {
        var a :| 0 <= a < |ms| && !(ms[a].Keys !! f.Keys);
        var n :| n in ms[a] && n in f;
        if a > 0 {
          assert n in specials[a - 1];
        }
      } else {
        var a, b :| 0 <= a < b < |ms| && !(ms[a].Keys !! ms[b].Keys);
        var n :| n in ms[a] && n in ms[b];
        assert n in specials[b - 1];
        if a > 0 {
          assert n in specials[a - 1];
        }
      }
    } else {
      forall i, n | 0 <= i < |specials| && n in specials[i] ensures n !in f && n !in special {
        assert ms[i + 1] == specials[i];
      }
      forall i, j, n | 0 <= i < j < |specials| && n in specials[i] ensures n !in specials[j] {
        assert ms[i + 1] == specials[i] && ms[j + 1] == specials[j];
      }
    }
  }

  /** When adding the special variables succeeds, each keeps its value and
      so does every name set before them. */
  lemma {:induction false} SpecialsMergeValues(f: Env, special: Env, specials: seq<Env>)
    requires StrictMergeAll(f, [special] + specials).Some?
    ensures var r := StrictMergeAll(f, [special] + specials).value;
      && r.Keys == f.Keys + special.Keys + UnionAll(specials).Keys
      && (forall n :: n in f ==> n in r && r[n] == f[n])
      && (forall n :: n in special ==> n in r && r[n] == special[n])
      && forall i, n :: 0 <= i < |specials| && n in specials[i] ==> n in r && r[n] == specials[i][n]
  {
    var ms := [special] + specials;
    StrictMergeAllMeaning(f, ms);
    var r := StrictMergeAll(f, ms).value;
    assert r == f + UnionAll(ms);
    assert ms[1..] == specials;
    forall n | n in f ensures n !in UnionAll(ms) {
      if n in UnionAll(ms) {
        var i := UnionAllFind(ms, n);
      }
    }
    assert UnionAll(ms) == special + UnionAll(specials);
    forall n | n in special ensures n in r && r[n] == special[n] {
      assert ms[0] == special;
      UnionAllAt(ms, 0, n);
    }
    forall i, n | 0 <= i < |specials| && n in specials[i] ensures n in r && r[n] == specials[i][n] {
      assert ms[i + 1] == specials[i];
      UnionAllAt(ms, i + 1, n);
    }
  }

  /** get_env fails exactly when some special variable meets a name already
      set, or another runtime or project special variable of the same name:
      a name defined by two projects fails even with equal values. */
  lemma RuntimeEnvFails(environ: Env, home: string, special: Env, snaps: seq<Snapshot>)
    ensures var names := environ.Keys + FixedNames();
      RuntimeEnv(environ, home, special, snaps).Err? <==>
        || (exists n :: n in special && n in names)
        || (exists i, n :: 0 <= i < |snaps| && n in snaps[i].specialEnv && (n in names || n in special))
        || (exists i, j, n :: 0 <= i < j < |snaps| && n in snaps[i].specialEnv && n in snaps[j].specialEnv)
  {
    FetchKeys(environ, home, snaps);
    SpecialsMergeFails(Fetched(environ, home, snaps), special, SpecialsOf(snaps));
  }

  /** Two attached projects defining the same special variable make get_env raise. */
  lemma SharedSpecialRaises(environ: Env, home: string, special: Env, snaps: seq<Snapshot>, i: nat, j: nat, n: string)
    requires i < j < |snaps| && n in snaps[i].specialEnv && n in snaps[j].specialEnv
    ensures RuntimeEnv(environ, home, special, snaps) == Err(SpecialVariableRedefined)
  {
    SpecialsMergeFails(Fetched(environ, home, snaps), special, SpecialsOf(snaps));
  }

  /** When get_env succeeds, every special variable has its own value and
      the names set before them keep theirs. */
  lemma RuntimeEnvValues(environ: Env, home: string, special: Env, snaps: seq<Snapshot>) returns (r: Env)
    requires RuntimeEnv(environ, home, special, snaps).Ok?
    ensures RuntimeEnv(environ, home, special, snaps) == Ok(r)
    ensures var f := Fetched(environ, home, snaps);
      && r.Keys == f.Keys + special.Keys + UnionAll(SpecialsOf(snaps)).Keys
      && (forall n :: n in f ==> n in r && r[n] == f[n])
      && (forall n :: n in special ==> n in r && r[n] == special[n])
      && forall i, n :: 0 <= i < |snaps| && n in snaps[i].specialEnv ==> n in r && r[n] == snaps[i].specialEnv[n]
  {
    r := RuntimeEnv(environ, home, special, snaps).value;
    SpecialsMergeValues(Fetched(environ, home, snaps), special, SpecialsOf(snaps));
  }

  // ---------------------------------------------------------------------
  // Processes

  /** The exit code subprocess_terminate leaves: the one already known, the
      one of the terminated process, or the one of the kill after the wait
      timed out. */
  function TerminateCode(pr: Proc, id: string, host: Host): int
  {
    if pr.status.Exited? then pr.status.code
    else if host.TermExit(id).Some? then host.TermExit(id).value
    else host.KillExit(id)
  }

  /** The wait timed out, so subprocess_kill finished the job. */
  predicate TimedOut(pr: Proc, id: string, host: Host)
  {
    pr.status.Running? && host.TermExit(id).None?
  }

  function Terminated(pr: Proc, id: string, host: Host): Proc
  {
    pr.(status := Exited(TerminateCode(pr, id, host)))
  }

  /** The failures close collects, in table order. */
  function CloseFailures(order: seq<string>, procs: map<string, Proc>, host: Host): (r: seq<RuntimeError>)
    requires forall i :: 0 <= i < |order| ==> order[i] in procs
  {
    if order == [] then []
    else
      var id := order[|order| - 1];
      var code := TerminateCode(procs[id], id, host);
      CloseFailures(order[..|order| - 1], procs, host) + (if code != 0 then [CalledProcessError(code, procs[id].args)] else [])
  }

  /** close collects a failure exactly for every process whose exit code,
      once terminated, is not zero. */
  lemma {:induction false} CloseFailuresNone(order: seq<string>, procs: map<string, Proc>, host: Host)
    requires forall i :: 0 <= i < |order| ==> order[i] in procs
    ensures CloseFailures(order, procs, host) == [] <==>
            forall i :: 0 <= i < |order| ==> TerminateCode(procs[order[i]], order[i], host) == 0
    ensures |CloseFailures(order, procs, host)| <= |order|
  {
    if order != [] {
      var front := order[..|order| - 1];
      CloseFailuresNone(front, procs, host);
      assert forall i :: 0 <= i < |front| ==> front[i] == order[i];
    }
  }

  /** Terminating leaves each exit code as it found it, so close's
      failures can be read back off the closed table. */
  lemma {:induction false} CloseFailuresTerminated(order: seq<string>, before: map<string, Proc>, after: map<string, Proc>, host: Host)
    requires forall i :: 0 <= i < |order| ==> order[i] in before && order[i] in after
    requires forall i :: 0 <= i < |order| ==> after[order[i]] == Terminated(before[order[i]], order[i], host)
    ensures CloseFailures(order, after, host) == CloseFailures(order, before, host)
  {
    if order != [] {
      var front := order[..|order| - 1];
      assert forall i :: 0 <= i < |front| ==> front[i] == order[i];
      CloseFailuresTerminated(front, before, after, host);
    }
  }

  /** No failure collected from a table of exited processes: every one of
      them exited with 0. */
  lemma ExitedZero(order: seq<string>, procs: map<string, Proc>, host: Host)
    requires forall id :: id in procs <==> id in order
    requires forall id :: id in procs ==> procs[id].status.Exited?
    requires CloseFailures(order, procs, host) == []
    ensures forall id :: id in procs ==> procs[id].status == Exited(0)
  {
    CloseFailuresNone(order, procs, host);
    forall id | id in procs
      ensures procs[id].status == Exited(0)
    {
      var i := IndexOf(order, id);
      assert TerminateCode(procs[order[i]], order[i], host) == 0;
    }
  }

  /** The position of the first element equal to `x`. */
  function IndexOf<T(==)>(s: seq<T>, x: T): (i: nat)
    requires x in s
    ensures i < |s| && s[i] == x && x !in s[..i]
  {
    if s[0] == x then 0 else 1 + IndexOf(s[1..], x)
  }

  /** `list.remove(x)`: the first element equal to `x` taken out. */
  function RemoveFirst<T(==)>(s: seq<T>, x: T): (r: seq<T>)
    requires x in s
    ensures |r| == |s| - 1 && multiset(r) == multiset(s) - multiset{x}
    ensures r == s[..IndexOf(s, x)] + s[IndexOf(s, x) + 1..]
  {
    var i := IndexOf(s, x);
    assert s == s[..i] + [s[i]] + s[i + 1..];
    s[..i] + s[i + 1..]
  }

  /** One more source added to a prefix of `all`: its result, and a
      collision there stops the whole merge. */
  lemma MergeStep(env: Env, all: seq<Env>, n: nat)
    requires n < |all|
    ensures StrictMergeAll(env, all[..n + 1]) ==
            if StrictMergeAll(env, all[..n]).None? then None else StrictMerge(StrictMergeAll(env, all[..n]).value, all[n])
    ensures StrictMergeAll(env, all[..n + 1]).None? ==> StrictMergeAll(env, all).None?
  {
    SplitAt(all, n);
    SplitAt(all, n + 1);
    StrictMergeAllSnoc(env, all[..n], all[n]);
    StrictMergeAllAppend(env, all[..n + 1], all[n + 1..]);
  }

  /** The processes of `done` are terminated, the others as they were. */
  ghost predicate ReapedUpTo(procs: map<string, Proc>, before: map<string, Proc>, done: seq<string>, host: Host)
    requires procs.Keys == before.Keys
  {
    forall id :: id in procs ==> procs[id] == if id in done then Terminated(before[id], id, host) else before[id]
  }

  /** The output files of `done` are closed. */
  ghost predicate ClosedUpTo(outputs: map<string, Handles>, done: seq<string>)
  {
    forall id :: id in done ==> id in outputs && outputs[id] == Closed
  }

  /** One more turn of close's loop. */
  lemma ReapStep(procs: map<string, Proc>, outputs: map<string, Handles>, before: map<string, Proc>,
                 order: seq<string>, i: nat, host: Host)
    requires i < |order| && Distinct(order) && order[i] in procs && procs.Keys == before.Keys
    requires ReapedUpTo(procs, before, order[..i], host) && ClosedUpTo(outputs, order[..i])
    requires forall j :: 0 <= j < |order| ==> order[j] in before
    ensures var id := order[i];
      && ReapedUpTo(procs[id := Terminated(procs[id], id, host)], before, order[..i + 1], host)
      && ClosedUpTo(outputs[id := Closed], order[..i + 1])
      && TerminateCode(procs[id], id, host) == TerminateCode(before[id], id, host)
      && CloseFailures(order[..i + 1], before, host) ==
         CloseFailures(order[..i], before, host) +
         (if TerminateCode(before[id], id, host) != 0 then [CalledProcessError(TerminateCode(before[id], id, host), before[id].args)] else [])
  {
    var id := order[i];
    assert id !in order[..i];
    SplitAt(order, i);
    assert order[..i + 1][..i] == order[..i];
  }

  /** After the last turn every process is terminated and every file closed. */
  lemma ReapedAll(procs: map<string, Proc>, outputs: map<string, Handles>, before: map<string, Proc>,
                  order: seq<string>, host: Host)
    requires procs.Keys == before.Keys && (forall id :: id in procs ==> id in order)
    requires ReapedUpTo(procs, before, order[..|order|], host) && ClosedUpTo(outputs, order[..|order|])
    ensures forall id :: id in procs ==> procs[id] == Terminated(before[id], id, host) && id in outputs && outputs[id] == Closed
  {
    assert order[..|order|] == order;
  }

  // ---------------------------------------------------------------------
  // The runtime

  class Runtime {
    const runtimeDir: string
    const lttngHome: string
    const logDir: string := PathJoin(runtimeDir, "log")
    const subprocessLogDir: string := PathJoin(PathJoin(runtimeDir, "log"), "subprocess")

    /** The attached projects, in attachment order, by their state. */
    var projects: seq<Snapshot>
    /** The subprocess table and the table of output files, by id, and the
        order their ids were added in. */
    var procs: map<string, Proc>
    var outputs: map<string, Handles>
    var order: seq<string>
    var runCount: nat
    var runs: seq<RunRecord>
    var testModulesLoaded: bool
    var specialEnv: Env
    /** Whether close has copied lttng_home next to the logs. */
    var homeCopied: bool

    /** Both tables have the same ids, each listed once in `order`, and a
        process is running exactly while its output files are open. */
    ghost predicate Valid()
      reads this
    {
      && Distinct(order)
      && (forall id :: id in procs <==> id in order)
      && (forall id :: id in outputs <==> id in procs)
      && forall id :: id in procs ==> (procs[id].status.Running? <==> outputs[id] == Open)
    }

    /** close has run: every process has exited and every output file is closed. */
    ghost predicate AllReaped()
      reads this`procs, this`outputs
    {
      forall id :: id in procs ==> procs[id].status.Exited? && id in outputs && outputs[id] == Closed
    }

    constructor (runtimeDir: string, lttngHome: string)
      requires |lttngHome| <= HomeLimit
      ensures Valid()
      ensures this.runtimeDir == runtimeDir && this.lttngHome == lttngHome
      ensures projects == [] && procs == map[] && outputs == map[] && order == [] && runCount == 0 && runs == []
      ensures !testModulesLoaded && specialEnv == DefaultSpecials && !homeCopied
    {
      this.runtimeDir := runtimeDir;
      this.lttngHome := lttngHome;
      projects := [];
      procs := map[];
      outputs := map[];
      order := [];
      runCount := 0;
      runs := [];
      testModulesLoaded := false;
      specialEnv := DefaultSpecials;
      homeCopied := false;
    }

    /** Runtime(runtime_dir), with the lttng_home TemporaryDirectory made for it. */
    static method New(runtimeDir: string, lttngHome: string) returns (r: Result<Runtime, RuntimeError>)
      ensures r.Err? <==> |lttngHome| > HomeLimit
      ensures r.Err? ==> r.error == HomeTooLong
      ensures r.Ok? ==>
        && fresh(r.value) && r.value.Valid()
        && r.value.lttngHome == lttngHome && r.value.runtimeDir == runtimeDir
        && r.value.projects == [] && r.value.procs == map[] && r.value.runCount == 0
        && r.value.specialEnv == DefaultSpecials && !r.value.testModulesLoaded && !r.value.homeCopied
    {
      if |lttngHome| > HomeLimit {
        return Err(HomeTooLong);
      }
      var rt := new Runtime(runtimeDir, lttngHome);
      return Ok(rt);
    }

    /** add_project. */
    method AddProject(p: Snapshot)
      modifies this`projects
      ensures projects == old(projects) + [p]
    {
      projects := projects + [p];
    }

    /** remove_project: list.remove, raising when the project is not attached. */
    method RemoveProject(p: Snapshot) returns (r: Result<(), RuntimeError>)
      modifies this`projects
      ensures r.Err? <==> p !in old(projects)
      ensures r.Err? ==> r.error == NotAttached && projects == old(projects)
      ensures r.Ok? ==> projects == RemoveFirst(old(projects), p)
    {
      if p !in projects {
        return Err(NotAttached);
      }
      projects := RemoveFirst(projects, p);
      return Ok(());
    }

    /** The aggregate of one accessor over the projects, filled in a loop. */
    method GetAggregate(acc: Accessor, delim: string) returns (r: string)
      ensures r == Aggregate(projects, acc, delim)
    {
      var parts: seq<string> := [];
      for i := 0 to |projects|
        invariant |parts| == i
        invariant forall j :: 0 <= j < i ==> parts[j] == Paths(projects[j], acc)
      {
        var part := ComputePaths(projects[i], acc);
        parts := parts + [part];
      }
      assert parts == PathsOf(projects, acc);
      r := Join(parts, delim);
    }

    /** get_env for the process environment `environ`. */
    method GetEnv(environ: Env) returns (r: Result<Env, RuntimeError>)
      ensures r == RuntimeEnv(environ, lttngHome, specialEnv, projects)
    {
      var env := FetchPaths(environ);
      var merged := AddSpecials(env);
      r := if merged.None? then Err(SpecialVariableRedefined) else Ok(merged.value);
    }

    /** The first half of get_env: the home variables, then each path
        variable set to the aggregate, its delimiter and its prior value. */
    method FetchPaths(environ: Env) returns (env: Env)
      ensures env == Fetched(environ, lttngHome, projects)
    {
      env := HomeEnv(environ, lttngHome);
      ghost var start := env;
      for k := 0 to |PathVars|
        invariant env == Fetch(start, Aggregates(projects), k)
      {
        env := FetchPath(start, k, env);
      }
    }

    /** One turn of that loop: path variable `k` set to its aggregate, its
        delimiter and its prior value. */
    method FetchPath(ghost start: Env, k: nat, env: Env) returns (env': Env)
      requires k < |PathVars| && env == Fetch(start, Aggregates(projects), k)
      ensures env' == Fetch(start, Aggregates(projects), k + 1)
    {
      var pv := PathVars[k];
      var value := GetAggregate(pv.acc, pv.delim);
      FetchNext(start, projects, k);
      env' := env[pv.name := value + pv.delim + (if pv.name in env then env[pv.name] else "")];
    }

    /** The second half of get_env: the runtime's special variables, then
        each project's, raising at a name already present. */
    method AddSpecials(fetched: Env) returns (r: Option<Env>)
      ensures r == StrictMergeAll(fetched, [specialEnv] + SpecialsOf(projects))
    {
      ghost var all := [specialEnv] + SpecialsOf(projects);
      r := AddStrict(fetched, specialEnv);
      MergeStep(fetched, all, 0);
      if r.None? {
        return;
      }
      for i := 0 to |projects|
        invariant r.Some? && StrictMergeAll(fetched, all[..i + 1]) == r
      {
        var next := AddStrict(r.value, projects[i].specialEnv);
        MergeStep(fetched, all, i + 1);
        if next.None? {
          return None;
        }
        r := next;
      }
      assert all[..|projects| + 1] == all;
    }

    // -------------------------------------------------------------------
    // Spawned processes

    /** subprocess_signal: the signal's effect shows in the exit codes the host gives later. */
    method Signal(id: string) returns (r: Result<(), RuntimeError>)
      ensures r.Err? <==> id !in procs
      ensures r.Err? ==> r.error == NoSuchProcess(id)
    {
      if id !in procs {
        return Err(NoSuchProcess(id));
      }
      return Ok(());
    }

    /** spawn_subprocess: a new running process with open output files,
        registered under the same id in both tables; nothing is registered
        when the environment, the home directory or the command is wrong. */
    method Spawn(args: seq<string>, uuid: string, host: Host) returns (r: Result<string, RuntimeError>)
      requires Valid()
      modifies this`procs, this`outputs, this`order
      ensures Valid()
      ensures var env := RuntimeEnv(host.environ, lttngHome, specialEnv, projects);
        && (env.Err? ==> r == Err(env.error))
        && (env.Ok? && !host.homeIsDir ==> r == Err(HomeMissing))
        && (env.Ok? && host.homeIsDir && args == [] ==> r == Err(EmptyCommand))
        && (env.Ok? && host.homeIsDir && args != [] ==>
              var id := ProcId(args[0], uuid);
              && r == Ok(id)
              && procs == old(procs)[id := Proc(args, env.value, Running)]
              && outputs == old(outputs)[id := Open]
              && order == if id in old(procs) then old(order) else old(order) + [id])
      ensures r.Err? ==> procs == old(procs) && outputs == old(outputs) && order == old(order)
    {
      var env := GetEnv(host.environ);
      if env.Err? {
        return Err(env.error);
      }
      if !host.homeIsDir {
        return Err(HomeMissing);
      }
      if args == [] {
        return Err(EmptyCommand);
      }
      var id := ProcId(args[0], uuid);
      if id !in procs {
        order := order + [id];
      }
      procs := procs[id := Proc(args, env.value, Running)];
      outputs := outputs[id := Open];
      return Ok(id);
    }

    /** get_subprocess_stdout_path and get_subprocess_stderr_path: the file
        under the subprocess log directory named after the id. */
    function OutputPath(id: string, stderr: bool): (r: Result<string, RuntimeError>)
      reads this`outputs
      ensures r.Err? <==> id !in outputs
      ensures r.Err? ==> r.error == NoSuchProcess(id)
      ensures r.Ok? ==> StartsWith(r.value, subprocessLogDir) && EndsWith(r.value, id + (if stderr then ".err" else ".out"))
    {
      if id !in outputs then Err(NoSuchProcess(id))
      else Ok(PathJoin(subprocessLogDir, id + (if stderr then ".err" else ".out")))
    }

    /** subprocess_terminate: the process has exited and its files are
        closed; the exit code is checked unless the kill path was taken. */
    method Terminate(id: string, checkReturn: bool, host: Host) returns (r: Result<int, RuntimeError>)
      requires Valid()
      modifies this`procs, this`outputs
      ensures Valid()
      ensures id !in old(procs) ==> r == Err(NoSuchProcess(id)) && procs == old(procs) && outputs == old(outputs)
      ensures id in old(procs) ==>
        var pr := old(procs)[id];
        var code := TerminateCode(pr, id, host);
        && procs == old(procs)[id := Terminated(pr, id, host)] && outputs == old(outputs)[id := Closed]
        && r == (if checkReturn && code != 0 && !TimedOut(pr, id, host) then Err(CalledProcessError(code, pr.args)) else Ok(code))
    {
      if id !in procs {
        return Err(NoSuchProcess(id));
      }
      var pr := procs[id];
      if pr.status.Running? && host.TermExit(id).None? {
        r := Kill(id, host);
        return;
      }
      var code := if pr.status.Exited? then pr.status.code else host.TermExit(id).value;
      Finish(id, code);
      if checkReturn && code != 0 {
        return Err(CalledProcessError(code, pr.args));
      }
      return Ok(code);
    }

    /** subprocess_kill: SIGKILL to the process group, then wait; a process
        already reaped has no process group left to signal. */
    method Kill(id: string, host: Host) returns (r: Result<int, RuntimeError>)
      requires Valid()
      modifies this`procs, this`outputs
      ensures Valid()
      ensures id !in old(procs) ==> r == Err(NoSuchProcess(id)) && procs == old(procs) && outputs == old(outputs)
      ensures id in old(procs) && old(procs)[id].status.Exited? ==>
                r == Err(ProcessGone) && procs == old(procs) && outputs == old(outputs)
      ensures id in old(procs) && old(procs)[id].status.Running? ==>
                && r == Ok(host.KillExit(id))
                && procs == old(procs)[id := old(procs)[id].(status := Exited(host.KillExit(id)))]
                && outputs == old(outputs)[id := Closed]
    {
      if id !in procs {
        return Err(NoSuchProcess(id));
      }
      if procs[id].status.Exited? {
        return Err(ProcessGone);
      }
      Finish(id, host.KillExit(id));
      return Ok(host.KillExit(id));
    }

    /** subprocess_wait: the process has exited and its files are closed. */
    method Wait(id: string, checkReturn: bool, host: Host) returns (r: Result<int, RuntimeError>)
      requires Valid()
      modifies this`procs, this`outputs
      ensures Valid()
      ensures id !in old(procs) ==> r == Err(NoSuchProcess(id)) && procs == old(procs) && outputs == old(outputs)
      ensures id in old(procs) ==>
        var pr := old(procs)[id];
        var code := if pr.status.Exited? then pr.status.code else host.WaitExit(id);
        && procs == old(procs)[id := pr.(status := Exited(code))] && outputs == old(outputs)[id := Closed]
        && r == (if checkReturn && code != 0 then Err(CalledProcessError(code, pr.args)) else Ok(code))
    {
      if id !in procs {
        return Err(NoSuchProcess(id));
      }
      var pr := procs[id];
      var code := if pr.status.Exited? then pr.status.code else host.WaitExit(id);
      Finish(id, code);
      if checkReturn && code != 0 {
        return Err(CalledProcessError(code, pr.args));
      }
      return Ok(code);
    }

    /** The end of terminate, kill and wait: the exit code is known and both
        output files are closed. */
    method Finish(id: string, code: int)
      requires Valid() && id in procs
      modifies this`procs, this`outputs
      ensures Valid()
      ensures procs == old(procs)[id := old(procs)[id].(status := Exited(code))] && outputs == old(outputs)[id := Closed]
    {
      procs := procs[id := procs[id].(status := Exited(code))];
      outputs := outputs[id := Closed];
    }

    // -------------------------------------------------------------------
    // Commands run to completion

    /** Runtime.run: the command gets the next counter value as its id and
        its own log files; a nonzero exit is raised only when `checkReturn`
        is set, once the logs are written. An environment error comes
        before the counter moves. An empty command line takes its counter
        value and then raises, as subprocess.run reads the executable
        from the first word, so it leaves no entry in the log of runs. */
    method Run(args: seq<string>, opts: RunOptions, host: Host) returns (r: Result<Completed, RuntimeError>)
      requires Valid()
      modifies this`runCount, this`runs
      ensures Valid()
      ensures var env := RuntimeEnv(host.environ, lttngHome, specialEnv, projects);
        env.Err? ==> r == Err(env.error) && runCount == old(runCount) && runs == old(runs)
      ensures var env := RuntimeEnv(host.environ, lttngHome, specialEnv, projects);
        env.Ok? && RunArgs(args, opts, host.freePort) == [] ==>
          r == Err(EmptyCommand) && runCount == old(runCount) + 1 && runs == old(runs)
      ensures var env := RuntimeEnv(host.environ, lttngHome, specialEnv, projects);
        env.Ok? && RunArgs(args, opts, host.freePort) != [] ==>
              var n := old(runCount);
              var fullArgs := RunArgs(args, opts, host.freePort);
              var code := host.RunExit(n);
              && runCount == n + 1
              && runs == old(runs) + [RunRecord(n, fullArgs, RunEnv(env.value, opts), code)]
              && r == if opts.checkReturn && code != 0 then Err(CalledProcessError(code, fullArgs))
                      else Ok(Completed(code, fullArgs, RunLog(logDir, n, ".out"), RunLog(logDir, n, ".err")))
    {
      var got := GetEnv(host.environ);
      if got.Err? {
        return Err(got.error);
      }
      var env := RunEnv(got.value, opts);
      var fullArgs := RunArgs(args, opts, host.freePort);
      var n := runCount;
      runCount := runCount + 1;
      if fullArgs == [] {
        return Err(EmptyCommand);
      }
      var code := host.RunExit(n);
      runs := runs + [RunRecord(n, fullArgs, env, code)];
      if opts.checkReturn && code != 0 {
        return Err(CalledProcessError(code, fullArgs));
      }
      return Ok(Completed(code, fullArgs, RunLog(logDir, n, ".out"), RunLog(logDir, n, ".err")));
    }

    /** load_test_module: the flag is set only once modprobe succeeded. */
    method LoadTestModule(host: Host) returns (r: Result<(), RuntimeError>)
      requires Valid()
      modifies this`runCount, this`runs, this`testModulesLoaded
      ensures Valid()
      ensures testModulesLoaded == (old(testModulesLoaded) || r.Ok?)
      ensures r.Err? <==> RuntimeEnv(host.environ, lttngHome, specialEnv, projects).Err? || host.RunExit(old(runCount)) != 0
      ensures runs == old(runs) || (|runs| == |old(runs)| + 1 && runs[..|old(runs)|] == old(runs) && runs[|old(runs)|].args == LoadArgs)
      ensures r.Ok? ==> |runs| == |old(runs)| + 1
    {
      var done := Run(LoadArgs, Checked, host);
      if done.Err? {
        return Err(done.error);
      }
      testModulesLoaded := true;
      return Ok(());
    }

    /** unload_test_module: runs the removal only after a successful load;
        the flag is never cleared. */
    method UnloadTestModule(checkReturn: bool, host: Host) returns (r: Result<(), RuntimeError>)
      requires Valid()
      modifies this`runCount, this`runs
      ensures Valid()
      ensures var env := RuntimeEnv(host.environ, lttngHome, specialEnv, projects);
        r.Err? <==> testModulesLoaded && (env.Err? || (checkReturn && host.RunExit(old(runCount)) != 0))
      ensures var env := RuntimeEnv(host.environ, lttngHome, specialEnv, projects);
        testModulesLoaded && env.Err? ==> r == Err(env.error)
      ensures !testModulesLoaded ==> runs == old(runs) && runCount == old(runCount)
      ensures runs == old(runs) || (|runs| == |old(runs)| + 1 && runs[..|old(runs)|] == old(runs) && runs[|old(runs)|].args == UnloadArgs)
    {
      if testModulesLoaded {
        var done := Run(UnloadArgs, Checked.(checkReturn := checkReturn), host);
        if done.Err? {
          return Err(done.error);
        }
      }
      return Ok(());
    }

    /** close: terminate every process ever spawned, in spawn order and
        without a check, collecting the nonzero exits; then unload the test
        module without a check; then copy lttng_home next to the logs, which
        raises when the home is not a directory, before the copy is made,
        and when an earlier close made it already; then raise one
        SubProcessError holding every failure. Every process has
        exited and every output file is closed, whatever is raised. */
    method Close(host: Host) returns (r: Result<(), RuntimeError>)
      requires Valid()
      modifies this`procs, this`outputs, this`runCount, this`runs, this`homeCopied
      ensures Valid() && AllReaped()
      ensures procs.Keys == old(procs).Keys && forall id :: id in procs ==> procs[id] == Terminated(old(procs)[id], id, host)
      ensures var failures := CloseFailures(order, old(procs), host);
              var env := RuntimeEnv(host.environ, lttngHome, specialEnv, projects);
        if testModulesLoaded && env.Err? then r == Err(env.error) && homeCopied == old(homeCopied)
        else if !host.homeIsDir then r == Err(HomeMissing) && homeCopied == old(homeCopied)
        else if old(homeCopied) then r == Err(HomeCopyExists) && homeCopied
        else homeCopied && r == if failures == [] then Ok(()) else Err(SubProcessError(failures))
    {
      var failures := TerminateAll(host);
      r := Finalize(failures, host);
    }

    /** The `finally: runtime.close()` of get_runtime, after a body that
        ended with `raised`: close's error wins, read off the closed runtime. */
    method CloseAfter(raised: Result<(), RuntimeError>, host: Host) returns (r: Result<(), RuntimeError>)
      requires Valid() && !homeCopied
      modifies this`procs, this`outputs, this`runCount, this`runs, this`homeCopied
      ensures Valid() && AllReaped()
      ensures raised.Err? ==> r.Err?
      ensures var env := RuntimeEnv(host.environ, lttngHome, specialEnv, projects);
        var failures := CloseFailures(order, procs, host);
        if testModulesLoaded && env.Err? then r == Err(env.error) && !homeCopied
        else if !host.homeIsDir then r == Err(HomeMissing) && !homeCopied
        else homeCopied && (failures != [] ==> r == Err(SubProcessError(failures)))
      ensures r.Ok? ==> homeCopied && forall id :: id in procs ==> procs[id].status == Exited(0)
    {
      ghost var before := procs;
      var closing := Close(host);
      r := if closing.Err? then closing else raised;
      CloseFailuresTerminated(order, before, procs, host);
      if r.Ok? {
        ExitedZero(order, procs, host);
      }
    }

    /** The end of close, once every process is terminated: unload, copy
        lttng_home (its listing comes before the copy is created), then
        raise the collected failures. */
    method Finalize(failures: seq<RuntimeError>, host: Host) returns (r: Result<(), RuntimeError>)
      requires Valid()
      modifies this`runCount, this`runs, this`homeCopied
      ensures Valid()
      ensures var env := RuntimeEnv(host.environ, lttngHome, specialEnv, projects);
        if testModulesLoaded && env.Err? then r == Err(env.error) && homeCopied == old(homeCopied)
        else if !host.homeIsDir then r == Err(HomeMissing) && homeCopied == old(homeCopied)
        else if old(homeCopied) then r == Err(HomeCopyExists) && homeCopied
        else homeCopied && r == if failures == [] then Ok(()) else Err(SubProcessError(failures))
    {
      var unloaded := UnloadTestModule(false, host);
      if unloaded.Err? {
        return Err(unloaded.error);
      }
      if !host.homeIsDir {
        return Err(HomeMissing);
      }
      if homeCopied {
        return Err(HomeCopyExists);
      }
      homeCopied := true;
      if failures != [] {
        return Err(SubProcessError(failures));
      }
      return Ok(());
    }

    /** The loop of close: every process terminated without a check, in
        spawn order, with the failures it collects. */
    method TerminateAll(host: Host) returns (failures: seq<RuntimeError>)
      requires Valid()
      modifies this`procs, this`outputs
      ensures Valid() && AllReaped()
      ensures procs.Keys == old(procs).Keys && forall id :: id in procs ==> procs[id] == Terminated(old(procs)[id], id, host)
      ensures failures == CloseFailures(order, old(procs), host)
    {
      var before := procs;
      failures := [];
      for i := 0 to |order|
        invariant Valid() && procs.Keys == before.Keys
        invariant ReapedUpTo(procs, before, order[..i], host)
        invariant ClosedUpTo(outputs, order[..i])
        invariant failures == CloseFailures(order[..i], before, host)
      {
        failures := ReapNext(i, before, failures, host);
      }
      assert order[..|order|] == order;
      ReapedAll(procs, outputs, before, order, host);
    }

    /** One turn of close's loop: the next process in spawn order is
        terminated and its failure, if any, collected. */
    method ReapNext(i: nat, before: map<string, Proc>, failures: seq<RuntimeError>, host: Host) returns (more: seq<RuntimeError>)
      requires i < |order| && Valid() && procs.Keys == before.Keys
      requires ReapedUpTo(procs, before, order[..i], host) && ClosedUpTo(outputs, order[..i])
      requires failures == CloseFailures(order[..i], before, host)
      modifies this`procs, this`outputs
      ensures Valid() && procs.Keys == before.Keys
      ensures ReapedUpTo(procs, before, order[..i + 1], host) && ClosedUpTo(outputs, order[..i + 1])
      ensures more == CloseFailures(order[..i + 1], before, host)
    {
      var id := order[i];
      ghost var procs0, outputs0 := procs, outputs;
      var code := Reap(id, host);
      ReapStep(procs0, outputs0, before, order, i, host);
      more := failures;
      if code != 0 {
        more := more + [CalledProcessError(code, before[id].args)];
      }
    }

    /** subprocess_terminate without a check, as close calls it. */
    method Reap(id: string, host: Host) returns (code: int)
      requires Valid() && id in procs
      modifies this`procs, this`outputs
      ensures Valid()
      ensures code == TerminateCode(old(procs)[id], id, host)
      ensures procs == old(procs)[id := Terminated(old(procs)[id], id, host)] && outputs == old(outputs)[id := Closed]
    {
      var done := Terminate(id, false, host);
      code := done.value;
    }

    /** The body of a `with get_runtime(...)` block, one operation at a
        time, stopping at the first that raises. */
    method Exec(body: seq<Op>, host: Host) returns (r: Result<(), RuntimeError>)
      requires Valid()
      modifies this`projects, this`procs, this`outputs, this`order, this`runCount, this`runs, this`testModulesLoaded
      ensures Valid()
      ensures RaiseOp in body ==> r.Err?
    {
      for i := 0 to |body|
        invariant Valid()
        invariant RaiseOp !in body[..i]
      {
        var step := Step(body[i], host);
        if step.Err? {
          return step;
        }
        assert body[..i + 1] == body[..i] + [body[i]];
      }
      assert body[..|body|] == body;
      return Ok(());
    }

    /** One operation of the body. */
    method Step(op: Op, host: Host) returns (r: Result<(), RuntimeError>)
      requires Valid()
      modifies this`projects, this`procs, this`outputs, this`order, this`runCount, this`runs, this`testModulesLoaded
      ensures Valid()
      ensures op.RaiseOp? ==> r == Err(TestFailure)
    {
      r := Ok(());
      match op {
        case AddProjectOp(p) =>
          AddProject(p);
        case RemoveProjectOp(p) =>
          r := RemoveProject(p);
        case RunOp(args, opts) =>
          var done := Run(args, opts, host);
          if done.Err? { r := Err(done.error); }
        case LoadOp =>
          r := LoadTestModule(host);
        case UnloadOp(checkReturn) =>
          r := UnloadTestModule(checkReturn, host);
        case RaiseOp =>
          r := Err(TestFailure);
        case _ =>
          r := ProcessStep(op, host);
      }
    }

    /** One operation of the body on a spawned process. */
    method ProcessStep(op: Op, host: Host) returns (r: Result<(), RuntimeError>)
      requires Valid()
      modifies this`procs, this`outputs, this`order
      ensures Valid()
    {
      r := Ok(());
      match op {
        case SpawnOp(args, uuid) =>
          var spawned := Spawn(args, uuid, host);
          if spawned.Err? { r := Err(spawned.error); }
        case SignalOp(id) =>
          r := Signal(id);
        case TerminateOp(id, checkReturn) =>
          var done := Terminate(id, checkReturn, host);
          if done.Err? { r := Err(done.error); }
        case KillOp(id) =>
          var done := Kill(id, host);
          if done.Err? { r := Err(done.error); }
        case WaitOp(id, checkReturn) =>
          var done := Wait(id, checkReturn, host);
          if done.Err? { r := Err(done.error); }
        case _ =>
      }
    }
  }

  /** The operations a test does with its runtime. */
  datatype Op =
    | AddProjectOp(project: Snapshot)
    | RemoveProjectOp(project: Snapshot)
    | SpawnOp(args: seq<string>, uuid: string)
    | RunOp(args: seq<string>, opts: RunOptions)
    | SignalOp(id: string)
    | TerminateOp(id: string, checkReturn: bool)
    | KillOp(id: string)
    | WaitOp(id: string, checkReturn: bool)
    | LoadOp
    | UnloadOp(checkReturn: bool)
    | RaiseOp

  /** get_runtime: the runtime is closed however the body ends; an error
      of close replaces the body's, as an exception raised in a `finally`
      block does. What close raises is read off the closed runtime: the
      unload error of a test module that could not be unloaded, then the
      error of copying a home that is not a directory, otherwise one
      SubProcessError for the processes that exited nonzero; the
      body's own error comes out only when close raises nothing. */
  method GetRuntime(runtimeDir: string, lttngHome: string, body: seq<Op>, host: Host)
    returns (r: Result<(), RuntimeError>, rt: Option<Runtime>)
    ensures rt.None? <==> |lttngHome| > HomeLimit
    ensures rt.None? ==> r == Err(HomeTooLong)
    ensures rt.Some? ==>
      && fresh(rt.value) && rt.value.Valid() && rt.value.AllReaped()
      && rt.value.runtimeDir == runtimeDir && rt.value.lttngHome == lttngHome
      && rt.value.specialEnv == DefaultSpecials
      && (RaiseOp in body ==> r.Err?)
    ensures rt.Some? && rt.value.Valid() ==>
      var x := rt.value;
      var env := RuntimeEnv(host.environ, x.lttngHome, x.specialEnv, x.projects);
      var failures := CloseFailures(x.order, x.procs, host);
      if x.testModulesLoaded && env.Err? then r == Err(env.error) && !x.homeCopied
      else if !host.homeIsDir then r == Err(HomeMissing) && !x.homeCopied
      else x.homeCopied && (failures != [] ==> r == Err(SubProcessError(failures)))
    ensures rt.Some? && r.Ok? ==>
      rt.value.homeCopied && forall id :: id in rt.value.procs ==> rt.value.procs[id].status == Exited(0)
  {
    var made := Runtime.New(runtimeDir, lttngHome);
    if made.Err? {
      return Err(made.error), None;
    }
    var runtime := made.value;
    var raised := runtime.Exec(body, host);
    r := runtime.CloseAfter(raised, host);
    rt := Some(runtime);
  }

  /** The modprobe command lines of load_test_module and unload_test_module. */
  const LoadArgs: seq<string> := ["modprobe", "lttng-test"]
  const UnloadArgs: seq<string> := ["modprobe", "-r", "--remove-dependencies", "lttng-test", "lttng-statedump",
    "lttng_wrapper", "lttng_kprobes", "lttng_clock", "lttng_uprobes", "lttng_lib_ring_buffer", "lttng_kretprobes"]

  /** The default options of run. */
  const Checked := RunOptions(true, "", "", false, false)

  /** The command line run executes: under gdbserver on a free port when asked. */
  function RunArgs(args: seq<string>, opts: RunOptions, port: nat): (r: seq<string>)
    ensures EndsWithSeq(r, args)
    ensures opts.gdbserver <==> |r| == |args| + 2
  {
    if opts.gdbserver then ["gdbserver", "localhost:" + NatToString(port)] + args else args
  }

  predicate EndsWithSeq(s: seq<string>, t: seq<string>)
  {
    |t| <= |s| && s[|s| - |t|..] == t
  }

  /** The names run overrides for these options. */
  function OverrideNames(opts: RunOptions): set<string>
  {
    (if opts.ldPreload != "" then {"LD_PRELOAD"} else {}) +
    (if opts.classpath != "" then {"CLASSPATH"} else {}) +
    (if opts.ldDebug then {"LD_DEBUG"} else {})
  }

  /** The environment of a run: get_env's, with the options' overrides. */
  function RunEnv(env: Env, opts: RunOptions): Env
  {
    var e1 := if opts.ldPreload != "" then env["LD_PRELOAD" := opts.ldPreload] else env;
    var e2 := if opts.classpath != "" then e1["CLASSPATH" := opts.classpath] else e1;
    if opts.ldDebug then e2["LD_DEBUG" := "all"] else e2
  }

  /** A run sees get_env's variables, except the ones its options override,
      which it sees with the option's value. */
  lemma RunEnvOverrides(env: Env, opts: RunOptions)
    ensures var r := RunEnv(env, opts);
      && r.Keys == env.Keys + OverrideNames(opts)
      && (forall n :: n in env && n !in OverrideNames(opts) ==> r[n] == env[n])
      && (opts.ldPreload != "" ==> r["LD_PRELOAD"] == opts.ldPreload)
      && (opts.classpath != "" ==> r["CLASSPATH"] == opts.classpath)
      && (opts.ldDebug ==> r["LD_DEBUG"] == "all")
  {
  }
}
