/** relayd_spawn of lttng_ivc/utils/utils.py: starting an lttng-relayd on
    three distinct free ports inside a runtime and waiting, by reading its
    verbose output, until it accepts live viewers. */
module Relayd {
  import opened Base
  import opened Utils
  import opened Sandbox

  /** The line lttng-relayd -vvv writes once it is ready. */
  const ReadyCue := "Listener accepting live viewers connections"

  /** Number of polls of the output file before relayd_spawn gives up. */
  const ReadyTimeout := 60

  /** What relayd_spawn raises. */
  datatype RelaydError =
    | NoPorts(portError: Utils.Error)             // find_multiple_free_port ran out of offers
    | SpawnFailed(spawnError: RuntimeError)       // spawn_subprocess raised
    | ReadinessTimeout                    // "Relayd readyness timeout expired"

  /** The tuple relayd_spawn returns. */
  datatype Spawned = Spawned(id: string, ctrl: nat, data: nat, live: nat)

  // ---------------------------------------------------------------------
  // The command line

  const RelaydExecutable := "lttng-relayd"

  /** "tcp://{url}:{port}". */
  function TcpUrl(url: string, port: nat): string
  {
    "tcp://" + url + ":" + NatToString(port)
  }

  /** The words of the relayd command line: what shlex.split makes of it
      when the url holds no blank and no quote. */
  function RelaydArgs(url: string, data: nat, ctrl: nat, live: nat): (r: seq<string>)
  {
    [RelaydExecutable, "-vvv", "-D", TcpUrl(url, data), "-C", TcpUrl(url, ctrl), "-L", TcpUrl(url, live)]
  }

  /** The command line relayd_spawn builds: the base command
      "lttng-relayd -vvv" and the three listening options, each
      "-D tcp://{url}:{port}" and so on, joined by blanks. */
  function RelaydCommand(url: string, data: nat, ctrl: nat, live: nat): string
  {
    Join([RelaydExecutable + " " + "-vvv", "-D" + " " + TcpUrl(url, data),
          "-C" + " " + TcpUrl(url, ctrl), "-L" + " " + TcpUrl(url, live)], " ")
  }

  /** Joining eight words by blanks is joining the four pairs they make. */
  lemma JoinPairs(w0: string, w1: string, w2: string, w3: string, w4: string, w5: string, w6: string, w7: string)
    ensures Join([w0, w1, w2, w3, w4, w5, w6, w7], " ")
         == Join([w0 + " " + w1, w2 + " " + w3, w4 + " " + w5, w6 + " " + w7], " ")
  {
    var ws := [w0, w1, w2, w3, w4, w5, w6, w7];
    var ps := [w0 + " " + w1, w2 + " " + w3, w4 + " " + w5, w6 + " " + w7];
    var sp := " ";
    assert Join(ws[6..], sp) == w6 + sp + w7 == Join(ps[3..], sp);
    assert Join(ws[4..], sp) == w4 + sp + (w5 + sp + Join(ws[6..], sp));
    assert Join(ws[4..], sp) == (w4 + sp + w5) + sp + Join(ps[3..], sp) == Join(ps[2..], sp);
    assert Join(ws[2..], sp) == w2 + sp + (w3 + sp + Join(ws[4..], sp));
    assert Join(ws[2..], sp) == (w2 + sp + w3) + sp + Join(ps[2..], sp) == Join(ps[1..], sp);
    assert Join(ws, sp) == w0 + sp + (w1 + sp + Join(ws[2..], sp));
    assert Join(ws, sp) == (w0 + sp + w1) + sp + Join(ps[1..], sp) == Join(ps, sp);
  }

  /** The words the process is started with are the command line's, blank
      separated. */
  lemma ArgsSpellCommand(url: string, data: nat, ctrl: nat, live: nat)
    ensures Join(RelaydArgs(url, data, ctrl, live), " ") == RelaydCommand(url, data, ctrl, live)
  {
    JoinPairs(RelaydExecutable, "-vvv", "-D", TcpUrl(url, data), "-C", TcpUrl(url, ctrl), "-L", TcpUrl(url, live));
  }

  // ---------------------------------------------------------------------
  // Readiness

  /** The text of the output file at the `i`-th poll; past the listed polls
      the file no longer changes. */
  function LogAt(logs: seq<string>, i: nat): string
  {
    if i < |logs| then logs[i] else if logs == [] then "" else logs[|logs| - 1]
  }

  /** The intended readiness test: some line holds the cue. */
  predicate Ready(text: string)
  {
    Mentions(Lines(text), [ReadyCue])
  }

  /** Some line holds `cue`. */
  predicate LineHolds(lines: seq<string>, cue: string)
  {
    exists k :: 0 <= k < |lines| && IsInfix(cue, lines[k])
  }

  lemma ReadyMeans(text: string)
    ensures Ready(text) <==> LineHolds(Lines(text), ReadyCue)
  {
    MentionsSingle(Lines(text), ReadyCue);
  }

  /** The test as relayd_spawn writes it: file_contains iterates the cue
      string, so each of its characters is a string looked for on its own. */
  predicate ReadyAsWritten(text: string)
  {
    Mentions(Lines(text), Chars(ReadyCue))
  }

  /** A one-character line passes the as-written test for any cue that
      starts with that character, and holds no cue longer than itself. */
  lemma StrayLine(cue: string, c: char)
    requires 2 <= |cue| && cue[0] == c && c != '\r'
    ensures Mentions(Lines([c]), Chars(cue)) && !LineHolds(Lines([c]), cue)
  {
    OneCharLine(c);
    MentionsChars([[c]], cue, 0, 0);
  }

  /** A one-character text other than a carriage return is one line. */
  lemma OneCharLine(c: char)
    requires c != '\r'
    ensures Lines([c]) == [[c]]
  {
    var s := [c];
    NewlinesKeep(s);
    assert s[1..] == [] && s[..1] == s;
    assert FirstLineLength(s[1..]) == 0;
    assert FirstLineLength(s) == 1;
    assert Lines(s[1..]) == [];
  }

  /** A line holding nothing but an "L" passes the test as written, although
      it is far from the cue. */
  lemma StrayLineReady()
    ensures ReadyAsWritten("L") && !Ready("L")
  {
    StrayLine(ReadyCue, 'L');
    ReadyMeans("L");
  }

  /** The test as written never fires later than the intended one. */
  lemma ReadyAsWrittenEarlier(text: string)
    requires Ready(text)
    ensures ReadyAsWritten(text)
  {
    ReadyMeans(text);
    var lines := Lines(text);
    var k :| 0 <= k < |lines| && IsInfix(ReadyCue, lines[k]);
    var p :| 0 <= p <= |lines[k]| - |ReadyCue| && InfixAt(ReadyCue, lines[k], p);
    assert lines[k][p] == lines[k][p..p + |ReadyCue|][0];
    MentionsChars(lines, ReadyCue, k, 0);
  }

  /** The polling loop: file_contains on the output file, then a
      one-second sleep, at most ReadyTimeout times. `polls` is the number
      of polls that did not see the cue. */
  method AwaitReady(logs: seq<string>, cues: seq<string>) returns (ready: bool, polls: nat)
    ensures ready <==> exists i :: 0 <= i < ReadyTimeout && Mentions(Lines(LogAt(logs, i)), cues)
    ensures ready ==> polls < ReadyTimeout && Mentions(Lines(LogAt(logs, polls)), cues)
    ensures !ready ==> polls == ReadyTimeout
    ensures forall i :: 0 <= i < polls ==> !Mentions(Lines(LogAt(logs, i)), cues)
  {
    polls := 0;
    while polls < ReadyTimeout
      invariant polls <= ReadyTimeout
      invariant forall i :: 0 <= i < polls ==> !Mentions(Lines(LogAt(logs, i)), cues)
    {
      var found := FileContains(LogAt(logs, polls), cues);
      if found {
        return true, polls;
      }
      polls := polls + 1;
    }
    return false, polls;
  }

  // ---------------------------------------------------------------------
  // relayd_spawn

  /** relayd_spawn: three distinct ports popped off the end of the list as
      data, ctrl and live; the relayd started with them; then the readiness
      polls. A relayd that never gets ready stays registered: the runtime
      cleans it up when it closes. */
  method Spawn(rt: Runtime, url: string, uuid: string, host: Host, offers: seq<nat>, logs: seq<string>)
      returns (r: Result<Spawned, RelaydError>)
    requires rt.Valid()
    modifies rt`procs, rt`outputs, rt`order
    ensures rt.Valid()
    ensures |Dedup(offers)| < 3 ==> r == Err(NoPorts(PortsExhausted))
    ensures r.Err? && r.error.NoPorts? <==> |Dedup(offers)| < 3
    ensures r.Ok? <==>
      && 3 <= |Dedup(offers)|
      && RuntimeEnv(host.environ, rt.lttngHome, rt.specialEnv, rt.projects).Ok? && host.homeIsDir
      && exists i :: 0 <= i < ReadyTimeout && Ready(LogAt(logs, i))
    ensures r.Err? && r.error.NoPorts? ==> rt.procs == old(rt.procs) && rt.outputs == old(rt.outputs) && rt.order == old(rt.order)
    ensures r.Err? && r.error.SpawnFailed? ==> rt.procs == old(rt.procs) && rt.outputs == old(rt.outputs) && rt.order == old(rt.order)
    ensures r.Err? && r.error.SpawnFailed? <==>
      3 <= |Dedup(offers)| && (RuntimeEnv(host.environ, rt.lttngHome, rt.specialEnv, rt.projects).Err? || !host.homeIsDir)
    ensures r.Ok? ==>
      && r.value.data == Dedup(offers)[2] && r.value.ctrl == Dedup(offers)[1] && r.value.live == Dedup(offers)[0]
      && r.value.data != r.value.ctrl && r.value.ctrl != r.value.live && r.value.data != r.value.live
    ensures r.Ok? || r == Err(ReadinessTimeout) ==>
      var ports := Dedup(offers);
      var id := ProcId(RelaydExecutable, uuid);
      && rt.procs == old(rt.procs)[id := Proc(RelaydArgs(url, ports[2], ports[1], ports[0]), RuntimeEnv(host.environ, rt.lttngHome, rt.specialEnv, rt.projects).value, Running)]
      && rt.outputs == old(rt.outputs)[id := Open]
      && rt.order == if id in old(rt.procs) then old(rt.order) else old(rt.order) + [id]
    ensures r.Ok? ==> r.value.id == ProcId(RelaydExecutable, uuid)
    ensures r.Ok? ==> exists i :: 0 <= i < ReadyTimeout && Ready(LogAt(logs, i))
    ensures r == Err(ReadinessTimeout) ==> forall i :: 0 <= i < ReadyTimeout ==> !Ready(LogAt(logs, i))
  {
    var ports := FindMultipleFreePort(3, offers);
    if ports.Err? {
      return Err(NoPorts(ports.error));
    }
    var p := ports.value;
    var data, ctrl, live := p[2], p[1], p[0];
    var args := RelaydArgs(url, data, ctrl, live);
    var id := rt.Spawn(args, uuid, host);
    if id.Err? {
      return Err(SpawnFailed(id.error));
    }
    var logPath := rt.OutputPath(id.value, true);
    assert logPath.Ok?;
    var ready, _ := AwaitReady(logs, [ReadyCue]);
    if !ready {
      return Err(ReadinessTimeout);
    }
    return Ok(Spawned(id.value, ctrl, data, live));
  }
}
