/**
 * CLI process management (internal/claude/manager.go), modelled sequentially:
 * the subprocess becomes a start outcome plus the lines it writes to stdout,
 * and the output channel becomes the finite sequence of forwarded events.
 */
module ClaudeManager {
  import opened Wrappers
  import opened Seqs
  import opened Text
  import opened ClaudeEvents

  // ---------------------------------------------------------------------------
  // Argument list

  const OutputFlags: seq<string> := ["--output-format", "stream-json", "--verbose", "--dangerously-skip-permissions"]

  /** The CLI argument list of Process.Start. */
  function BuildArgs(prompt: string, model: string, systemPrompt: string): (args: seq<string>)
    ensures |args| == 6 + (if systemPrompt != "" then 2 else 0) + (if model != "" then 2 else 0)
    ensures args[..2] == ["-p", prompt] && args[|args| - 4..] == OutputFlags
    ensures ParseArgs(args) == Some((prompt, model, systemPrompt))
  {
    var sp := if systemPrompt != "" then ["--system-prompt", systemPrompt] else [];
    var m := if model != "" then ["--model", model] else [];
    var args := ["-p", prompt] + sp + m + OutputFlags;
    assert args[2..|args| - 4] == sp + m;
    args
  }

  /** Reads an argument list back into (prompt, model, system prompt). */
  function ParseArgs(args: seq<string>): Option<(string, string, string)>
  {
    if |args| < 6 || args[0] != "-p" || args[|args| - 4..] != OutputFlags then None
    else
      var mid := args[2..|args| - 4];
      if mid == [] then Some((args[1], "", ""))
      else if |mid| == 2 && mid[0] == "--system-prompt" && mid[1] != "" then Some((args[1], "", mid[1]))
      else if |mid| == 2 && mid[0] == "--model" && mid[1] != "" then Some((args[1], mid[1], ""))
      else if |mid| == 4 && mid[0] == "--system-prompt" && mid[1] != "" && mid[2] == "--model" && mid[3] != ""
      then Some((args[1], mid[3], mid[1]))
      else None
  }

  /** Every argument list ParseArgs accepts is the one BuildArgs produces for what it reads. */
  lemma ParseArgsInvertsBuild(args: seq<string>)
    requires ParseArgs(args).Some?
    ensures var (p, m, sp) := ParseArgs(args).value; BuildArgs(p, m, sp) == args
  {
    var (p, m, sp) := ParseArgs(args).value;
    var mid := args[2..|args| - 4];
    assert args == ["-p", p] + mid + OutputFlags;
  }

  // ---------------------------------------------------------------------------
  // The stdout parser

  /** bufio.Scanner's default MaxScanTokenSize: a line this long (in bytes) stops scanning. */
  const MaxScanTokenSize := 64 * 1024

  function CharUtf8Length(c: char): nat
  {
    if c as int < 0x80 then 1 else if c as int < 0x800 then 2 else if c as int < 0x10000 then 3 else 4
  }

  function Utf8Length(s: string): nat
  {
    if |s| == 0 then 0 else CharUtf8Length(s[0]) + Utf8Length(s[1..])
  }

  /** A line the scanner cannot buffer together with its newline: Scan reports ErrTooLong and returns false. */
  predicate TooLong(line: string)
  {
    Utf8Length(line) >= MaxScanTokenSize
  }

  /**
   * The events the parser goroutine sends on Output: blank lines skipped,
   * undecodable lines dropped, the rest decoded and forwarded in order, up to
   * the first line too long for the scanner.
   */
  function Forwarded(lines: seq<string>, decode: string -> Option<Event>): (events: seq<Event>)
    ensures |events| <= |lines|
    ensures (forall i :: 0 <= i < |lines| ==> lines[i] == "") ==> events == []
    ensures |lines| > 0 && TooLong(lines[0]) ==> events == []
  {
    if |lines| == 0 || TooLong(lines[0]) then []
    else
      var rest := Forwarded(lines[1..], decode);
      if lines[0] == "" then rest
      else match decode(lines[0])
        case None => rest
        case Some(e) => [e] + rest
  }

  /** A line the parser forwards. */
  predicate Forwardable(line: string, decode: string -> Option<Event>)
  {
    !TooLong(line) && line != "" && decode(line).Some?
  }

  /** Forwarding is a homomorphism over stretches of lines the scanner can read. */
  lemma {:induction false} ForwardedAppend(a: seq<string>, b: seq<string>, decode: string -> Option<Event>)
    requires forall i :: 0 <= i < |a| ==> !TooLong(a[i])
    ensures Forwarded(a + b, decode) == Forwarded(a, decode) + Forwarded(b, decode)
  {
    if |a| == 0 {
      assert a + b == b;
    } else {
      assert (a + b)[0] == a[0];
      assert (a + b)[1..] == a[1..] + b;
      ForwardedAppend(a[1..], b, decode);
    }
  }

  /** One readable line forwards its own decoding, or nothing. */
  lemma ForwardedOne(line: string, decode: string -> Option<Event>)
    requires !TooLong(line)
    ensures Forwarded([line], decode) == if Forwardable(line, decode) then [decode(line).value] else []
  {
    assert [line][1..] == [];
  }

  /** A blank or undecodable line neither appears nor stops the loop. */
  lemma {:induction false} SkippedLineIsInvisible(a: seq<string>, bad: string, b: seq<string>, decode: string -> Option<Event>)
    requires forall i :: 0 <= i < |a| ==> !TooLong(a[i])
    requires bad == "" || (decode(bad) == None && !TooLong(bad))
    ensures Forwarded(a + [bad] + b, decode) == Forwarded(a, decode) + Forwarded(b, decode)
  {
    ForwardedAppend(a, [bad] + b, decode);
    assert a + [bad] + b == a + ([bad] + b);
    assert !TooLong(bad) && ([bad] + b)[0] == bad && ([bad] + b)[1..] == b;
    assert Forwarded([bad] + b, decode) == Forwarded(b, decode);
  }

  /** Every forwarded event is the decoding of some non-blank line. */
  lemma {:induction false} ForwardedComesFromLines(lines: seq<string>, decode: string -> Option<Event>, k: nat)
    requires k < |Forwarded(lines, decode)|
    ensures exists i :: 0 <= i < |lines| && lines[i] != "" && decode(lines[i]) == Some(Forwarded(lines, decode)[k])
  {
    var rest := Forwarded(lines[1..], decode);
    if lines[0] != "" && decode(lines[0]).Some? && k == 0 {
      assert lines[0] != "" && decode(lines[0]) == Some(Forwarded(lines, decode)[0]);
    } else {
      var k' := if lines[0] != "" && decode(lines[0]).Some? then k - 1 else k;
      assert Forwarded(lines, decode)[k] == rest[k'];
      ForwardedComesFromLines(lines[1..], decode, k');
      var i :| 0 <= i < |lines[1..]| && lines[1..][i] != "" && decode(lines[1..][i]) == Some(rest[k']);
      assert lines[i + 1] == lines[1..][i];
    }
  }

  predicate HasSessionId(e: Event)
  {
    e.sessionId != ""
  }

  /**
   * The session id after the parser has seen `events`: a set id is kept,
   * an unset one is taken from the first event that carries one.
   */
  function AdoptSessionId(sid: string, events: seq<Event>): (r: string)
    ensures sid != "" ==> r == sid
    ensures sid == "" ==>
              var k := FirstIndex(events, HasSessionId);
              r == if k < |events| then events[k].sessionId else ""
    decreases |events|
  {
    if sid != "" || |events| == 0 then sid
    else
      assert FirstIndex(events, HasSessionId)
          == if HasSessionId(events[0]) then 0 else 1 + FirstIndex(events[1..], HasSessionId);
      AdoptSessionId(events[0].sessionId, events[1..])
  }

  /** Adoption over a concatenation is adoption over each part in turn. */
  lemma {:induction false} AdoptAppend(sid: string, a: seq<Event>, b: seq<Event>)
    ensures AdoptSessionId(sid, a + b) == AdoptSessionId(AdoptSessionId(sid, a), b)
    decreases |a|
  {
    if sid == "" && |a| > 0 {
      assert (a + b)[0] == a[0];
      assert (a + b)[1..] == a[1..] + b;
      AdoptAppend(a[0].sessionId, a[1..], b);
    } else if |a| == 0 {
      assert a + b == b;
    }
  }

  /** Once adopted, the session id never changes, whatever arrives later. */
  lemma SessionIdStable(sid: string, a: seq<Event>, b: seq<Event>)
    requires AdoptSessionId(sid, a) != ""
    ensures AdoptSessionId(sid, a + b) == AdoptSessionId(sid, a)
  {
    AdoptAppend(sid, a, b);
  }

  // ---------------------------------------------------------------------------
  // Process

  /**
   * Process, with the OS process reduced to whether one exists and whether it
   * was killed, and the Output channel to the events sent on it so far.
   */
  datatype Process = Process(
    sessionId: string,
    projectPath: string,
    args: seq<string>,
    hasOsProcess: bool,
    isRunning: bool,
    output: seq<Event>,
    killed: bool)

  /** The process record CreateSession builds before Start: only its project path is set. */
  function NewProcess(projectPath: string): Process
  {
    Process("", projectPath, [], false, false, [], false)
  }

  /** What happened when Start tried to launch the CLI. */
  datatype StartOutcome =
    | StdoutPipeError(detail: string)
    | StderrPipeError(detail: string)
    | SpawnError(detail: string)
    | Spawned

  datatype LaunchError =
    | CapacityReached(limit: int)
    | StdoutPipeFailed(detail: string)
    | StderrPipeFailed(detail: string)
    | SpawnFailed(detail: string)

  /** The error Start wraps a failed launch step in. */
  function StartError(outcome: StartOutcome): LaunchError
    requires !outcome.Spawned?
  {
    match outcome
    case StdoutPipeError(d) => StdoutPipeFailed(d)
    case StderrPipeError(d) => StderrPipeFailed(d)
    case SpawnError(d) => SpawnFailed(d)
  }

  /** The error's text as fmt.Errorf renders it. */
  function ErrorText(e: LaunchError): string
  {
    match e
    case CapacityReached(n) => "max concurrent sessions (" + DecimalString(n) + ") reached"
    case StdoutPipeFailed(d) => "failed to get stdout pipe: " + d
    case StderrPipeFailed(d) => "failed to get stderr pipe: " + d
    case SpawnFailed(d) => "failed to start claude: " + d
  }

  /**
   * Process.Start up to the launch of its goroutines: on any failure an
   * error and no process; on success a running process with an empty queue.
   */
  function Start(p: Process, prompt: string, model: string, systemPrompt: string, outcome: StartOutcome)
    : (r: Result<Process, LaunchError>)
    ensures r.Success? <==> outcome.Spawned?
    ensures r.Success? ==>
              && r.value.isRunning && r.value.hasOsProcess && r.value.output == []
              && r.value.args == BuildArgs(prompt, model, systemPrompt)
              && r.value.sessionId == p.sessionId && r.value.projectPath == p.projectPath
              && r.value.killed == p.killed
    ensures outcome.StdoutPipeError? ==> r == Failure(StdoutPipeFailed(outcome.detail))
    ensures outcome.StderrPipeError? ==> r == Failure(StderrPipeFailed(outcome.detail))
    ensures outcome.SpawnError? ==> r == Failure(SpawnFailed(outcome.detail))
  {
    if !outcome.Spawned? then Failure(StartError(outcome))
    else Success(p.(args := BuildArgs(prompt, model, systemPrompt), hasOsProcess := true, isRunning := true, output := []))
  }

  /** Reading one more readable line extends the forwarded events by that line's own. */
  lemma {:induction false} ForwardedStep(lines: seq<string>, i: nat, decode: string -> Option<Event>)
    requires i < |lines| && !TooLong(lines[i])
    requires forall j :: 0 <= j < i ==> !TooLong(lines[j])
    ensures Forwarded(lines[..i + 1], decode) ==
              Forwarded(lines[..i], decode) + (if Forwardable(lines[i], decode) then [decode(lines[i]).value] else [])
  {
    assert lines[..i + 1] == lines[..i] + [lines[i]];
    ForwardedAppend(lines[..i], [lines[i]], decode);
    ForwardedOne(lines[i], decode);
  }

  /** A line too long for the scanner ends the events: nothing from it or after it is forwarded. */
  lemma {:induction false} ForwardedStopsAt(lines: seq<string>, i: nat, decode: string -> Option<Event>)
    requires i < |lines| && TooLong(lines[i])
    requires forall j :: 0 <= j < i ==> !TooLong(lines[j])
    ensures Forwarded(lines, decode) == Forwarded(lines[..i], decode)
  {
    ForwardedAppend(lines[..i], lines[i..], decode);
    assert lines[..i] + lines[i..] == lines;
    assert lines[i..][0] == lines[i];
  }

  /** Adopting over one more event: only an unset id can change, to that event's id. */
  lemma {:induction false} AdoptSnoc(sid: string, events: seq<Event>, e: Event)
    ensures AdoptSessionId(sid, events + [e]) ==
              var before := AdoptSessionId(sid, events);
              if before == "" && e.sessionId != "" then e.sessionId else before
  {
    AdoptAppend(sid, events, [e]);
    assert [e][1..] == [];
  }

  /**
   * The stdout goroutine run to completion over the lines the CLI wrote:
   * forwards events in order, adopts the session id, then clears the running flag.
   */
  method RunParser(p: Process, lines: seq<string>, decode: string -> Option<Event>) returns (q: Process)
    ensures q.output == p.output + Forwarded(lines, decode)
    ensures q.sessionId == AdoptSessionId(p.sessionId, Forwarded(lines, decode))
    ensures !q.isRunning
    ensures q.args == p.args && q.projectPath == p.projectPath
    ensures q.hasOsProcess == p.hasOsProcess && q.killed == p.killed
  {
    var events: seq<Event> := [];
    var sid := p.sessionId;
    var i := 0;
    while i < |lines|
      invariant 0 <= i <= |lines|
      invariant forall j :: 0 <= j < i ==> !TooLong(lines[j])
      invariant events == Forwarded(lines[..i], decode)
      invariant sid == AdoptSessionId(p.sessionId, events)
    {
      var line := lines[i];
      if TooLong(line) {
        ForwardedStopsAt(lines, i, decode);
        break;
      }
      ForwardedStep(lines, i, decode);
      if line != "" {
        var decoded := decode(line);
        if decoded.Some? {
          var msg := decoded.value;
          AdoptSnoc(p.sessionId, events, msg);
          if sid == "" && msg.sessionId != "" {
            sid := msg.sessionId;
          }
          events := events + [msg];
        }
      }
      i := i + 1;
    }
    if i == |lines| {
      assert lines[..i] == lines;
    }
    q := p.(output := p.output + events, sessionId := sid, isRunning := false);
  }

  /** Process.Stop: kill the OS process if there is one, clear the running flag. */
  function Stop(p: Process): (q: Process)
    ensures !q.isRunning
    ensures q.killed == (p.killed || p.hasOsProcess)
    ensures q.(isRunning := p.isRunning, killed := p.killed) == p
  {
    p.(isRunning := false, killed := p.killed || p.hasOsProcess)
  }

  /** Stop is idempotent: stopping a stopped process changes nothing. */
  lemma StopIdempotent(p: Process)
    ensures Stop(Stop(p)) == Stop(p)
  {
  }

  // ---------------------------------------------------------------------------
  // Manager

  /** Manager: the (never populated) process registry and the run-once version cache. */
  datatype Manager = Manager(processes: map<string, Process>, versionProbed: bool, version: string)

  function NewManager(): Manager
  {
    Manager(map[], false, "")
  }

  /** The registry size; CreateSession never inserts, so it stays where NewManager put it. */
  function ActiveSessionCount(m: Manager): (n: nat)
    ensures n == 0 <==> m.processes == map[]
    ensures m == NewManager() ==> n == 0
  {
    |m.processes|
  }

  /**
   * CreateSession: the capacity gate, then Start. The manager is returned
   * unchanged: the started process is never inserted into the registry.
   */
  function CreateSession(
    m: Manager, maxSessions: int, projectPath: string,
    prompt: string, model: string, systemPrompt: string, outcome: StartOutcome)
    : (res: (Manager, Result<Process, LaunchError>))
    ensures res.0 == m
    ensures res.1.Failure? && res.1.error.CapacityReached? <==> ActiveSessionCount(m) >= maxSessions
    ensures ActiveSessionCount(res.0) == ActiveSessionCount(m)
    ensures |m.processes| >= maxSessions ==> res.1 == Failure(CapacityReached(maxSessions))
    ensures |m.processes| < maxSessions ==>
              res.1 == Start(NewProcess(projectPath), prompt, model, systemPrompt, outcome)
    ensures res.1.Success? ==> res.1.value.projectPath == projectPath && res.1.value.sessionId == ""
  {
    if |m.processes| >= maxSessions then (m, Failure(CapacityReached(maxSessions)))
    else (m, Start(NewProcess(projectPath), prompt, model, systemPrompt, outcome))
  }

  /** One CreateSession call. */
  datatype Attempt = Attempt(projectPath: string, prompt: string, model: string, systemPrompt: string, outcome: StartOutcome)

  /** The results of a series of CreateSession calls, each on the manager the previous one left. */
  function SessionResults(m: Manager, maxSessions: int, attempts: seq<Attempt>): (rs: seq<Result<Process, LaunchError>>)
    ensures |rs| == |attempts|
    decreases |attempts|
  {
    if |attempts| == 0 then []
    else
      var a := attempts[0];
      var (m', r) := CreateSession(m, maxSessions, a.projectPath, a.prompt, a.model, a.systemPrompt, a.outcome);
      [r] + SessionResults(m', maxSessions, attempts[1..])
  }

  /**
   * From a manager under its ceiling, no call in any series is ever refused
   * for capacity: each result is exactly what Start alone would give.
   */
  lemma {:induction false} GateNeverFires(m: Manager, maxSessions: int, attempts: seq<Attempt>)
    requires |m.processes| < maxSessions
    ensures forall i :: 0 <= i < |attempts| ==>
              SessionResults(m, maxSessions, attempts)[i]
              == Start(NewProcess(attempts[i].projectPath), attempts[i].prompt, attempts[i].model,
                       attempts[i].systemPrompt, attempts[i].outcome)
  {
    if |attempts| > 0 {
      GateNeverFires(m, maxSessions, attempts[1..]);
    }
  }

  /**
   * The other side of the gate: with a ceiling at or below the registry size
   * (a fresh manager and a ceiling of 0 or less), every call is refused.
   */
  lemma {:induction false} GateAlwaysFires(m: Manager, maxSessions: int, attempts: seq<Attempt>)
    requires |m.processes| >= maxSessions
    ensures forall i :: 0 <= i < |attempts| ==>
              SessionResults(m, maxSessions, attempts)[i] == Failure(CapacityReached(maxSessions))
  {
    if |attempts| > 0 {
      GateAlwaysFires(m, maxSessions, attempts[1..]);
    }
  }

  /** In particular a fresh manager with a positive ceiling accepts arbitrarily many launches. */
  lemma FreshManagerNeverRefuses(maxSessions: int, attempts: seq<Attempt>)
    requires maxSessions > 0
    ensures forall i :: 0 <= i < |attempts| && attempts[i].outcome.Spawned? ==>
              SessionResults(NewManager(), maxSessions, attempts)[i].Success?
  {
    GateNeverFires(NewManager(), maxSessions, attempts);
  }

  /** The manager a series of CreateSession calls leaves, each on the manager the previous one left. */
  function ManagerAfter(m: Manager, maxSessions: int, attempts: seq<Attempt>): Manager
    decreases |attempts|
  {
    if |attempts| == 0 then m
    else
      var a := attempts[0];
      ManagerAfter(CreateSession(m, maxSessions, a.projectPath, a.prompt, a.model, a.systemPrompt, a.outcome).0,
                   maxSessions, attempts[1..])
  }

  /**
   * No series of CreateSession calls changes the active session count, so a
   * fresh manager reports zero sessions however many were started.
   */
  lemma {:induction false} SessionCountStable(m: Manager, maxSessions: int, attempts: seq<Attempt>)
    ensures ActiveSessionCount(ManagerAfter(m, maxSessions, attempts)) == ActiveSessionCount(m)
    ensures m == NewManager() ==> ActiveSessionCount(ManagerAfter(m, maxSessions, attempts)) == 0
    decreases |attempts|
  {
    if |attempts| > 0 {
      var a := attempts[0];
      var m' := CreateSession(m, maxSessions, a.projectPath, a.prompt, a.model, a.systemPrompt, a.outcome).0;
      SessionCountStable(m', maxSessions, attempts[1..]);
    }
  }

  /** CleanupAll: every registered process is stopped and the registry emptied. */
  function CleanupAll(m: Manager): (res: (Manager, map<string, Process>))
    ensures res.0.processes == map[] && ActiveSessionCount(res.0) == 0
    ensures res.0.versionProbed == m.versionProbed && res.0.version == m.version
    ensures res.1.Keys == m.processes.Keys
    ensures forall id :: id in res.1 ==> res.1[id] == Stop(m.processes[id]) && !res.1[id].isRunning
  {
    (m.(processes := map[]), map id | id in m.processes :: Stop(m.processes[id]))
  }

  // ---------------------------------------------------------------------------
  // GetVersion

  /** The `claude --version` probe: its output, or the error it failed with. */
  datatype ProbeOutcome = ProbeOutput(out: string) | ProbeFailed(detail: string)

  /**
   * GetVersion: the probe runs only on the first call and its trimmed output
   * is cached. Only a call whose own probe failed can report an error.
   */
  function GetVersion(m: Manager, probe: ProbeOutcome): (res: (Manager, Result<string, string>))
    ensures res.0.versionProbed && res.0.processes == m.processes
    ensures m.versionProbed ==> res == (m, Success(m.version))
    ensures !m.versionProbed && probe.ProbeOutput? ==>
              res.0.version == TrimSpace(probe.out) && res.1 == Success(res.0.version)
    ensures !m.versionProbed && probe.ProbeFailed? ==> res.0.version == m.version
    ensures res.1.Failure? <==> !m.versionProbed && probe.ProbeFailed? && m.version == ""
  {
    if m.versionProbed then (m, Success(m.version))
    else
      var version := if probe.ProbeOutput? then TrimSpace(probe.out) else m.version;
      var m' := m.(versionProbed := true, version := version);
      if version == "" && probe.ProbeFailed? then
        (m', Failure("failed to get claude version: " + probe.detail))
      else (m', Success(version))
  }

  /** The results of successive GetVersion calls, the i-th call seeing probes[i] if it probes at all. */
  function VersionResults(m: Manager, probes: seq<ProbeOutcome>): (rs: seq<Result<string, string>>)
    ensures |rs| == |probes|
    decreases |probes|
  {
    if |probes| == 0 then []
    else
      var (m', r) := GetVersion(m, probes[0]);
      [r] + VersionResults(m', probes[1..])
  }

  /** How many of those calls actually run the probe. */
  function ProbesRun(m: Manager, probes: seq<ProbeOutcome>): nat
    decreases |probes|
  {
    if |probes| == 0 then 0
    else (if m.versionProbed then 0 else 1) + ProbesRun(GetVersion(m, probes[0]).0, probes[1..])
  }

  /** After the first call, every call returns the cached value and no error, whatever its probe would do. */
  lemma {:induction false} CachedAfterFirst(m: Manager, probes: seq<ProbeOutcome>)
    requires m.versionProbed
    ensures VersionResults(m, probes) == seq(|probes|, i => Success(m.version))
    ensures ProbesRun(m, probes) == 0
    decreases |probes|
  {
    if |probes| > 0 {
      CachedAfterFirst(m, probes[1..]);
    }
  }

  /**
   * From a fresh manager: the probe runs at most once; the first call fails
   * iff its probe failed; every later call returns the cached string without
   * error, which is "" after a failed first probe.
   */
  lemma VersionRunsOnce(probes: seq<ProbeOutcome>)
    requires |probes| > 0
    ensures ProbesRun(NewManager(), probes) == 1
    ensures VersionResults(NewManager(), probes)[0].Failure? <==> probes[0].ProbeFailed?
    ensures forall i :: 1 <= i < |probes| ==>
              VersionResults(NewManager(), probes)[i]
              == Success(if probes[0].ProbeOutput? then TrimSpace(probes[0].out) else "")
  {
    var (m', r) := GetVersion(NewManager(), probes[0]);
    CachedAfterFirst(m', probes[1..]);
  }
}
