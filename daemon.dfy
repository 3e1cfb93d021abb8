/** The decisions main.c makes around the logging core: the executable's
    name taken from argv[0], the start-up sequence of the logging state,
    the choice of destination from the resolved options, and the walk over
    the signal table that installs or resets the handlers. Forking, the
    session and directory changes and the signal handlers themselves are
    process plumbing outside this model. */
module Daemon {
  import opened Text
  import opened LogFilter
  import opened Format
  import opened Logging
  import Config

  // ---------------------------------------------------------------------
  // The executable's name

  /** strrchr(s, '/'): the index of the last '/', if there is one. */
  function LastSlash(s: seq<char>): (r: Option<nat>)
    ensures r.None? <==> '/' !in s
    ensures r.Some? ==> r.value < |s| && s[r.value] == '/'
    decreases |s|
  {
    if s == [] then None
    else if s[|s| - 1] == '/' then Some(|s| - 1)
    else LastSlash(s[..|s| - 1])
  }

  /** No '/' follows the one strrchr finds. */
  lemma {:induction false} LastSlashIsLast(s: seq<char>)
    requires LastSlash(s).Some?
    ensures '/' !in s[LastSlash(s).value + 1..]
    decreases |s|
  {
    if s[|s| - 1] != '/' {
      var t := s[..|s| - 1];
      LastSlashIsLast(t);
      assert s[LastSlash(s).value + 1..] == t[LastSlash(t).value + 1..] + [s[|s| - 1]];
    }
  }

  /** gExecName: what follows the last '/' of argv[0], or all of argv[0]
      when it has none. It is the longest suffix of argv[0] without a '/'. */
  function ExecName(argv0: seq<char>): (r: seq<char>)
    ensures '/' !in r
    ensures |r| <= |argv0| && r == argv0[|argv0| - |r|..]
    ensures '/' !in argv0 <==> r == argv0
    ensures '/' in argv0 ==> argv0[|argv0| - |r| - 1] == '/'
  {
    match LastSlash(argv0)
    case None => argv0
    case Some(k) =>
      LastSlashIsLast(argv0);
      argv0[k + 1..]
  }

  /** The name taken from a C string is a C string. */
  lemma ExecNameNulFree(argv0: seq<char>)
    requires NulFree(argv0)
    ensures NulFree(ExecName(argv0))
  {
    var r := ExecName(argv0);
    var k := |argv0| - |r|;
    forall i | 0 <= i < |r|
      ensures r[i] != NUL
    {
      assert r[i] == argv0[k + i];
    }
  }

  /** The start message of a C-string name is a C string. */
  lemma NamedNulFree(name: seq<char>)
    requires NulFree(name)
    ensures NulFree(name + " started")
  {
    var t := name + " started";
    forall i | 0 <= i < |t|
      ensures t[i] != NUL
    {
      if i < |name| {
        assert t[i] == name[i];
      } else {
        assert t[i] == " started"[i - |name|];
      }
    }
  }

  /** The name of a program run by path is its last component. */
  lemma ExecNameOfPath(dir: seq<char>, name: seq<char>)
    requires '/' !in name
    ensures ExecName(dir + "/" + name) == name
  {
    var p := dir + "/" + name;
    var r := ExecName(p);
    assert p[|dir|] == '/';
    assert p[|dir| + 1..] == name;
  }

  /** Taking the name twice changes nothing. */
  lemma ExecNameIdempotent(argv0: seq<char>)
    ensures ExecName(ExecName(argv0)) == ExecName(argv0)
  {
  }

  // ---------------------------------------------------------------------
  // Choosing the destination

  /** A log file wins; otherwise the foreground flag picks stderr over
      syslog. */
  function ChooseDestination(logFile: Option<seq<char>>, foreground: int): (d: Destination)
    ensures d == File <==> logFile.Some?
    ensures d == Stderr <==> logFile.None? && foreground != 0
    ensures d == Syslog <==> logFile.None? && foreground == 0
  {
    if logFile.Some? then File
    else if foreground != 0 then Stderr
    else Syslog
  }

  /** The int debug level converted to the unsigned int startLogging takes. */
  function ToUnsigned(x: int): (r: nat)
    ensures r < 0x1_0000_0000
    ensures 0 <= x < 0x1_0000_0000 ==> r == x
    ensures x < 0 && x >= -0x1_0000_0000 ==> r == x + 0x1_0000_0000
  {
    x % 0x1_0000_0000
  }

  /** A negative debug level (an int, so at least -2^31) becomes a huge
      unsigned one, which lets every priority through the global test. */
  lemma NegativeLevelLogsEverything(x: int, p: nat)
    requires -0x8000_0000 <= x < 0 && p <= Debug
    ensures ToUnsigned(x) >= p
  {
  }

  // ---------------------------------------------------------------------
  // Start-up

  /** The call-site index of the "started" message in main.c. */
  const SiteStarted: nat := 0

  /** The body of main up to daemonize: take the executable's name, bring
      logging up on stderr at Debug, then move it to the destination and
      level the options ask for and announce the start. `options` is what
      parseConfiguration returned and `configLines` the lines it logged
      meanwhile through the stderr writer, `dlopenOk` whether the symbol
      handle could be opened and `fopen` what opening the log file does.
      When initialisation fails, main exits with the state initLogging
      left. */
  method Startup(log: LogState, argv0: seq<char>, dlopenOk: bool, options: Config.Options,
                 configLines: seq<Line>, fopen: OpenOutcome, mainScope: nat)
    returns (execName: seq<char>, processName: seq<char>, outcome: InitOutcome)
    requires log.Sound() && NulFree(argv0) && mainScope < log.scopes.Length
    requires options.logFile.Some? ==> NulFree(options.logFile.value)
    requires fopen.OpenFailed? ==> NulFree(fopen.reason)
    modifies log`name, log`destination, log`level, log`logFile, log`writer, log`hasSymbols
    modifies log`traceEnabled, log`output, log`events, log.scopes
    ensures execName == ExecName(argv0) && processName == execName
    ensures log.name == execName && log.hasSymbols == dlopenOk && log.Sound()
    ensures outcome == Initialized <==> forall s :: 0 <= s < log.scopes.Length ==> old(log.scopes[s]).site.Some?
    ensures RunStop(old(log.scopes[..]), log.selfScope, log.releaseBuild, 0) ==
      if outcome == Initialized then None else Some(outcome)
    ensures outcome != Initialized ==>
      && log.destination == Undefined && log.level == Debug && log.logFile == StderrStream
      && log.writer == ToStderr && log.traceEnabled == old(log.traceEnabled) && log.events == old(log.events)
      && log.output == old(log.output) + RunLines(old(log.scopes[..]), log.selfScope, log.releaseBuild, 0)
    ensures outcome == Initialized ==>
      var dest := ChooseDestination(options.logFile, options.foreground);
      && log.Valid()
      && (forall s :: 0 <= s < log.scopes.Length ==> log.scopes[s] == old(log.scopes[s]).(level := Debug))
      && log.traceEnabled == (if dlopenOk then 1 else old(log.traceEnabled))
      && log.level == ToUnsigned(options.debugLevel)
      && log.destination == RecordedDestination(dest, options.logFile, fopen)
      && log.writer == InstalledWriter(dest, options.logFile, fopen)
      && log.logFile == StreamAfterStart(dest, options.logFile, fopen, StderrStream)
      && log.events == old(log.events) + OpenEvents(dest, options.logFile, fopen, execName)
      && log.output == old(log.output) + RunLines(old(log.scopes[..]), log.selfScope, log.releaseBuild, 0)
           + configLines
           + OpenFailureLines(log.level, log.scopes[log.selfScope], log.releaseBuild, dest, options.logFile, fopen)
           + Started(log.level, log.scopes[mainScope], log.writer, log.logFile, execName + " started")
  {
    execName := ExecName(argv0);
    processName := execName;
    ExecNameNulFree(argv0);
    outcome := log.InitLogging(execName, dlopenOk);
    if outcome != Initialized {
      return;
    }
    Launch(log, options, configLines, fopen, mainScope);
  }

  /** The rest of main's start-up once logging is initialised: configure
      the destination and level, then announce the start under the
      process name. */
  method Launch(log: LogState, options: Config.Options, configLines: seq<Line>, fopen: OpenOutcome, mainScope: nat)
    requires log.Valid() && log.destination == Undefined && mainScope < log.scopes.Length
    requires options.logFile.Some? ==> NulFree(options.logFile.value)
    requires fopen.OpenFailed? ==> NulFree(fopen.reason)
    modifies log`level, log`destination, log`logFile, log`writer, log`events, log`output
    ensures var dest := ChooseDestination(options.logFile, options.foreground);
      && log.Valid()
      && log.level == ToUnsigned(options.debugLevel)
      && log.destination == RecordedDestination(dest, options.logFile, fopen)
      && log.writer == InstalledWriter(dest, options.logFile, fopen)
      && log.logFile == StreamAfterStart(dest, options.logFile, fopen, old(log.logFile))
      && log.events == old(log.events) + OpenEvents(dest, options.logFile, fopen, log.name)
      && log.output == old(log.output) + configLines
           + OpenFailureLines(log.level, log.scopes[log.selfScope], log.releaseBuild, dest, options.logFile, fopen)
           + Started(log.level, log.scopes[mainScope], log.writer, log.logFile, log.name + " started")
  {
    Configure(log, options, configLines, fopen);
    NamedNulFree(log.name);
    Announce(log, log.name + " started", mainScope);
  }

  /** The two startLogging calls of main: stderr at Debug before the
      options are known, then the destination and level they ask for.
      The first brings nothing up but the stderr writer; the second
      leaves stderr alone when it is asked for again. Between them,
      parseConfiguration writes `configLines` through the stderr writer. */
  method Configure(log: LogState, options: Config.Options, configLines: seq<Line>, fopen: OpenOutcome)
    requires log.Valid() && log.destination == Undefined
    requires options.logFile.Some? ==> NulFree(options.logFile.value)
    requires fopen.OpenFailed? ==> NulFree(fopen.reason)
    modifies log`level, log`destination, log`logFile, log`writer, log`events, log`output
    ensures var dest := ChooseDestination(options.logFile, options.foreground);
      && log.Valid()
      && log.level == ToUnsigned(options.debugLevel)
      && log.destination == RecordedDestination(dest, options.logFile, fopen)
      && log.writer == InstalledWriter(dest, options.logFile, fopen)
      && log.logFile == StreamAfterStart(dest, options.logFile, fopen, old(log.logFile))
      && log.events == old(log.events) + OpenEvents(dest, options.logFile, fopen, log.name)
      && log.output == old(log.output) + configLines
           + OpenFailureLines(log.level, log.scopes[log.selfScope], log.releaseBuild, dest, options.logFile, fopen)
  {
    log.StartLogging(Debug, Stderr, None, OpenOk);
    log.output := log.output + configLines;
    var dest := ChooseDestination(options.logFile, options.foreground);
    log.StartLogging(ToUnsigned(options.debugLevel), dest, options.logFile, fopen);
  }

  /** What logInfo at main's call site writes through writer `w`: the
      text at Info when the filter lets the site through, nothing
      otherwise. */
  function Started(level: nat, e: ScopeEntry, w: Writer, f: Stream, text: seq<char>): (r: seq<Line>)
    requires WellSized(e) && CheckSafe(level, e, Info, SiteStarted) && w != Unset
    ensures |r| <= 1
    ensures r != [] ==> r[0].priority == Info && r[0].text == RenderPlain(text)
    ensures r != [] <==> w != ToVoid && Check(level, e, Info, SiteStarted)
  {
    if Check(level, e, Info, SiteStarted)
    then Written(w, f, Info, RenderPlain(text))
    else []
  }

  /** logInfo at main's call site. */
  method Announce(log: LogState, text: seq<char>, mainScope: nat)
    requires log.Valid() && NulFree(text) && mainScope < log.scopes.Length
    modifies log`output
    ensures log.output == old(log.output) + Started(log.level, log.scopes[mainScope], log.writer, log.logFile, text)
  {
    log.LogMacro(Info, mainScope, SiteStarted, "main.c", 95, text);
  }

  // ---------------------------------------------------------------------
  // Trapping signals

  const SIGINT: int := 2
  const SIGTERM: int := 15
  const SIGCHLD: int := 17

  /** sa_flags bit: no SIGCHLD when a child merely stops. */
  const SA_NOCLDSTOP: int := 1

  /** The handler of a sigaction record; SIG_DFL is the zero value. */
  datatype Handler = DefaultHandler | RestartChildren | TerminateChildren

  datatype SigAction = SigAction(handler: Handler, flags: int)

  /** One entry of the signal table; a zero signal ends the table. */
  datatype SigPair = SigPair(signal: int, action: SigAction)

  /** The table: children restarted on SIGCHLD (not for a mere stop),
      terminated on SIGINT and SIGTERM. */
  const SigPairs: seq<SigPair> := [
    SigPair(SIGCHLD, SigAction(RestartChildren, SA_NOCLDSTOP)),
    SigPair(SIGINT, SigAction(TerminateChildren, 0)),
    SigPair(SIGTERM, SigAction(TerminateChildren, 0)),
    SigPair(0, SigAction(DefaultHandler, 0))
  ]

  /** The action that puts a signal back to its default behaviour. */
  const Dfl: SigAction := SigAction(DefaultHandler, 0)

  /** A sigaction call: the signal and the action handed over. */
  datatype Call = Call(signal: int, action: SigAction)

  /** The table holds its end marker. */
  predicate Terminated(table: seq<SigPair>) {
    table != [] && (table[0].signal == 0 || Terminated(table[1..]))
  }

  /** How a walk over the table ends: whether every call succeeded, and
      the calls made, in order. */
  datatype Walk = Walk(ok: bool, calls: seq<Call>)

  /** The walk trapSignals makes, defined entry by entry: stop at the end
      marker with success, or at the first entry whose signal sigaction
      refuses, with failure. */
  function TableWalk(table: seq<SigPair>, on: bool, refused: set<int>): (w: Walk)
    requires Terminated(table)
    decreases |table|
  {
    if table[0].signal == 0 then Walk(true, [])
    else
      var call := Call(table[0].signal, if on then table[0].action else Dfl);
      if table[0].signal in refused then Walk(false, [call])
      else
        var w := TableWalk(table[1..], on, refused);
        Walk(w.ok, [call] + w.calls)
  }

  /** The index of the end marker: the first zero signal. */
  function Sentinel(table: seq<SigPair>): (n: nat)
    requires Terminated(table)
    ensures n < |table| && table[n].signal == 0
    ensures forall k :: 0 <= k < n ==> table[k].signal != 0
    decreases |table|
  {
    if table[0].signal == 0 then 0 else 1 + Sentinel(table[1..])
  }

  /** The walk visits entries in order and calls sigaction once per entry
      it visits, never past the end marker; it succeeds exactly when
      sigaction accepts every signal before the marker, and then it has
      visited all of them; on failure the last call is the refused one
      and every earlier one was accepted. */
  lemma {:induction false} TableWalkSpec(table: seq<SigPair>, on: bool, refused: set<int>)
    requires Terminated(table)
    ensures var w := TableWalk(table, on, refused);
      && |w.calls| <= Sentinel(table)
      && (forall k :: 0 <= k < |w.calls| ==>
            w.calls[k] == Call(table[k].signal, if on then table[k].action else Dfl))
      && (w.ok <==> forall k :: 0 <= k < Sentinel(table) ==> table[k].signal !in refused)
      && (w.ok ==> |w.calls| == Sentinel(table))
      && (!w.ok ==> w.calls != [] && w.calls[|w.calls| - 1].signal in refused)
      && (forall k :: 0 <= k < |w.calls| - 1 ==> w.calls[k].signal !in refused)
    decreases |table|
  {
    if table[0].signal != 0 && table[0].signal !in refused {
      TableWalkSpec(table[1..], on, refused);
      var w := TableWalk(table[1..], on, refused);
      forall k | 0 <= k < Sentinel(table) - 1
        ensures table[k + 1].signal == table[1..][k].signal
      {
      }
    }
  }

  /** With every signal accepted, trapping installs the three handlers in
      table order; a refused SIGINT stops the walk before SIGTERM. */
  lemma SigPairsWalk()
    ensures Terminated(SigPairs)
    ensures TableWalk(SigPairs, true, {}) == Walk(true, [
      Call(SIGCHLD, SigAction(RestartChildren, SA_NOCLDSTOP)),
      Call(SIGINT, SigAction(TerminateChildren, 0)),
      Call(SIGTERM, SigAction(TerminateChildren, 0))])
    ensures TableWalk(SigPairs, true, {SIGINT}) == Walk(false, [
      Call(SIGCHLD, SigAction(RestartChildren, SA_NOCLDSTOP)),
      Call(SIGINT, SigAction(TerminateChildren, 0))])
    ensures TableWalk(SigPairs, false, {}).calls == [Call(SIGCHLD, Dfl), Call(SIGINT, Dfl), Call(SIGTERM, Dfl)]
  {
    var t1, t2, t3 := SigPairs[1..], SigPairs[2..], SigPairs[3..];
    assert t1[1..] == t2 && t2[1..] == t3;
    assert Terminated(t3) && Terminated(t2) && Terminated(t1);
    assert TableWalk(t3, true, {}) == Walk(true, []);
    assert TableWalk(t2, true, {}) == Walk(true, [Call(SIGTERM, SigAction(TerminateChildren, 0))]);
    assert TableWalk(t3, false, {}) == Walk(true, []);
    assert TableWalk(t2, false, {}) == Walk(true, [Call(SIGTERM, Dfl)]);
  }

  /** trapSignals: walk the table until its end marker, handing each
      signal its own action when `on` and the default one otherwise, and
      give up at the first call sigaction refuses. `refused` is the set of
      signals for which sigaction fails. */
  method TrapSignals(table: seq<SigPair>, on: bool, refused: set<int>) returns (ok: bool, calls: seq<Call>)
    requires Terminated(table)
    ensures Walk(ok, calls) == TableWalk(table, on, refused)
  {
    calls := [];
    var i := 0;
    assert table[i..] == table;
    while table[i].signal != 0
      invariant i < |table| && Terminated(table[i..])
      invariant TableWalk(table, on, refused) == After(calls, TableWalk(table[i..], on, refused))
      decreases Sentinel(table[i..])
    {
      var call := Call(table[i].signal, if on then table[i].action else Dfl);
      WalkStep(table, i, on, refused, calls);
      calls := calls + [call];
      if table[i].signal in refused {
        return false, calls;
      }
      i := i + 1;
    }
    ok := true;
  }

  /** A walk that continues after the calls already made. */
  function After(done: seq<Call>, w: Walk): (r: Walk)
    ensures r.ok == w.ok && |r.calls| == |done| + |w.calls|
  {
    Walk(w.ok, done + w.calls)
  }

  /** One step of the walk from an entry that is not the end marker: its
      call is made, then the walk stops on a refusal and goes on from the
      next entry otherwise. */
  lemma WalkStep(table: seq<SigPair>, i: nat, on: bool, refused: set<int>, done: seq<Call>)
    requires i < |table| && Terminated(table[i..]) && table[i].signal != 0
    ensures i + 1 < |table| && Terminated(table[i + 1..])
    ensures Sentinel(table[i..]) == 1 + Sentinel(table[i + 1..])
    ensures var call := Call(table[i].signal, if on then table[i].action else Dfl);
      After(done, TableWalk(table[i..], on, refused)) ==
        if table[i].signal in refused then Walk(false, done + [call])
        else After(done + [call], TableWalk(table[i + 1..], on, refused))
  {
    assert table[i..][1..] == table[i + 1..];
    var call := Call(table[i].signal, if on then table[i].action else Dfl);
    if table[i].signal !in refused {
      var w := TableWalk(table[i + 1..], on, refused);
      assert done + ([call] + w.calls) == (done + [call]) + w.calls;
    }
  }
}
