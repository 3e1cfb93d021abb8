/** The process-wide logging state of logging.c: the destination, the global
    level, the installed writer, the log file, the scope table and the call
    tracer. Calls into the C library that open or close a destination are
    recorded as events; lines handed to a writer are recorded as output. */
module Logging {
  import opened Text
  import opened LogFilter
  import opened Format

  /** The writer function installed in gLogString; Unset before
      initialisation, when the pointer is still NULL. */
  datatype Writer = Unset | ToVoid | ToSyslog | ToFile | ToStderr

  /** What gLogFile points at. */
  datatype Stream = StderrStream | FileStream(path: seq<char>) | NullStream

  /** Where a written line ends up. */
  datatype Sink = SyslogSink | FileSink(stream: Stream) | StderrSink

  datatype Line = Line(sink: Sink, priority: nat, text: seq<char>)

  /** The library calls that open or close a destination. */
  datatype IoEvent =
    | SetLogMaskUpToDebug
    | OpenLog(ident: seq<char>)
    | CloseLog
    | FOpen(path: seq<char>, ok: bool)
    | FClose(stream: Stream)

  /** What fopen of the log file does, when it is called. */
  datatype OpenOutcome = OpenOk | OpenFailed(errno: nat, reason: seq<char>)

  /** How initialisation ends: normally, by exit(ENOMEM), or by a crash
      when the filter of its own diagnostic reads a site array that was
      never allocated. */
  datatype InitOutcome = Initialized | ExitNoMemory | NullSiteRead

  const ENOMEM: nat := 12

  /** The file name the location suffix of this file's messages carries. */
  const SourceFile: seq<char> := "logging.c"

  /** Site indices of this file's own logging statements, in source order:
      the allocation failure, the per-scope report (a Debug statement, which
      takes no index in a release build) and the file-open failure. */
  const SiteAllocFailed: nat := 0
  const SiteScopeReport: nat := 1
  function SiteOpenFailed(releaseBuild: bool): nat {
    if releaseBuild then 1 else 2
  }

  function AllocFailedText(): (r: seq<char>)
    ensures NulFree(r)
  {
    var a, b, c, d := "### Failed to ", "allocate memory ", "for logging - ", "exiting\n";
    assert NUL !in a && NUL !in b && NUL !in c && NUL !in d;
    a + b + c + d
  }

  function ScopeReportText(name: seq<char>, max: nat): (r: seq<char>)
    ensures NulFree(name) ==> NulFree(r)
  {
    var d := Decimal(max);
    assert forall i :: 0 <= i < |d| ==> d[i] != NUL;
    name + " scope has " + d + " log statements"
  }

  function OpenFailedText(path: seq<char>, reason: seq<char>, errno: nat): (r: seq<char>)
    ensures NulFree(path) && NulFree(reason) ==> NulFree(r)
  {
    var d := Decimal(errno);
    assert forall i :: 0 <= i < |d| ==> d[i] != NUL;
    "Unable to log to \"" + path + "\" (" + reason + " [" + d + "]), redirecting to stderr"
  }

  /** The lines a writer produces for one message: the void writer drops
      it, the others deliver it to their sink as it is. For syslog this is
      the corrected writer, which hands the message over as an argument of
      a "%s" format (see SyslogFormat for the code as written). */
  function Written(w: Writer, f: Stream, p: nat, msg: seq<char>): (r: seq<Line>)
    requires w != Unset
    ensures w == ToVoid <==> r == []
    ensures w == ToSyslog ==> r == [Line(SyslogSink, p, msg)]
    ensures w == ToFile ==> r == [Line(FileSink(f), p, msg)]
    ensures w == ToStderr ==> r == [Line(StderrSink, p, msg)]
  {
    match w
    case ToVoid => []
    case ToSyslog => [Line(SyslogSink, p, msg)]
    case ToFile => [Line(FileSink(f), p, msg)]
    case ToStderr => [Line(StderrSink, p, msg)]
  }

  /** AS WRITTEN: _logToSyslog hands the rendered message to syslog as its
      format string, with no further argument. What syslog records is then
      the message with "%%" read as '%' and "%m" as the text of the current
      errno (`errText`); any other conversion reads an argument that was
      never passed, which C leaves undefined (None). */
  function SyslogFormat(fmt: seq<char>, errText: seq<char>): (r: Option<seq<char>>)
    ensures '%' !in fmt ==> r == Some(fmt)
    decreases |fmt|
  {
    if fmt == [] then Some([])
    else if fmt[0] != '%' then
      var rest := SyslogFormat(fmt[1..], errText);
      assert fmt == [fmt[0]] + fmt[1..];
      if rest.Some? then Some([fmt[0]] + rest.value) else None
    else if |fmt| >= 2 && fmt[1] == '%' then
      var rest := SyslogFormat(fmt[2..], errText);
      if rest.Some? then Some(['%'] + rest.value) else None
    else if |fmt| >= 2 && fmt[1] == 'm' then
      var rest := SyslogFormat(fmt[2..], errText);
      if rest.Some? then Some(errText + rest.value) else None
    else None
  }

  /** AS WRITTEN: a message holding "%%" is recorded with a single '%',
      one holding "%m" gets the error text in its place, and one holding
      "%s" makes syslog read an argument that is not there. */
  lemma SyslogRewritesPercent(errText: seq<char>)
    ensures SyslogFormat("%%", errText) == Some("%") != Some("%%")
    ensures SyslogFormat("%m", errText) == Some(errText)
    ensures SyslogFormat("%s", errText) == None
  {
    assert "%%"[2..] == [] && "%m"[2..] == [];
    assert ['%'] + [] == "%";
    assert errText + [] == errText;
    assert |"%"| != |"%%"|;
  }

  /** The calls stopLogging makes for a destination. */
  function StopEvents(d: Destination, f: Stream): (r: seq<IoEvent>)
    ensures r != [] <==> d == Syslog || d == File
    ensures d == File ==> r == [FClose(f)]
  {
    match d
    case Syslog => [CloseLog]
    case File => [FClose(f)]
    case _ => []
  }

  /** gLogFile after stopLogging. */
  function StreamAfterStop(d: Destination, f: Stream): (r: Stream)
    ensures d != File ==> r == f
    ensures d == File ==> r == StderrStream
  {
    if d == File then StderrStream else f
  }

  /** stopLogging twice is stopLogging once: the second call finds the
      destination undefined, makes no call and keeps the stream. */
  lemma StopIdempotent(d: Destination, f: Stream)
    ensures StopEvents(Undefined, StreamAfterStop(d, f)) == []
    ensures StreamAfterStop(Undefined, StreamAfterStop(d, f)) == StreamAfterStop(d, f)
  {
  }

  /** AS WRITTEN: the destination startLogging records on a change: the
      requested one, except that a log file that cannot be opened falls
      back to stderr. A log file requested without a path is recorded as
      File although nothing was opened. */
  function RecordedDestinationAsWritten(dest: Destination, path: Option<seq<char>>, fopen: OpenOutcome): (r: Destination)
    ensures r != dest ==> dest == File && path.Some? && fopen.OpenFailed? && r == Stderr
  {
    if dest == File && path.Some? && fopen.OpenFailed? then Stderr else dest
  }

  /** The destination startLogging records on a change: the requested one,
      except that a log file that was not opened, for want of a path or
      because fopen failed, is recorded as stderr, where its messages go. */
  function RecordedDestination(dest: Destination, path: Option<seq<char>>, fopen: OpenOutcome): (r: Destination)
    ensures r != dest ==> dest == File && r == Stderr
    ensures r == File <==> dest == File && path.Some? && fopen.OpenOk?
  {
    if dest == File && (path.None? || fopen.OpenFailed?) then Stderr else dest
  }

  /** The writer startLogging installs on a change. */
  function InstalledWriter(dest: Destination, path: Option<seq<char>>, fopen: OpenOutcome): (w: Writer)
    ensures w != Unset
    ensures w == ToFile <==> dest == File && path.Some? && fopen.OpenOk?
    ensures w == ToVoid <==> dest == Undefined
    ensures w == ToSyslog <==> dest == Syslog
  {
    match dest
    case Syslog => ToSyslog
    case File => if path.Some? && fopen.OpenOk? then ToFile else ToStderr
    case Stderr => ToStderr
    case Undefined => ToVoid
  }

  /** gLogFile after startLogging changed destination, given its value
      after the stop. */
  function StreamAfterStart(dest: Destination, path: Option<seq<char>>, fopen: OpenOutcome, stopped: Stream): (r: Stream)
    ensures dest != File || path.None? ==> r == stopped
  {
    if dest == File && path.Some? then
      (if fopen.OpenOk? then FileStream(path.value) else NullStream)
    else stopped
  }

  /** The calls startLogging makes to bring a destination up. */
  function OpenEvents(dest: Destination, path: Option<seq<char>>, fopen: OpenOutcome, ident: seq<char>): (r: seq<IoEvent>)
    ensures dest == Syslog ==> r == [SetLogMaskUpToDebug, OpenLog(ident)]
    ensures r != [] <==> dest == Syslog || (dest == File && path.Some?)
  {
    match dest
    case Syslog => [SetLogMaskUpToDebug, OpenLog(ident)]
    case File => if path.Some? then [FOpen(path.value, fopen.OpenOk?)] else []
    case _ => []
  }

  /** A destination and the writer and stream serving it agree. */
  predicate Serves(d: Destination, w: Writer, f: Stream) {
    match d
    case Undefined => w == ToVoid || w == ToStderr
    case Syslog => w == ToSyslog
    case File => w == ToFile && f.FileStream?
    case Stderr => w == ToStderr
  }

  /** After a change of destination the recorded destination is served by
      the installed writer. */
  lemma StartServes(dest: Destination, path: Option<seq<char>>, fopen: OpenOutcome, stopped: Stream)
    ensures Serves(RecordedDestination(dest, path, fopen), InstalledWriter(dest, path, fopen),
                   StreamAfterStart(dest, path, fopen, stopped))
  {
  }

  /** The next stopLogging after a change of destination never closes
      stderr: it closes the stream it finds only when a file was opened. */
  lemma StopAfterStartSparesStderr(dest: Destination, path: Option<seq<char>>, fopen: OpenOutcome, stopped: Stream)
    ensures FClose(StderrStream) !in StopEvents(RecordedDestination(dest, path, fopen),
                                                StreamAfterStart(dest, path, fopen, stopped))
  {
  }

  /** AS WRITTEN: a log file requested without a path records the File
      destination while gLogFile still is stderr, so the next stopLogging
      closes stderr. */
  lemma NullPathThenStopClosesStderr(fopen: OpenOutcome)
    ensures RecordedDestinationAsWritten(File, None, fopen) == File
    ensures var f := StreamAfterStart(File, None, fopen, StreamAfterStop(Undefined, StderrStream));
            StopEvents(RecordedDestinationAsWritten(File, None, fopen), f) == [FClose(StderrStream)]
  {
  }

  /** addrToString: the symbol dladdr finds for the address when the
      process's own symbols could be opened, and otherwise the address in
      "0x%08lx" form. */
  function AddrToString(hasSymbols: bool, symbols: map<nat, seq<char>>, addr: nat): (r: seq<char>)
    ensures hasSymbols && addr in symbols ==> r == symbols[addr]
    ensures !(hasSymbols && addr in symbols) ==> r == HexAddress(addr) && |r| >= 10 && r[..2] == "0x"
  {
    if hasSymbols && addr in symbols then symbols[addr] else HexAddress(addr)
  }

  /** The bytes "0x%08lx" needs for an address, terminator included. */
  function HexScratchNeed(addr: nat): nat {
    |HexAddress(addr)| + 1
  }

  /** AS WRITTEN: the 16-byte scratch buffers of the trace helper are
      overrun by an address of 2^52 or more. */
  lemma ScratchOverrun(addr: nat)
    requires Pow16(13) <= addr < Pow16(14)
    ensures HexScratchNeed(addr) == 17 && HexScratchNeed(addr) > 16
  {
    HexDigitsLength(addr, 14);
  }

  /** `n` below 16^k needs at most k hexadecimal digits. */
  lemma {:induction false} HexDigitsAtMost(n: nat, k: nat)
    requires 1 <= k && n < Pow16(k)
    ensures |HexDigits(n)| <= k
  {
    if n >= 16 {
      assert k > 1;
      HexDigitsAtMost(n / 16, k - 1);
    }
  }

  /** CORRECTED: scratch space for any 64-bit address. */
  const ScratchSize: nat := 19

  lemma ScratchSizeSuffices(addr: nat)
    requires addr < Pow16(16)
    ensures HexScratchNeed(addr) <= ScratchSize
  {
    HexDigitsAtMost(addr, 16);
  }

  /** Call depth after an entry hook. */
  function EnterDepth(d: int): (r: int)
    ensures r == d + 1
  {
    d + 1
  }

  /** Call depth after an exit hook: one less, but never below 1. */
  function ExitDepth(d: int): (r: int)
    ensures r >= 1
    ensures d > 1 ==> r == d - 1
    ensures d <= 1 ==> r == 1
  {
    var e := d - 1;
    if e < 1 then 1 else e
  }

  function Enters(n: nat, d: int): int {
    if n == 0 then d else Enters(n - 1, EnterDepth(d))
  }

  function Exits(n: nat, d: int): int {
    if n == 0 then d else Exits(n - 1, ExitDepth(d))
  }

  lemma {:induction false} EntersAdd(n: nat, d: int)
    ensures Enters(n, d) == d + n
  {
    if n > 0 {
      EntersAdd(n - 1, d + 1);
    }
  }

  /** Exits never take the depth below 1, matched or not. */
  lemma {:induction false} ExitsAtLeastOne(n: nat, d: int)
    requires d >= 1
    ensures Exits(n, d) >= 1
  {
    if n > 0 {
      ExitsAtLeastOne(n - 1, ExitDepth(d));
    }
  }

  /** N entries followed by N exits restore a depth of at least 1. */
  lemma {:induction false} ExitsUndoEnters(n: nat, d: int)
    requires d >= 1
    ensures Enters(n, d) == d + n
    ensures Exits(n, Enters(n, d)) == d
  {
    EntersAdd(n, d);
    if n > 0 {
      ExitsUndoEnters(n - 1, d);
      assert Exits(n, d + n) == Exits(n - 1, d + n - 1);
    }
  }

  /** The line an open failure of the log file writes: to stderr at
      Error, when the filter of its call site passes; nothing when the
      destination is not a file with a path or the file opened. */
  function OpenFailureLines(level: nat, own: ScopeEntry, releaseBuild: bool,
                            dest: Destination, path: Option<seq<char>>, fopen: OpenOutcome): (r: seq<Line>)
    requires WellSized(own) && CheckSafe(level, own, Error, SiteOpenFailed(releaseBuild))
    ensures |r| <= 1
    ensures r != [] <==> dest == File && path.Some? && fopen.OpenFailed?
                          && Check(level, own, Error, SiteOpenFailed(releaseBuild))
    ensures r != [] ==> r[0].sink == StderrSink && r[0].priority == Error
  {
    if dest == File && path.Some? && fopen.OpenFailed? && Check(level, own, Error, SiteOpenFailed(releaseBuild))
    then [Line(StderrSink, Error,
               RenderWithLocation(OpenFailedText(path.value, fopen.reason, fopen.errno),
                                  LocationSuffix(SourceFile, 152)))]
    else []
  }

  // ---------------------------------------------------------------------
  // The loop of initLogging, as a function of the table it starts from

  /** The scope table after the first `i` passes of the init loop: those
      entries are back at Debug, the others as they were. */
  function ResetUpTo(table: seq<ScopeEntry>, i: nat): (r: seq<ScopeEntry>)
    requires i <= |table|
    ensures |r| == |table|
    ensures forall j :: 0 <= j < |table| ==> r[j] == if j < i then table[j].(level := Debug) else table[j]
  {
    if i == 0 then table else ResetUpTo(table, i - 1)[i - 1 := table[i - 1].(level := Debug)]
  }

  /** The entry of this file's own scope while pass `i` runs: the pass
      resets its scope's level before it logs, so the own scope reads as
      reset once the loop has reached it. */
  function OwnDuringPass(table: seq<ScopeEntry>, self: nat, i: nat): (e: ScopeEntry)
    requires self < |table|
    ensures e.site == table[self].site && e.max == table[self].max
  {
    if self <= i then table[self].(level := Debug) else table[self]
  }

  /** Whether one pass for scope entry `e` ends initialisation, with `own`
      the entry of this file's scope and the global level at Debug: a
      missing site array exits, after the Critical message; in a
      non-release build the report of an allocated one goes on. A filter
      that would read an unallocated site array of the own scope crashes. */
  function PassStop(e: ScopeEntry, own: ScopeEntry, releaseBuild: bool): (stop: Option<InitOutcome>)
    ensures stop != Some(Initialized)
    ensures e.site.None? ==> stop.Some?
    ensures e.site.Some? && own.site.Some? ==> stop.None?
    ensures releaseBuild && e.site.Some? ==> stop.None?
  {
    if e.site.None? then
      if !CheckSafe(Debug, own, Critical, SiteAllocFailed) then Some(NullSiteRead) else Some(ExitNoMemory)
    else if releaseBuild then None
    else if !CheckSafe(Debug, own, Debug, SiteScopeReport) then Some(NullSiteRead)
    else None
  }

  /** The lines one pass writes: the Critical allocation failure or, in a
      non-release build, the Debug report of the scope's number of sites,
      to stderr when the filter of its call site passes. */
  function PassLines(e: ScopeEntry, own: ScopeEntry, releaseBuild: bool): (r: seq<Line>)
    requires WellSized(own)
    ensures |r| <= 1
    ensures r != [] ==> r[0].sink == StderrSink && PassStop(e, own, releaseBuild) != Some(NullSiteRead)
    ensures r != [] && e.site.None? ==> r[0].priority == Critical
    ensures r != [] && e.site.Some? ==> r[0].priority == Debug && !releaseBuild
  {
    if e.site.None? then
      if CheckSafe(Debug, own, Critical, SiteAllocFailed) && Check(Debug, own, Critical, SiteAllocFailed)
      then [Line(StderrSink, Critical, RenderWithLocation(AllocFailedText(), LocationSuffix(SourceFile, 108)))]
      else []
    else if !releaseBuild && CheckSafe(Debug, own, Debug, SiteScopeReport) && Check(Debug, own, Debug, SiteScopeReport)
    then [Line(StderrSink, Debug, RenderWithLocation(ScopeReportText(e.name, e.max), LocationSuffix(SourceFile, 112)))]
    else []
  }

  predicate TableSized(table: seq<ScopeEntry>) {
    forall j :: 0 <= j < |table| ==> WellSized(table[j])
  }

  /** How the loop ends from pass `i` on: at the first pass that stops, or
      with None after the last entry. */
  function RunStop(table: seq<ScopeEntry>, self: nat, releaseBuild: bool, i: nat): (stop: Option<InitOutcome>)
    requires self < |table| && i <= |table|
    ensures stop != Some(Initialized)
    decreases |table| - i
  {
    if i == |table| then None
    else
      var stop := PassStop(table[i], OwnDuringPass(table, self, i), releaseBuild);
      if stop.Some? then stop else RunStop(table, self, releaseBuild, i + 1)
  }

  /** The lines the loop writes from pass `i` on, in order, up to and
      including the pass that stops. */
  function RunLines(table: seq<ScopeEntry>, self: nat, releaseBuild: bool, i: nat): (r: seq<Line>)
    requires self < |table| && i <= |table| && TableSized(table)
    ensures |r| <= |table| - i
    decreases |table| - i, 1
  {
    if i == |table| then [] else PassThenRun(table, self, releaseBuild, i)
  }

  /** Pass `i`'s lines, then those of the passes after it unless pass `i`
      stopped. */
  function PassThenRun(table: seq<ScopeEntry>, self: nat, releaseBuild: bool, i: nat): (r: seq<Line>)
    requires self < |table| && i < |table| && TableSized(table)
    ensures |r| <= |table| - i
    decreases |table| - i, 0
  {
    var own := OwnDuringPass(table, self, i);
    PassLines(table[i], own, releaseBuild) +
      if PassStop(table[i], own, releaseBuild).Some? then [] else RunLines(table, self, releaseBuild, i + 1)
  }

  /** One pass of the loop: its lines come first, then those of the rest
      of the loop unless it stopped. */
  lemma RunStep(table: seq<ScopeEntry>, self: nat, releaseBuild: bool, i: nat)
    requires self < |table| && i < |table| && TableSized(table)
    ensures var own := OwnDuringPass(table, self, i);
      var stop := PassStop(table[i], own, releaseBuild);
      && RunLines(table, self, releaseBuild, i) ==
           PassLines(table[i], own, releaseBuild) +
             (if stop.Some? then [] else RunLines(table, self, releaseBuild, i + 1))
      && RunStop(table, self, releaseBuild, i) == if stop.Some? then stop else RunStop(table, self, releaseBuild, i + 1)
  {
    assert RunLines(table, self, releaseBuild, i) == PassThenRun(table, self, releaseBuild, i);
  }

  /** Whether every scope of the table has its site array. */
  predicate SitesAllocated(table: seq<ScopeEntry>)
  {
    forall j :: 0 <= j < |table| ==> table[j].site.Some?
  }

  /** Every line the loop writes from pass `i` on goes to stderr. */
  lemma {:induction false} RunLinesToStderr(table: seq<ScopeEntry>, self: nat, releaseBuild: bool, i: nat)
    requires self < |table| && i <= |table| && TableSized(table)
    ensures var r := RunLines(table, self, releaseBuild, i);
      forall k :: 0 <= k < |r| ==> r[k].sink == StderrSink
    decreases |table| - i
  {
    if i < |table| {
      RunStep(table, self, releaseBuild, i);
      if PassStop(table[i], OwnDuringPass(table, self, i), releaseBuild).None? {
        RunLinesToStderr(table, self, releaseBuild, i + 1);
      }
    }
  }

  /** Once the passes before `i` got through, the loop gets through the
      table exactly when every remaining scope has its site array. */
  lemma {:induction false} RunCompletes(table: seq<ScopeEntry>, self: nat, releaseBuild: bool, i: nat)
    requires self < |table| && i <= |table|
    requires forall j :: 0 <= j < i ==> table[j].site.Some?
    ensures RunStop(table, self, releaseBuild, i).None? <==>
      forall j :: i <= j < |table| ==> table[j].site.Some?
    decreases |table| - i
  {
    if i < |table| {
      var stop := PassStop(table[i], OwnDuringPass(table, self, i), releaseBuild);
      if stop.None? {
        RunCompletes(table, self, releaseBuild, i + 1);
      } else if table[i].site.Some? {
        assert table[self].site.None? && i <= self;
      }
    }
  }

  /** A release build writes nothing while initialising a table whose
      site arrays are all allocated. */
  lemma {:induction false} ReleaseInitIsQuiet(table: seq<ScopeEntry>, self: nat, i: nat)
    requires self < |table| && i <= |table| && TableSized(table)
    requires forall j :: 0 <= j < |table| ==> table[j].site.Some?
    ensures RunLines(table, self, true, i) == []
    ensures RunStop(table, self, true, i) == None
    decreases |table| - i
  {
    if i < |table| {
      ReleaseInitIsQuiet(table, self, i + 1);
    }
  }

  class LogState {
    var destination: Destination   // gLogDestination
    var level: nat                 // gLogLevel
    var name: seq<char>            // gLogName
    var logFile: Stream            // gLogFile
    var writer: Writer             // gLogString
    var hasSymbols: bool           // gDLhandle != NULL
    var traceEnabled: int          // gFunctionTraceEnabled
    var callDepth: int             // gCallDepth
    var scopes: array<ScopeEntry>  // gLog
    var output: seq<Line>          // lines handed to the writers
    var events: seq<IoEvent>       // library calls that open or close a destination

    /** The symbol names dladdr finds, by address. */
    const symbols: map<nat, seq<char>>
    /** This file's own scope in the table. */
    const selfScope: nat
    /** Whether the build defines RELEASE_BUILD. */
    const releaseBuild: bool

    /** What holds from the start: the table is sized as the build counted
        it, the names are C strings and the call depth is at least 1. */
    ghost predicate Sound()
      reads this, scopes
    {
      && selfScope < scopes.Length
      && (forall s :: 0 <= s < scopes.Length ==> WellSized(scopes[s]) && NulFree(scopes[s].name))
      && (forall a :: a in symbols ==> NulFree(symbols[a]))
      && callDepth >= 1
    }

    /** What holds once initialisation succeeded. */
    ghost predicate Valid()
      reads this, scopes
    {
      && Sound()
      && (forall s :: 0 <= s < scopes.Length ==> scopes[s].site.Some?)
      && writer != Unset
      && NulFree(name)
    }

    /** The static initial values of the globals; `table` is the scope
        table as the generated initialiser builds it. */
    constructor (table: seq<ScopeEntry>, selfScope: nat, symbols: map<nat, seq<char>>, releaseBuild: bool)
      requires selfScope < |table|
      requires forall s :: 0 <= s < |table| ==> WellSized(table[s]) && NulFree(table[s].name)
      requires forall a :: a in symbols ==> NulFree(symbols[a])
      ensures Sound() && fresh(scopes) && scopes[..] == table
      ensures destination == Undefined && level == 0 && name == [] && logFile == NullStream
      ensures writer == Unset && !hasSymbols && traceEnabled == 0 && callDepth == 1
      ensures output == [] && events == []
      ensures this.selfScope == selfScope && this.symbols == symbols && this.releaseBuild == releaseBuild
    {
      destination := Undefined;
      level := 0;
      name := [];
      logFile := NullStream;
      writer := Unset;
      hasSymbols := false;
      traceEnabled := 0;
      callDepth := 1;
      scopes := new ScopeEntry[|table|](i requires 0 <= i < |table| => table[i]);
      output := [];
      events := [];
      this.symbols := symbols;
      this.selfScope := selfScope;
      this.releaseBuild := releaseBuild;
    }

    /** gLogString(priority, msg). */
    method Write(p: nat, msg: seq<char>)
      requires writer != Unset
      modifies this`output
      ensures output == old(output) + Written(writer, logFile, p, msg)
    {
      output := output + Written(writer, logFile, p, msg);
    }

    /** The `log` macro with `_log`: a message whose site passes the filter
        is cut to the buffer and written; any other is dropped. */
    method Log(p: nat, s: nat, id: nat, text: seq<char>)
      requires Sound() && writer != Unset && s < scopes.Length && CheckSafe(level, scopes[s], p, id)
      requires NulFree(text)
      modifies this`output
      ensures output == old(output) +
        if Check(level, scopes[s], p, id) then Written(writer, logFile, p, RenderPlain(text)) else []
    {
      if Check(level, scopes[s], p, id) {
        var msg := new char[MsgSize];
        FormatPlain(msg, text);
        Write(p, CStr(msg[..]));
      }
    }

    /** The `logWithLocation` macro with `_logWithLocation`. */
    method LogWithLocation(p: nat, s: nat, id: nat, file: seq<char>, line: nat, text: seq<char>)
      requires Sound() && writer != Unset && s < scopes.Length && CheckSafe(level, scopes[s], p, id)
      requires NulFree(text) && NulFree(file)
      modifies this`output
      ensures output == old(output) +
        if Check(level, scopes[s], p, id)
        then Written(writer, logFile, p, RenderWithLocation(text, LocationSuffix(file, line)))
        else []
    {
      if Check(level, scopes[s], p, id) {
        var msg := new char[MsgSize];
        FormatWithLocation(msg, file, line, text);
        Write(p, CStr(msg[..]));
      }
    }

    /** The priority macros logEmergency ... logDebug at a call site. */
    method LogMacro(p: nat, s: nat, id: nat, file: seq<char>, line: nat, text: seq<char>)
      requires p <= Debug
      requires Sound() && writer != Unset && s < scopes.Length && CheckSafe(level, scopes[s], p, id)
      requires NulFree(text) && NulFree(file)
      modifies this`output
      ensures MacroVariant(p, releaseBuild) == NoOp ==> output == old(output)
      ensures MacroVariant(p, releaseBuild) == Plain ==>
        output == old(output) +
          (if Check(level, scopes[s], p, id) then Written(writer, logFile, p, RenderPlain(text)) else [])
      ensures MacroVariant(p, releaseBuild) == WithLocation ==>
        output == old(output) +
          (if Check(level, scopes[s], p, id)
           then Written(writer, logFile, p, RenderWithLocation(text, LocationSuffix(file, line)))
           else [])
    {
      match MacroVariant(p, releaseBuild)
      case WithLocation => LogWithLocation(p, s, id, file, line, text);
      case Plain => Log(p, s, id, text);
      case NoOp =>
    }

    /** logFunctionTraceOn. */
    method TraceOn()
      modifies this`traceEnabled
      ensures traceEnabled == 1
    {
      traceEnabled := 1;
    }

    /** logFunctionTraceOff. */
    method TraceOff()
      modifies this`traceEnabled
      ensures traceEnabled == 0
    {
      traceEnabled := 0;
    }

    /** One pass of the loop of initLogging: reset the scope's level, stop
        when its site array is missing, and report its number of sites. */
    method InitScope(i: nat) returns (stop: Option<InitOutcome>)
      requires Sound() && i < scopes.Length && writer == ToStderr && level == Debug
      modifies this`output, scopes
      ensures Sound()
      ensures scopes[i] == old(scopes[i]).(level := Debug)
      ensures forall j :: 0 <= j < scopes.Length && j != i ==> scopes[j] == old(scopes[j])
      ensures stop == PassStop(old(scopes[i]), scopes[selfScope], releaseBuild)
      ensures output == old(output) + PassLines(old(scopes[i]), scopes[selfScope], releaseBuild)
    {
      scopes[i] := scopes[i].(level := Debug);
      if scopes[i].site.None? {
        if !CheckSafe(level, scopes[selfScope], Critical, SiteAllocFailed) {
          return Some(NullSiteRead);
        }
        LogWithLocation(Critical, selfScope, SiteAllocFailed, SourceFile, 108, AllocFailedText());
        return Some(ExitNoMemory);
      }
      if !releaseBuild {
        if !CheckSafe(level, scopes[selfScope], Debug, SiteScopeReport) {
          return Some(NullSiteRead);
        }
        LogWithLocation(Debug, selfScope, SiteScopeReport, SourceFile, 112,
                        ScopeReportText(scopes[i].name, scopes[i].max));
      }
      stop := None;
    }

    /** initLogging: safe defaults, the symbol handle, every scope's level
        reset to Debug, and a fatal exit when a site array is missing. */
    method InitLogging(logName: seq<char>, dlopenOk: bool) returns (outcome: InitOutcome)
      requires Sound() && NulFree(logName)
      modifies this`name, this`destination, this`level, this`logFile, this`writer, this`hasSymbols
      modifies this`traceEnabled, this`output, scopes
      ensures name == logName && destination == Undefined && level == Debug
      ensures logFile == StderrStream && writer == ToStderr && hasSymbols == dlopenOk
      ensures callDepth == old(callDepth) && events == old(events)
      ensures output == old(output) + RunLines(old(scopes[..]), selfScope, releaseBuild, 0)
      ensures RunStop(old(scopes[..]), selfScope, releaseBuild, 0) == if outcome == Initialized then None else Some(outcome)
      ensures Sound()
      ensures outcome == Initialized <==> forall s :: 0 <= s < scopes.Length ==> old(scopes[s]).site.Some?
      ensures outcome == Initialized ==> Valid()
      ensures outcome == Initialized ==>
        forall s :: 0 <= s < scopes.Length ==> scopes[s] == old(scopes[s]).(level := Debug)
      ensures traceEnabled == if outcome == Initialized && dlopenOk then 1 else old(traceEnabled)
    {
      ghost var table := scopes[..];
      name := logName;
      destination := Undefined;
      level := Debug;
      logFile := StderrStream;
      writer := ToStderr;
      hasSymbols := dlopenOk;

      assert scopes[..] == table;
      assert forall s :: 0 <= s < scopes.Length ==> scopes[s] == old(scopes[s]);
      var stop := ResetScopes();
      if stop.Some? {
        return stop.value;
      }
      if dlopenOk {
        TraceOn();
      }
      outcome := Initialized;
    }

    /** The loop of initLogging over the scope table: every level reset
        to Debug, stopping at the first scope whose site array is missing. */
    method ResetScopes() returns (stop: Option<InitOutcome>)
      requires Sound() && writer == ToStderr && level == Debug
      modifies this`output, scopes
      ensures Sound()
      ensures output == old(output) + RunLines(old(scopes[..]), selfScope, releaseBuild, 0)
      ensures stop == RunStop(old(scopes[..]), selfScope, releaseBuild, 0)
      ensures stop.None? <==> SitesAllocated(old(scopes[..]))
      ensures stop.None? ==>
        forall s :: 0 <= s < scopes.Length ==> scopes[s] == old(scopes[s]).(level := Debug)
    {
      ghost var table := scopes[..];
      var i := 0;
      while i < scopes.Length
        invariant 0 <= i <= scopes.Length
        invariant Sound() && writer == ToStderr && level == Debug
        invariant output + RunLines(table, selfScope, releaseBuild, i) ==
                  old(output) + RunLines(table, selfScope, releaseBuild, 0)
        invariant RunStop(table, selfScope, releaseBuild, 0) == RunStop(table, selfScope, releaseBuild, i)
        invariant scopes[..] == ResetUpTo(table, i)
      {
        stop := PassOnce(i, table);
        if stop.Some? {
          RunCompletes(table, selfScope, releaseBuild, 0);
          return;
        }
        i := i + 1;
      }
      assert output + [] == output;
      RunCompletes(table, selfScope, releaseBuild, 0);
      stop := None;
    }

    /** One pass of that loop, stated against the rest of the run from
        pass `i` over the table as it was before the loop: the pass writes
        the run's first lines, and either ends the run or leaves the run
        from `i + 1` to write the others. */
    method PassOnce(i: nat, ghost table: seq<ScopeEntry>) returns (stop: Option<InitOutcome>)
      requires Sound() && writer == ToStderr && level == Debug
      requires i < scopes.Length == |table|
      requires scopes[..] == ResetUpTo(table, i)
      modifies this`output, scopes
      ensures Sound()
      ensures scopes[..] == ResetUpTo(table, i + 1)
      ensures stop.Some? ==> stop == RunStop(table, selfScope, releaseBuild, i)
      ensures stop.Some? ==> output == old(output) + RunLines(table, selfScope, releaseBuild, i)
      ensures stop.None? ==> table[i].site.Some?
      ensures stop.None? ==> RunStop(table, selfScope, releaseBuild, i) == RunStop(table, selfScope, releaseBuild, i + 1)
      ensures stop.None? ==> output + RunLines(table, selfScope, releaseBuild, i + 1) ==
                             old(output) + RunLines(table, selfScope, releaseBuild, i)
    {
      ghost var own := OwnDuringPass(table, selfScope, i);
      stop := InitScope(i);
      assert scopes[selfScope] == own;
      RunStep(table, selfScope, releaseBuild, i);
      ghost var lines := PassLines(table[i], own, releaseBuild);
      if stop.None? {
        ghost var rest := RunLines(table, selfScope, releaseBuild, i + 1);
        assert old(output) + (lines + rest) == output + rest;
      } else {
        assert lines + [] == lines;
      }
    }

    /** stopLogging: close a syslog connection or a log file, return the
        stream to stderr after closing a file, and forget the destination.
        The writer is left as it was. */
    method StopLogging()
      modifies this`destination, this`logFile, this`events
      ensures destination == Undefined
      ensures logFile == StreamAfterStop(old(destination), old(logFile))
      ensures events == old(events) + StopEvents(old(destination), old(logFile))
    {
      match destination {
        case Syslog =>
          events := events + [CloseLog];
        case File =>
          events := events + [FClose(logFile)];
          logFile := StderrStream;
        case _ =>
      }
      destination := Undefined;
    }

    /** The log-file branch of startLogging once a path is given: open
        it and write to it, or, when fopen fails, keep writing to stderr
        and report the failure there at Error. */
    method OpenFile(path: seq<char>, fopen: OpenOutcome)
      requires Valid() && NulFree(path)
      requires fopen.OpenFailed? ==> NulFree(fopen.reason)
      modifies this`logFile, this`writer, this`events, this`output
      ensures Valid()
      ensures writer == InstalledWriter(File, Some(path), fopen)
      ensures logFile == StreamAfterStart(File, Some(path), fopen, old(logFile))
      ensures events == old(events) + [FOpen(path, fopen.OpenOk?)]
      ensures output == old(output) + OpenFailureLines(level, scopes[selfScope], releaseBuild, File, Some(path), fopen)
    {
      writer := ToStderr;
      events := events + [FOpen(path, fopen.OpenOk?)];
      if fopen.OpenOk? {
        logFile := FileStream(path);
        writer := ToFile;
      } else {
        logFile := NullStream;
        LogWithLocation(Error, selfScope, SiteOpenFailed(releaseBuild), SourceFile, 152,
                        OpenFailedText(path, fopen.reason, fopen.errno));
      }
    }

    /** The second half of startLogging's change of destination, once
        the old one is stopped: bring `dest` up and return the destination
        to record. */
    method OpenDestination(dest: Destination, path: Option<seq<char>>, fopen: OpenOutcome)
      returns (recorded: Destination)
      requires Valid()
      requires path.Some? ==> NulFree(path.value)
      requires fopen.OpenFailed? ==> NulFree(fopen.reason)
      modifies this`logFile, this`writer, this`events, this`output
      ensures Valid()
      ensures recorded == RecordedDestination(dest, path, fopen)
      ensures writer == InstalledWriter(dest, path, fopen)
      ensures logFile == StreamAfterStart(dest, path, fopen, old(logFile))
      ensures events == old(events) + OpenEvents(dest, path, fopen, name)
      ensures output == old(output) + OpenFailureLines(level, scopes[selfScope], releaseBuild, dest, path, fopen)
    {
      recorded := dest;
      match dest {
        case Syslog =>
          events := events + [SetLogMaskUpToDebug, OpenLog(name)];
          writer := ToSyslog;
        case File =>
          if path.Some? {
            OpenFile(path.value, fopen);
            if fopen.OpenFailed? {
              recorded := Stderr;
            }
          } else {
            writer := ToStderr;
            recorded := Stderr;
          }
        case Stderr =>
          writer := ToStderr;
        case Undefined =>
          writer := ToVoid;
      }
    }

    /** startLogging: the level always changes; a different destination
        is first stopped and then brought up, a file that cannot be opened
        falling back to stderr with one error message. */
    method StartLogging(debugLevel: nat, dest: Destination, path: Option<seq<char>>, fopen: OpenOutcome)
      requires Valid()
      requires path.Some? ==> NulFree(path.value)
      requires fopen.OpenFailed? ==> NulFree(fopen.reason)
      modifies this`level, this`destination, this`logFile, this`writer, this`events, this`output
      ensures Valid() && level == debugLevel
      ensures dest == old(destination) ==>
        destination == old(destination) && logFile == old(logFile) && writer == old(writer)
        && events == old(events) && output == old(output)
      ensures dest != old(destination) ==>
        && destination == RecordedDestination(dest, path, fopen)
        && writer == InstalledWriter(dest, path, fopen)
        && logFile == StreamAfterStart(dest, path, fopen, StreamAfterStop(old(destination), old(logFile)))
        && events == old(events) + StopEvents(old(destination), old(logFile)) + OpenEvents(dest, path, fopen, name)
      ensures dest != old(destination) ==>
        output == old(output) + OpenFailureLines(debugLevel, scopes[selfScope], releaseBuild, dest, path, fopen)
    {
      level := debugLevel;
      if dest != destination {
        StopLogging();
        destination := OpenDestination(dest, path, fopen);
      }
    }

    /** The guard of _profileHelper passes only once a writer is
        installed: a destination is set up only by startLogging, after
        initLogging. */
    predicate TraceReady()
      reads this
    {
      traceEnabled != 0 && destination != Undefined ==> writer != Unset
    }

    /** The line _profileHelper writes, if any, for a depth and two
        addresses. */
    function TraceLines(depth: int, left: nat, middle: seq<char>, right: nat): (r: seq<Line>)
      reads this
      requires TraceReady()
      ensures |r| <= 1
      ensures r != [] ==> traceEnabled != 0 && destination != Undefined && r[0].priority == Debug
    {
      if traceEnabled != 0 && destination != Undefined then
        Written(writer, logFile, Debug,
                RenderPlain(TraceText(depth, AddrToString(hasSymbols, symbols, left), middle,
                                      AddrToString(hasSymbols, symbols, right))))
      else []
    }

    /** _profileHelper: when tracing is on and a destination is set up,
        write "<dots> left() middle right()" at Debug priority. */
    method ProfileHelper(left: nat, middle: seq<char>, right: nat)
      requires Sound() && TraceReady() && NulFree(middle)
      modifies this`output
      ensures output == old(output) + TraceLines(callDepth, left, middle, right)
    {
      if traceEnabled != 0 && destination != Undefined {
        var l := AddrToString(hasSymbols, symbols, left);
        var r := AddrToString(hasSymbols, symbols, right);
        assert NulFree(l) && NulFree(r);
        var text := TraceText(callDepth, l, middle, r);
        var msg := new char[MsgSize];
        FormatPlain(msg, text);
        Write(Debug, CStr(msg[..]));
      }
    }

    /** __cyg_profile_func_enter: trace at the current depth, then one
        level deeper. */
    method Enter(thisFn: nat, callSite: nat)
      requires Sound() && TraceReady()
      modifies this`output, this`callDepth
      ensures Sound() && TraceReady() && (old(Valid()) ==> Valid())
      ensures callDepth == EnterDepth(old(callDepth))
      ensures output == old(output) + old(TraceLines(callDepth, callSite, "called", thisFn))
      ensures destination == Undefined ==> output == old(output)
    {
      ProfileHelper(callSite, "called", thisFn);
      callDepth := callDepth + 1;
    }

    /** __cyg_profile_func_exit: one level up, never below 1, then trace at
        the new depth. */
    method Exit(thisFn: nat, callSite: nat)
      requires Sound() && TraceReady()
      modifies this`output, this`callDepth
      ensures Sound() && TraceReady() && (old(Valid()) ==> Valid())
      ensures callDepth == ExitDepth(old(callDepth))
      ensures output == old(output) + TraceLines(callDepth, thisFn, "returned to", callSite)
      ensures destination == Undefined ==> output == old(output)
    {
      callDepth := callDepth - 1;
      if callDepth < 1 {
        callDepth := 1;
      }
      ProfileHelper(thisFn, "returned to", callSite);
    }
  }
}
