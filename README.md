# daemon-skeleton logging core, modelled in Dafny

This project models the logging subsystem of daemon-skeleton together with
the parts of `main.c` and `config.c` that drive it:

- `logging.h` — the per-call-site filter `logCheck`, the priority macros and
  the trace switch (module `LogFilter`, and the macros in `Logging.LogState`).
- `logging.c` — the process-wide logging state. It covers:
  - `initLogging`, `startLogging` and `stopLogging`;
  - the two bounded formatters `_log` and `_logWithLocation`;
  - `addrToString` and `_profileHelper`;
  - the call-depth hooks.

  The modules are `Format` (buffer arithmetic) and `Logging` (the class
  `LogState`, whose fields are the globals of `logging.c`).
- `main.c` — the executable's name taken from `argv[0]`, the start-up
  sequence of the logging state, the choice of destination, and the walk over
  the signal table in `trapSignals` (module `Daemon`).
- `config.c` — `fileIsReadable`, `parseConfigFile` (reading the file with
  `fgets`, splitting lines with `strtok_r`, building and freeing the
  `--key value` vector) and the order of `parseConfiguration` (module
  `Config`).

Module `Text` holds what they share:
- the optional value that stands for a C pointer that may be NULL;
- the C-string view of a character buffer;
- the decimal and hexadecimal renderings that the printf-style calls produce.

Priorities are the syslog severities of section 6.2.1 of RFC 5424
(Emergency 0 … Debug 7; smaller is more urgent).

How the environment enters the model:
- Calls into the C library that open or close a destination (`setlogmask`,
  `openlog`, `closelog`, `fopen`, `fclose`) are recorded as events in
  `LogState.events`.
- Every line handed to a writer is recorded in `LogState.output`.
- The outcomes of the outside world arrive as parameters: `fopen` and
  `access` results, `dlopen`/`dladdr`, the contents of a config file, and the
  assignments the option parser makes.

Five defects in the code are recorded under "## Findings". Each has a member
that models the code as written and a lemma that exhibits the defect. The
rest of the model uses the corrected behaviour.

Two behaviours of the code worth knowing:
- When a log file cannot be opened, the failure notice goes to stderr, not to
  the destination active before the switch. `logging.c:139` installs the
  stderr writer before the open, and `stopLogging` has already run. The
  notice is also written only when the filter lets the Error site of the
  logging scope through.
- The location suffix is not all-or-nothing. When more than ten bytes remain
  after the message, the suffix is written and cut to fit.

## Model

| member | source | states |
|---|---|---|
| LogFilter.Check | logging.h:72 | the filter passes only when the global level and the scope level admit the priority, the site index is below the scope's maximum and the site's byte is zero; evaluated left to right, it reads the site byte only for an index below `max` |
| LogFilter.CheckExactly | logging.h:72 | with an allocated site array, the filter is true exactly when all four tests hold |
| LogFilter.EmptyScopeRejects | logging.h:72 | a scope with no call sites rejects every site at every priority |
| LogFilter.CheckMonotonic | logging.h:72 | a site that passes at a priority also passes at every more urgent one |
| LogFilter.SuppressOnlyThatSite | logging.h:72 | a non-zero suppression byte silences its own site at every priority and leaves every other site, in any scope, as it was |
| LogFilter.MacroVariant | logging.h:56-70 | Emergency to Error use the located helper; Warning, Notice and Info the plain one; Debug the located one, or nothing in a release build |
| Format.RenderPlain | logging.c:199-211 | the message `_log` passes on is the rendered text cut to at most 255 characters, and the whole text when it fits |
| Format.RenderWithLocation | logging.c:213-233 | the located message stays within the 256-byte buffer and is a prefix of message plus suffix; with more than ten bytes left it keeps the whole message, otherwise it equals the plain rendering |
| Format.SuffixRule | logging.c:221-228 | the suffix is tried exactly when the message is shorter than 245; then it is appended and cut to end before the last byte; otherwise the result is the message cut to 255 |
| Format.ShortMessageKeepsLocation | logging.c:221-228 | a short message with a short suffix arrives whole |
| Format.LocationSuffix | logging.c:227 | " (file:line)" starts with " (", ends with ")" and holds no terminator when the file name holds none |
| Format.PrintInto | logging.c:221-227 | vsnprintf/snprintf at an offset stores what fits in `size - 1` bytes and a terminator, leaves the rest of the buffer alone and returns the full length |
| Format.FormatPlain | logging.c:199-211 | afterwards the 256-byte buffer reads, as a C string, the plain rendering |
| Format.FormatWithLocation | logging.c:213-233 | afterwards the buffer reads, as a C string, the located rendering |
| Format.TraceIndent | logging.c:272 | the indentation is the call depth, capped at the 90 characters of the leader |
| Format.TraceText | logging.c:272 | the trace line is that many dots followed by " left() middle right()" |
| Text.HexAddress | logging.c:248 | "0x%08lx" begins with "0x", has at least ten characters, only lower-case hexadecimal digits after the "0x", and no terminator |
| Logging.Written | logging.c:190-196 | the void writer drops a message; syslog, the log file and stderr each receive it unchanged, at its priority, on their own sink (for syslog this is the corrected writer, which passes the message through a "%s" format) |
| Logging.SyslogFormat | logging.c:192 | how syslog reads a message handed over as its format: text without '%' comes through unchanged, "%%" becomes '%', "%m" the error text, and any other conversion has no defined result |
| Logging.SyslogRewritesPercent | logging.c:192 | as written, a message "%%" is recorded as "%", "%m" as the error text, and "%s" has no defined result |
| Logging.StopEvents | logging.c:169-188 | stopLogging makes a call only for syslog (closelog) or a file (fclose of the current stream) |
| Logging.StreamAfterStop | logging.c:177-179 | closing a file returns the stream to stderr; any other destination leaves it |
| Logging.StopIdempotent | logging.c:169-188 | a second stopLogging makes no call and leaves the stream as the first left it |
| Logging.RecordedDestinationAsWritten | logging.c:138-165 | as written, only a failed open changes the recorded destination (to stderr); a log file without a path is recorded as File |
| Logging.RecordedDestination | logging.c:138-165 | corrected: the recorded destination is the requested one, except that a log file that was not opened is recorded as stderr; File is recorded exactly when a path was given and opened |
| Logging.InstalledWriter | logging.c:129-164 | the file writer is installed exactly when a file was opened, the syslog writer exactly for syslog, the void writer exactly for an undefined destination, and the stderr writer otherwise |
| Logging.StreamAfterStart | logging.c:138-155 | the stream changes only when a log file with a path is requested |
| Logging.OpenEvents | logging.c:131-155 | syslog sets the mask and opens the connection under the log name; a file with a path is opened; nothing else makes a call |
| Logging.StartServes | logging.c:125-166 | after a change of destination, the installed writer and stream serve the recorded destination |
| Logging.StopAfterStartSparesStderr | logging.c:177-179 | with the corrected recording, the next stopLogging never closes stderr |
| Logging.NullPathThenStopClosesStderr | logging.c:138-141 | as written, a log file requested without a path makes the next stopLogging fclose stderr |
| Logging.AddrToString | logging.c:235-252 | the symbol name when the symbol handle exists and resolves the address, the "0x%08lx" text otherwise |
| Logging.ScratchOverrun | logging.c:266-267 | an address between 2^52 and 2^56 needs 17 bytes for "0x%08lx", more than the 16-byte scratch buffer |
| Logging.ScratchSizeSuffices | logging.c:248 | 19 bytes hold "0x%08lx" of any 64-bit address |
| Logging.ExitDepth | logging.c:285-290 | the exit hook lowers the depth by one but never below 1 |
| Logging.EntersAdd | logging.c:278-282 | n entry hooks add n to the depth |
| Logging.ExitsAtLeastOne | logging.c:285-290 | any number of exit hooks, matched or not, leave the depth at least 1 |
| Logging.ExitsUndoEnters | logging.c:278-290 | n entries followed by n exits restore the starting depth |
| Logging.LogState.constructor | logging.c:31-40 | the static initial values: undefined destination, level 0, empty name, no writer, tracing off, depth 1, with the scope table as the build produced it |
| Logging.LogState.Write | logging.c:208 | a call through gLogString appends what the installed writer produces |
| Logging.LogState.Log | logging.h:75 | the `log` macro writes the plain rendering exactly when the filter passes, and nothing otherwise |
| Logging.LogState.LogWithLocation | logging.h:76 | the `logWithLocation` macro writes the located rendering exactly when the filter passes, and nothing otherwise |
| Logging.LogState.LogMacro | logging.h:56-70 | each priority macro behaves as the helper it expands to, and Debug in a release build does nothing |
| Logging.LogState.TraceOn | logging.h:45 | sets the trace flag to 1 and changes nothing else |
| Logging.LogState.TraceOff | logging.h:48 | sets the trace flag to 0 and changes nothing else |
| Logging.OpenFailureLines | logging.c:139-155 | what startLogging writes about opening a destination: exactly one Error line to stderr when a log file with a path fails to open and the filter passes that call site, nothing otherwise |
| Logging.ResetUpTo | logging.c:103-105 | after the first `i` passes, exactly the entries before `i` have their level at Debug and every other entry, and every other field, is as it was |
| Logging.OwnDuringPass | logging.c:103-106 | during pass `i`, the logging scope's own entry has its level reset once the loop has reached it; site array and size never change |
| Logging.PassStop | logging.c:103-113 | one pass stops the loop when the site array is missing (exit with ENOMEM, or a crash when the logging scope's own site array is missing too) and never when the scope and the logging scope both have their arrays; a release build never stops on an allocated scope |
| Logging.PassLines | logging.c:103-113 | one pass writes at most one line, to stderr: the Critical allocation failure for a missing site array, or in a non-release build the Debug report of the scope's size |
| Logging.RunStop | logging.c:103-113 | the loop from pass `i` ends at its first stopping pass, and never reports success by itself |
| Logging.RunLines | logging.c:103-113 | the loop from pass `i` writes at most one line per remaining scope |
| Logging.PassThenRun | logging.c:103-113 | pass `i`'s lines followed by those of the later passes, at most one per scope |
| Logging.RunLinesToStderr | logging.c:103-113 | every line the loop writes from pass `i` on goes to stderr |
| Logging.RunStep | logging.c:103-113 | the run from pass `i` is pass `i`'s lines, then the run from `i + 1` unless pass `i` stopped, and it ends as that pass or that run ends |
| Logging.RunCompletes | logging.c:103-113 | once the earlier scopes got through, the loop gets through the table exactly when every remaining scope has its site array |
| Logging.ReleaseInitIsQuiet | logging.c:112 | a release build whose scopes all have their site arrays writes nothing while initialising and gets through |
| Logging.LogState.InitScope | logging.c:103-113 | one pass of the initialisation loop: the scope's level becomes Debug and no other scope changes; the pass stops as PassStop says and appends exactly the lines PassLines gives for the scope as it was |
| Logging.LogState.PassOnce | logging.c:103-113 | one pass, stated against the run over the table as it was: the pass's lines are the run's first, and the run either ends with this pass or goes on from the next scope; the table is then reset up to and including scope `i` |
| Logging.LogState.ResetScopes | logging.c:103-113 | the loop over the scope table appends exactly RunLines of the table as it was and ends as RunStop says; it gets through exactly when every scope has its site array, and then every scope's level is Debug and nothing else in the table changed |
| Logging.LogState.InitLogging | logging.c:86-119 | the safe defaults (undefined destination, Debug, stderr), the appended lines of the loop as RunLines gives them and its end as RunStop gives it, every scope's level Debug, tracing switched on exactly when the symbol handle opened; it succeeds exactly when every scope has its site array |
| Logging.LogState.StopLogging | logging.c:169-188 | the destination becomes undefined, syslog or a file is closed, the stream returns to stderr after a file, and the writer is untouched |
| Logging.LogState.StartLogging | logging.c:121-167 | the level always changes; the same destination changes nothing else; a new one is stopped first, then brought up with the writer, stream and calls above; a failed open writes exactly one error line to stderr when the filter passes |
| Logging.LogState.OpenDestination | logging.c:129-164 | syslog is opened under the process name, a file opened, stderr or the void installed; the destination to record is the requested one, or stderr for a file that was not opened |
| Logging.LogState.OpenFile | logging.c:138-155 | a file that opens becomes the stream and gets the writer; one that fails leaves a null stream, keeps the stderr writer and writes exactly one error line to stderr, at Error, when the filter passes |
| Logging.LogState.TraceLines | logging.c:270-274 | at most one trace line, only with tracing on and a destination defined, at Debug |
| Logging.LogState.ProfileHelper | logging.c:263-275 | appends the trace line for the current depth, if any; callable before initLogging, when the guard fails and nothing is written |
| Logging.LogState.Enter | logging.c:278-282 | the entry hook writes its line at the old depth, then adds one; before initLogging (no destination) it only moves the depth; it keeps the state sound, and valid when it was |
| Logging.LogState.Exit | logging.c:285-290 | the exit hook lowers the depth (not below 1), then writes its line at the new depth; before initLogging it only moves the depth; it keeps the state sound, and valid when it was |
| Config.DefaultOptions | config.c:16-21 | in the background, at Debug, with no config file and no log file |
| Config.FileIsReadable | config.c:53-77 | readable exactly when access succeeds; a missing file is reported only when asked to, any other failure always |
| Config.ChunkLength | config.c:109 | one fgets call takes at least one and at most 1023 characters |
| Config.AllLinesConcat | config.c:109 | the chunks fgets returns are the whole file, in order |
| Config.ProcessedLinesPrefix | config.c:109 | as written, the loop processes a prefix of the chunks that misses at most the last one, and misses none when the file ends in a newline |
| Config.UnterminatedLastLineDropped | config.c:109 | as written, a file "debug 3" without a final newline is read but never processed |
| Config.SkipDelims | config.c:112-113 | strtok_r skips the delimiters "= \t\n\r"; nothing is left exactly when only delimiters precede the terminator |
| Config.TokenLength | config.c:112-113 | a token runs to the next delimiter or terminator and contains neither |
| Config.NextToken | config.c:112-113 | strtok_r finds no token exactly when only delimiters are left; a token it returns is non-empty and free of delimiters and terminators |
| Config.SplitLine | config.c:112-113 | a line yields no key exactly when it is all delimiters, never a value without a key, and non-empty tokens |
| Config.LineEntriesShape | config.c:111-137 | a line adds nothing exactly when it has no token; otherwise its first entry starts with "--" and every entry is non-empty |
| Config.KeyEqualsValue | config.c:111-137 | a "key = value" line adds "--key" and "value" |
| Config.TokenThenDelim | config.c:112 | a token followed by a delimiter is returned, and scanning resumes after that delimiter |
| Config.EntriesConcat | config.c:109-138 | the entries of two runs of lines are those of each run, in order |
| Config.ConfigArgv | config.c:98-138 | the vector starts with the executable's name and holds the entries of every line |
| Config.KeyAllocSize | config.c:122-126 | corrected: the buffer for "--" + key has room for it and its terminator |
| Config.SplitBufferKey | config.c:112-113 | after both strtok_r calls cut the line buffer, the buffer read as a C string from the key's start is exactly the key strtok_r returned |
| Config.KeyAllocSizeAsWritten | config.c:122 | as written, the size is strlen of the cut line buffer three characters into the key; it is known exactly when that position lies within the line, up to its terminator, and is then at most what is left of the line there |
| Config.KeyAllocUndersized | config.c:122 | as written, a key of three or more characters gets its length less three, too small for every such key |
| Config.DebugKeyUndersized | config.c:122 | "debug 3" gets 2 bytes where "--debug" and its terminator need 8 |
| Config.SpacedShortKey | config.c:112-122 | the two-character key of "ab = cd" gets 4 bytes, the length of "= cd" left by the cuts, where "--ab" and its terminator need 5 |
| Config.TightShortKey | config.c:112-122 | the two-character key of "ab=cd" gets 2 bytes, the length of the value "cd" |
| Config.LoneShortKey | config.c:122 | for the line "a" alone, three characters into the key lies past the line's terminator, so the size depends on bytes not written for this line |
| Config.DashKey | config.c:122-128 | strcpy of "--" and strcat of the key into a buffer of the corrected size leave exactly "--" + key as a C string |
| Config.AddLine | config.c:111-137 | one pass of the reading loop appends the entries of its line after argv[0..argc) and keeps the earlier entries |
| Config.StoreEntries | config.c:119-137 | the key, then the value, are stored at argv[argc] and argc grows by one for each |
| Config.Fgets | config.c:109 | one fgets call consumes the next chunk of the file |
| Config.ReadChunk | config.c:109-137 | one pass stores the entries of its chunk; together with the chunks still unread it keeps the whole vector |
| Config.ReadLines | config.c:109-139 | the loop leaves argv[0..argc) equal to the vector of the whole file |
| Config.ParseConfigFile | config.c:81-177 | an unopenable file gives errno, a logged error and the vector [name]; a read error gives its code; the option parser runs exactly when the file was opened and read without error, and its code is returned, with an error logged below -1; entries 1..argc-1 are freed, argv[0] never |
| Config.ArgvOverflow | config.c:119-137 | fifty "a = b" lines ask for 101 entries, more than the vector's 100 |
| Config.Apply | config.c:43-47 | an option assignment changes its own field and no other |
| Config.ApplyAllDecides | config.c:221-222 | the last assignment to a field decides it whatever came before; a field nobody assigns keeps its value |
| Config.ParseCmdLineOptions | config.c:179-199 | the options after the parser's assignments, with a message exactly when it met a bad option |
| Config.ParseConfiguration | config.c:201-225 | the config file is handed to the parser exactly when access() allows reading it |
| Config.ConsultedFile | config.c:206-219 | the file consulted is the one the command line names, or "/etc/toggled.conf"; only a missing default file goes unreported |
| Config.CommandLineWins | config.c:221-222 | every field the command line assigns ends as the command line alone sets it |
| Config.FileFillsTheRest | config.c:204-222 | a field the command line leaves alone comes from a config file that was read, or keeps its default |
| Daemon.LastSlash | main.c:61 | strrchr finds a '/' exactly when there is one, and returns its position |
| Daemon.LastSlashIsLast | main.c:61 | no '/' follows the one strrchr finds |
| Daemon.ExecName | main.c:61-69 | the executable's name is the longest suffix of argv[0] without '/': all of argv[0] when it has none, else what follows its last '/' |
| Daemon.ExecNameOfPath | main.c:61-69 | a program run as dir/name is called name |
| Daemon.ExecNameIdempotent | main.c:61-69 | taking the name of the name changes nothing |
| Daemon.ChooseDestination | main.c:79-90 | File exactly when a log file is set; otherwise Stderr exactly in the foreground and Syslog exactly in the background |
| Daemon.ToUnsigned | main.c:93 | the int level becomes the unsigned int startLogging takes, modulo 2^32 |
| Daemon.NegativeLevelLogsEverything | main.c:93 | a negative level becomes an unsigned level that passes every priority through the global level test; the scope level and the site byte still filter |
| Daemon.Startup | main.c:60-95 | the process name is the executable's name; a missing site array stops start-up with the state initLogging leaves; otherwise logging moves to the chosen destination, level, writer and stream, with the calls opening it, and the output is the loop's lines, the lines parseConfiguration logs on stderr, the open-failure line if any, then "name started" at Info when the filter passes |
| Daemon.Launch | main.c:75-95 | after initialisation: logging at the options' level and chosen destination, writer and stream, with the calls opening it; the output gains the lines parseConfiguration logs, the open-failure line if any, then the "name started" line exactly when the filter passes and the writer is not the void |
| Daemon.Configure | main.c:75-93 | logging first goes to stderr at Debug, then to the destination chosen from the options at their level; in between, the lines parseConfiguration logs go out; the new writer, stream, calls and further output are those of that one change of destination |
| Daemon.Started | main.c:95 | at most one line, at Info, carrying the text; one exactly when the filter passes the call site and the writer is not the void |
| Daemon.Announce | main.c:95 | logInfo appends exactly that line, or nothing, to the output |
| Daemon.Sentinel | main.c:256-267 | the table ends at its first zero signal |
| Daemon.TableWalkSpec | main.c:283-294 | the walk calls sigaction on the entries in order, stops at the end marker or the first refusal, succeeds exactly when no signal before the marker is refused, and hands each signal its own action, or the default action when resetting |
| Daemon.SigPairsWalk | main.c:253-267 | the table installs SIGCHLD (with SA_NOCLDSTOP), SIGINT and SIGTERM in that order; a refused SIGINT leaves SIGTERM untouched |
| Daemon.TrapSignals | main.c:274-295 | the loop makes exactly the walk's calls and returns its verdict |

## Left out

- The printf-style substitution: a message arrives as the text its format and arguments render to. Only the buffer sizes, truncation and the location suffix are modelled.
- I/O: real writes, syslog, files, `access`, `fgets` and `sigaction`. Their results are parameters, and their effects are recorded as events and output lines.
- `logLogInit` and the generated scope tables (`obj/logscopes.inc`, `obj/logscopedefs.inc`) are not part of this model. The scope table they build is an argument of the `LogState` constructor. The build's `__COUNTER__` bound on site indices is the table invariant `WellSized`. The site constants of `logging.c` (0 for line 108, 1 for line 112, then the open failure) and its file name "logging.c" take `__FILE__` to be that name and assume nothing included before line 108, `obj/logscopedefs.inc` among them, expands `__COUNTER__`. In the same way `Daemon.SiteStarted`, 0 for the logInfo of `main.c` line 95, assumes nothing before that line expands `__COUNTER__`, including `common.h`, `config.h`, `background.h` and the `obj/logscopes.inc` that `logging.h` line 11 includes.
- The option parser (popt) is a foreign library. Its effect is the sequence of assignments it makes. That a config file's vector turns into exactly those assignments is not modelled.
- `logCheckpoint` (logging.h:66) is not modelled. Its expansion hands the file name where `_log` takes the priority, so it has no meaning to model.
- `daemonize` (fork, setsid, chdir, umask), the empty signal handlers and `background` are process plumbing with nothing to prove.
- A failing malloc or strdup in `parseConfigFile` is not modelled. The model assumes every allocation succeeds.
- Logging.LogState.Enter: `gCallDepth` is an int, and its 32-bit overflow after 2^31 nested calls is not modelled.
- Config.ParseConfigFile: requires the file to yield at most 99 entries. The code never checks argc against the vector's 100 slots, and Config.ArgvOverflow shows a 50-line file that writes past the end.
- Config.ParseConfigFile: the option parser's bad option and error text are parameters, not derived from the vector.
- Config.ParseConfiguration: the messages that `parseConfigFile` itself logs are not among the returned messages. `Config.ParseConfigFile` models them.
- Daemon.Startup: does not go on to `daemonize` and the final `stopLogging`.
- Daemon.Startup, Daemon.Launch, Daemon.Configure: the lines `parseConfiguration` logs between the two `startLogging` calls (main.c:77) arrive as the parameter `configLines`; that they are exactly the rendered messages of `Config.ParseConfiguration` and `Config.ParseConfigFile`, filtered at Debug, is not derived.
- Daemon.Startup, Daemon.Launch, Daemon.Configure: the output stated is that of a build without `-finstrument-functions`. In an instrumented build, with tracing on after `initLogging`, the entry and exit hooks of `startLogging`, `stopLogging` and the configuration code would add trace lines in between.
- Config.KeyAllocSizeAsWritten: where three characters into the key lies past the line's terminator (a one-character key that ends its line, or a two-character key that ends the buffer), strlen reads bytes that an earlier line left or that were never written; the model gives no size there (None).
- Config.ParseConfigFile: the clearing loop (config.c:94-97) reads entries of the uninitialised `argv` array. The model gives their contents as the `garbage` parameter, so reading indeterminate pointers, which C leaves undefined, is not captured.
- Config.ParseConfigFile: `result = errno` (config.c:105) reads errno after `logError` has run, which may have changed it. The model returns the errno of the failed `fopen`.
- The default action `dfl` of `trapSignals`: only its `sa_handler` is set (main.c:277-279); its `sa_mask` and `sa_flags` are left uninitialised. The model's `Dfl` fixes the flags at 0 and leaves the mask out.
- Logging.AddrToString: the result of `dladdr` is not checked (logging.c:243-244). When it fails, `dli_sname` is left indeterminate, while the model falls back to the hexadecimal form cleanly.

## Findings

| source | as written | input that shows it | evidently intended | confidence | as-written member | corrected member |
|---|---|---|---|---|---|---|
| config.c:122 | `malloc(strlen(key + 2 + 1))` measures the line buffer three characters into the key: the key's length less three, or for a shorter key whatever the strtok_r cuts left after it | key "debug": 2 bytes allocated, "--debug" and its terminator need 8; line "ab = cd": 4 bytes, "--ab" needs 5 | `strlen(key) + 2 + 1` bytes | high, not executed | Config.KeyAllocUndersized | Config.DashKey |
| config.c:109 | the loop stops once `feof` is set, after `fgets` has returned the last line | a file "debug 3" with no final newline adds no entries | every line `fgets` returns is processed | high, not executed | Config.UnterminatedLastLineDropped | Config.AllLinesConcat |
| logging.c:138-141 | a log file requested with a NULL path records File while `gLogFile` is still stderr | `startLogging(level, File, NULL)` then `stopLogging()` calls `fclose(stderr)` | record stderr, where the messages go | medium, not executed | Logging.NullPathThenStopClosesStderr | Logging.StopAfterStartSparesStderr |
| logging.c:192 | `syslog(priority, msg)` passes the message as syslog's format | the message "%%" is recorded as "%" (a program named "a%%b" is announced as "a%b started"); a message holding "%s" makes syslog read a missing argument | `syslog(priority, "%s", msg)` | high, not executed | Logging.SyslogRewritesPercent | Logging.Written |
| logging.c:266-267 | 16-byte scratch buffers hold `"0x%08lx"` of a 64-bit address | an address of 2^52 needs 17 bytes | at least 19 bytes | low (user-space addresses rarely reach 2^52), not executed | Logging.ScratchOverrun | Logging.ScratchSizeSuffices |
