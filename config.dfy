/** Configuration handling of config.c: the readability check of a config
    file, the translation of a config file into a "--key value" argument
    vector for the option parser, and the order in which the command line
    and the config file are consulted. The option parser itself is a
    foreign library; its verdicts arrive as parameters. */
module Config {
  import opened Text
  import LogFilter

  /** The resolved configuration (config.h). */
  datatype Options = Options(foreground: int, debugLevel: int, configFile: Option<seq<char>>, logFile: Option<seq<char>>)

  /** The defaults before any option is parsed: in the background, at
      Debug, with no config file and no log file. */
  function DefaultOptions(): (o: Options)
    ensures o.foreground == 0 && o.debugLevel == LogFilter.Debug
    ensures o.configFile.None? && o.logFile.None?
  {
    Options(0, LogFilter.Debug, None, None)
  }

  const ENOENT: nat := 2

  /** What access(file, R_OK) reports: success, or an errno with the text
      strerror gives for it. */
  datatype AccessResult = AccessOk | AccessFailed(errno: nat, reason: seq<char>)

  /** fileIsReadable's answer and the error message it logs, if any. */
  datatype Readability = Readability(readable: bool, error: Option<seq<char>>)

  /** fileIsReadable: readable exactly when access succeeded; a missing
      file is reported only when the caller asks for it, any other failure
      always. */
  function FileIsReadable(file: seq<char>, errIfMissing: int, access: AccessResult): (r: Readability)
    ensures r.readable <==> access.AccessOk?
    ensures r.error.Some? <==> access.AccessFailed? && (access.errno != ENOENT || errIfMissing != 0)
  {
    match access
    case AccessOk => Readability(true, None)
    case AccessFailed(errno, reason) =>
      if errno == ENOENT then
        Readability(false, if errIfMissing != 0 then Some("Cannot find config file \"" + file + "\"") else None)
      else
        Readability(false, Some("Cannot read config file \"" + file + "\" (" + reason + " [" + Decimal(errno) + "])"))
  }

  // ---------------------------------------------------------------------
  // Reading the file: fgets into a 1024-byte line buffer

  /** Size of the line buffer. */
  const LineSize: nat := 1024

  /** Index of the first newline of `s`, or |s| when there is none. */
  function NewlineAt(s: seq<char>): (k: nat)
    ensures k <= |s|
    ensures '\n' !in s[..k]
    ensures k < |s| ==> s[k] == '\n'
  {
    if s == [] then 0 else if s[0] == '\n' then 0 else 1 + NewlineAt(s[1..])
  }

  /** How many characters one fgets call takes from the unread rest: up to
      and including a newline, but at most LineSize - 1. */
  function ChunkLength(rest: seq<char>): (n: nat)
    requires rest != []
    ensures 1 <= n <= |rest| && n < LineSize
  {
    var k := NewlineAt(rest);
    if k < |rest| && k + 1 < LineSize then k + 1
    else if |rest| < LineSize then |rest|
    else LineSize - 1
  }

  /** Whether that fgets call runs into the end of the file, which sets the
      end-of-file flag: it found neither a newline nor a full buffer. */
  function HitsEnd(rest: seq<char>): (b: bool)
    requires rest != []
    ensures b ==> ChunkLength(rest) == |rest|
  {
    NewlineAt(rest) == |rest| && |rest| < LineSize - 1
  }

  /** The chunks the loop of parseConfigFile processes: it stops as soon
      as fgets returns nothing or has set the end-of-file flag, so a final
      line without a newline is read but never processed. */
  function ProcessedLines(content: seq<char>): (lines: seq<seq<char>>)
    decreases |content|
  {
    if content == [] || HitsEnd(content) then []
    else [content[..ChunkLength(content)]] + ProcessedLines(content[ChunkLength(content)..])
  }

  /** All chunks fgets returns. */
  function AllLines(content: seq<char>): (lines: seq<seq<char>>)
    decreases |content|
  {
    if content == [] then []
    else [content[..ChunkLength(content)]] + AllLines(content[ChunkLength(content)..])
  }

  function Concat(lines: seq<seq<char>>): seq<char> {
    if lines == [] then [] else lines[0] + Concat(lines[1..])
  }

  /** fgets splits the file without losing or adding a character. */
  lemma {:induction false} AllLinesConcat(content: seq<char>)
    ensures Concat(AllLines(content)) == content
    decreases |content|
  {
    if content != [] {
      var n := ChunkLength(content);
      AllLinesConcat(content[n..]);
      assert content == content[..n] + content[n..];
    }
  }

  /** The loop processes every chunk but a last one that ran into the end
      of the file: what it reads is the file, less at most that line. */
  lemma {:induction false} ProcessedLinesPrefix(content: seq<char>)
    ensures |ProcessedLines(content)| <= |AllLines(content)|
    ensures ProcessedLines(content) == AllLines(content)[..|ProcessedLines(content)|]
    ensures |AllLines(content)| - |ProcessedLines(content)| <= 1
    ensures content != [] && content[|content| - 1] == '\n' ==> ProcessedLines(content) == AllLines(content)
    decreases |content|
  {
    if content != [] {
      var n := ChunkLength(content);
      if HitsEnd(content) {
        assert content[n..] == [];
      } else {
        ProcessedLinesPrefix(content[n..]);
        if content[|content| - 1] == '\n' && content[n..] != [] {
          assert content[n..][|content[n..]| - 1] == '\n';
        }
      }
    }
  }

  /** AS WRITTEN: a config file whose last line lacks a newline loses
      that line. */
  lemma UnterminatedLastLineDropped()
    ensures ProcessedLines("debug 3") == []
    ensures AllLines("debug 3") == ["debug 3"]
  {
    assert NewlineAt("debug 3") == 7 by {
      assert NewlineAt("3") == 1;
      assert " 3" == [' '] + "3";
    }
    assert ChunkLength("debug 3") == 7;
    assert "debug 3"[..7] == "debug 3" && "debug 3"[7..] == [];
  }

  // ---------------------------------------------------------------------
  // Splitting a line: strtok_r with the delimiters "= \t\n\r"
  //
  // strtok_r works on the line buffer as a C string: a terminator ends
  // the text it scans, wherever it sits in the buffer.

  predicate IsDelim(c: char) {
    c == '=' || c == ' ' || c == '\t' || c == '\n' || c == '\r'
  }

  /** The C string `s` is exhausted. */
  predicate Ends(s: seq<char>) {
    s == [] || s[0] == NUL
  }

  /** Only delimiters are left before the C string ends. */
  predicate AllDelims(s: seq<char>) {
    Ends(s) || (IsDelim(s[0]) && AllDelims(s[1..]))
  }

  /** `s` is made of characters a token can hold: neither delimiters nor
      terminators. */
  predicate Word(s: seq<char>) {
    s == [] || (!IsDelim(s[0]) && s[0] != NUL && Word(s[1..]))
  }

  /** A word fits in a C string. */
  lemma {:induction false} WordNulFree(s: seq<char>)
    requires Word(s)
    ensures NulFree(s)
  {
    if s != [] {
      WordNulFree(s[1..]);
      assert s == [s[0]] + s[1..];
    }
  }

  /** The rest of `s` after its leading delimiters. */
  function SkipDelims(s: seq<char>): (r: seq<char>)
    ensures |r| <= |s|
    ensures !Ends(r) ==> !IsDelim(r[0])
    ensures Ends(r) <==> AllDelims(s)
  {
    if s != [] && IsDelim(s[0]) then SkipDelims(s[1..]) else s
  }

  /** Length of the run of token characters that starts `s`. */
  function TokenLength(s: seq<char>): (n: nat)
    ensures n <= |s| && Word(s[..n])
    ensures n < |s| ==> IsDelim(s[n]) || s[n] == NUL
  {
    if s != [] && !IsDelim(s[0]) && s[0] != NUL then
      assert s[..1 + TokenLength(s[1..])][1..] == s[1..][..TokenLength(s[1..])];
      1 + TokenLength(s[1..])
    else 0
  }

  /** A token strtok_r returns and the text it resumes scanning from. */
  datatype Token = Token(text: seq<char>, rest: seq<char>)

  /** The token at the front of `t`, which has no leading delimiters: it
      runs to the next delimiter, which strtok_r overwrites with a
      terminator so that scanning resumes just past it, or to the end of
      the C string, where the next call finds nothing. */
  function TokenOf(t: seq<char>): (r: Option<Token>)
    ensures r.None? <==> Ends(t)
    ensures r.Some? && !IsDelim(t[0]) ==> r.value.text != [] && Word(r.value.text)
  {
    if Ends(t) then None
    else
      var n := TokenLength(t);
      Some(Token(t[..n], if n < |t| && IsDelim(t[n]) then t[n + 1..] else t[n..]))
  }

  /** One strtok_r call on `s`: None when only delimiters are left. */
  function NextToken(s: seq<char>): (r: Option<Token>)
    ensures r.None? <==> AllDelims(s)
    ensures r.Some? ==> r.value.text != [] && Word(r.value.text)
  {
    TokenOf(SkipDelims(s))
  }

  /** The key and the value of a line, as the two strtok_r calls find them. */
  datatype Split = Split(key: Option<seq<char>>, value: Option<seq<char>>)

  function SplitLine(line: seq<char>): (r: Split)
    ensures r.key.None? <==> AllDelims(line)
    ensures r.key.None? ==> r.value.None?
    ensures r.key.Some? ==> r.key.value != [] && Word(r.key.value)
    ensures r.value.Some? ==> r.value.value != [] && Word(r.value.value)
  {
    match NextToken(line)
    case None => Split(None, None)
    case Some(key) =>
      match NextToken(key.rest)
      case None => Split(Some(key.text), None)
      case Some(value) => Split(Some(key.text), Some(value.text))
  }

  /** How many delimiters strtok_r skips at the front of `s`. */
  function LeadingDelims(s: seq<char>): (k: nat)
    ensures k <= |s| && SkipDelims(s) == s[k..]
  {
    if s != [] && IsDelim(s[0]) then 1 + LeadingDelims(s[1..]) else 0
  }

  /** The buffer `s` after one strtok_r call took the token at its front:
      leading delimiters stay, and the delimiter that ends the token, if
      there is one, becomes a terminator; nothing else changes. */
  function CutToken(s: seq<char>): (r: seq<char>)
    ensures |r| == |s|
  {
    if Ends(s) then s
    else if IsDelim(s[0]) then [s[0]] + CutToken(s[1..])
    else CutWord(s)
  }

  /** The cut at the end of the token that starts `s`. */
  function CutWord(s: seq<char>): (r: seq<char>)
    ensures |r| == |s|
  {
    if Ends(s) then s
    else if IsDelim(s[0]) then [NUL] + s[1..]
    else [s[0]] + CutWord(s[1..])
  }

  /** The line buffer after both strtok_r calls of parseConfigFile: the
      key is cut out of `line`, then the value out of what follows it. */
  function SplitBuffer(line: seq<char>): (r: seq<char>)
    ensures |r| == |line|
  {
    if Ends(line) then line
    else if IsDelim(line[0]) then [line[0]] + SplitBuffer(line[1..])
    else SplitKey(line)
  }

  /** The cut at the end of the key that starts `s`, then the value's. */
  function SplitKey(s: seq<char>): (r: seq<char>)
    ensures |r| == |s|
  {
    if Ends(s) then s
    else if IsDelim(s[0]) then [NUL] + CutToken(s[1..])
    else [s[0]] + SplitKey(s[1..])
  }

  /** Read as a C string from where the key starts, the split buffer is
      the key strtok_r returned. */
  lemma {:induction false} SplitBufferKey(line: seq<char>)
    requires !AllDelims(line)
    ensures CStr(SplitBuffer(line)[LeadingDelims(line)..]) == NextToken(line).value.text
  {
    if IsDelim(line[0]) {
      SplitBufferKey(line[1..]);
      assert ([line[0]] + SplitBuffer(line[1..]))[LeadingDelims(line)..] == SplitBuffer(line[1..])[LeadingDelims(line[1..])..];
    } else {
      SplitKeyIsKey(line);
    }
  }

  /** The C string at the front of the cut key is the token strtok_r
      returns for it. */
  lemma {:induction false} SplitKeyIsKey(s: seq<char>)
    requires !Ends(s) && !IsDelim(s[0])
    ensures CStr(SplitKey(s)) == NextToken(s).value.text
    ensures CStr(SplitKey(s)) == s[..TokenLength(s)]
  {
    assert SkipDelims(s) == s;
    if s[1..] == [] || s[1] == NUL || IsDelim(s[1]) {
      assert TokenLength(s[1..]) == 0;
      if s[1..] != [] && IsDelim(s[1]) {
        assert SplitKey(s) == [s[0]] + ([NUL] + CutToken(s[2..]));
      }
      assert CStr(SplitKey(s)) == [s[0]];
    } else {
      SplitKeyIsKey(s[1..]);
      assert s[..TokenLength(s)] == [s[0]] + s[1..][..TokenLength(s[1..])];
    }
  }

  /** The argument-vector entries one line buffer adds: "--" + key, then
      the value verbatim; further tokens are ignored. */
  function LineEntries(line: seq<char>): (r: seq<seq<char>>)
    ensures |r| <= 2
  {
    SplitEntries(SplitLine(line))
  }

  function SplitEntries(kv: Split): (r: seq<seq<char>>)
    ensures |r| <= 2
  {
    if kv.key.None? then []
    else if kv.value.None? then ["--" + kv.key.value]
    else ["--" + kv.key.value, kv.value.value]
  }

  /** A line adds nothing exactly when it holds only delimiters before its
      terminator; otherwise its first entry is a long option, and each
      entry is non-empty. */
  lemma LineEntriesShape(line: seq<char>)
    ensures LineEntries(line) == [] <==> AllDelims(line)
    ensures LineEntries(line) != [] ==> |LineEntries(line)[0]| > 2 && LineEntries(line)[0][..2] == "--"
    ensures |LineEntries(line)| == 2 ==> LineEntries(line)[1] != []
  {
    var kv := SplitLine(line);
    if kv.key.Some? {
      assert ("--" + kv.key.value)[..2] == "--";
    }
  }

  /** A "key = value" line becomes "--key" and "value". */
  lemma KeyEqualsValue(key: seq<char>, value: seq<char>)
    requires key != [] && value != [] && Word(key) && Word(value)
    ensures LineEntries(key + " = " + value + "\n") == ["--" + key, value]
  {
    KeyEqualsValueSplit(key, value);
  }

  lemma KeyEqualsValueSplit(key: seq<char>, value: seq<char>)
    requires key != [] && value != [] && Word(key) && Word(value)
    ensures SplitLine(key + " = " + value + "\n") == Split(Some(key), Some(value))
  {
    var rest := "= " + value + "\n";
    FirstToken(key, value);
    SecondToken(value);
    assert NextToken(key + " = " + value + "\n") == Some(Token(key, rest));
  }

  lemma FirstToken(key: seq<char>, value: seq<char>)
    requires key != [] && Word(key)
    ensures NextToken(key + " = " + value + "\n") == Some(Token(key, "= " + value + "\n"))
  {
    var rest := "= " + value + "\n";
    assert key + " = " + value + "\n" == key + ([' '] + rest);
    TokenThenDelim(key, [' '] + rest);
    assert ([' '] + rest)[1..] == rest;
  }

  lemma SecondToken(value: seq<char>)
    requires value != [] && Word(value)
    ensures NextToken("= " + value + "\n") == Some(Token(value, []))
  {
    var tail := value + "\n";
    assert "= " + value + "\n" == ['=', ' '] + tail;
    SkipTwoDelims('=', ' ', tail);
    TokenThenDelim(value, "\n");
    assert "\n"[1..] == [];
  }

  /** Leading delimiters do not change what strtok_r returns. */
  lemma SkipTwoDelims(a: char, b: char, s: seq<char>)
    requires IsDelim(a) && IsDelim(b)
    ensures NextToken([a, b] + s) == NextToken(s)
  {
    assert ([a, b] + s)[1..] == [b] + s;
    assert ([b] + s)[1..] == s;
    assert SkipDelims([a, b] + s) == SkipDelims(s);
  }

  /** A token followed by a delimiter is what strtok_r returns, and it
      resumes after that delimiter. */
  lemma TokenThenDelim(t: seq<char>, d: seq<char>)
    requires t != [] && Word(t)
    requires d != [] && IsDelim(d[0])
    ensures NextToken(t + d) == Some(Token(t, d[1..]))
  {
    TokenAt(t, d);
    assert SkipDelims(t + d) == t + d;
    assert (t + d)[|t|] == d[0];
    assert (t + d)[|t| + 1..] == d[1..];
  }

  /** The token at the front of `t + d` is `t` when `d` starts with a
      delimiter. */
  lemma {:induction false} TokenAt(t: seq<char>, d: seq<char>)
    requires Word(t)
    requires d != [] && IsDelim(d[0])
    ensures TokenLength(t + d) == |t|
    ensures (t + d)[..|t|] == t
  {
    if t != [] {
      assert (t + d)[1..] == t[1..] + d;
      TokenAt(t[1..], d);
    } else {
      assert t + d == d;
    }
  }

  /** The entries of several line buffers in order. */
  function Entries(lines: seq<seq<char>>): (r: seq<seq<char>>)
    ensures |r| <= 2 * |lines|
  {
    if lines == [] then [] else LineEntries(lines[0]) + Entries(lines[1..])
  }

  lemma {:induction false} EntriesConcat(a: seq<seq<char>>, b: seq<seq<char>>)
    ensures Entries(a + b) == Entries(a) + Entries(b)
  {
    if a == [] {
      assert a + b == b;
    } else {
      assert (a + b)[1..] == a[1..] + b;
      EntriesConcat(a[1..], b);
    }
  }

  // ---------------------------------------------------------------------
  // parseConfigFile

  /** Size of the argument vector. */
  const ArgvSize: nat := 100

  /** What fopen of the config file gives: its content and the value
      ferror reports after reading it, or an errno and its text. */
  datatype ConfigOpen = Opened(content: seq<char>, readError: int) | OpenFailed(errno: nat, reason: seq<char>)

  /** What the option parser does with the vector: no context could be
      created, or it ran and returned `code`, naming the option it choked
      on and the text for the code when the code is below -1. */
  datatype PoptOutcome = NoContext | Ran(code: int, badOption: seq<char>, reason: seq<char>)

  /** The vector parseConfigFile hands to the option parser: the
      executable's name, then the entries of every line of the file. */
  function ConfigArgv(execName: seq<char>, content: seq<char>): (r: seq<seq<char>>)
    ensures |r| >= 1 && r[0] == execName
  {
    [execName] + Entries(AllLines(content))
  }

  /** What parseConfigFile reports. */
  datatype ConfigFileResult = ConfigFileResult(
    result: int,                   // its return value
    argv: seq<seq<char>>,          // argv[0..argc)
    parsed: bool,                  // whether the option parser ran
    freed: seq<nat>,               // the argv indices freed, in order
    error: Option<seq<char>>)      // the error message it logs, if any

  /** The size of the buffer allocated for "--" + key: the two dashes, the
      key and a terminator. */
  function KeyAllocSize(key: seq<char>): (n: nat)
    ensures n == |"--" + key| + 1
  {
    |key| + 2 + 1
  }

  /** AS WRITTEN: the allocation asks for strlen(key + 3), read in the
      split line buffer three characters into the key of `line`. The
      read stops at the next terminator, which the line's own terminator
      bounds; None when the position lies past that terminator, among
      bytes fgets did not write for this line. */
  function KeyAllocSizeAsWritten(line: seq<char>): (n: Option<nat>)
    requires !AllDelims(line)
    ensures n.Some? <==> LeadingDelims(line) + 3 <= |line|
    ensures n.Some? ==> n.value <= |line| - LeadingDelims(line) - 3
  {
    var k := LeadingDelims(line);
    if k + 3 <= |line| then Some(|CStr(SplitBuffer(line)[k + 3..])|) else None
  }

  /** For a key of three or more characters the size is the key's length
      less three, always too small for the copy. */
  lemma KeyAllocUndersized(line: seq<char>)
    requires !AllDelims(line) && |NextToken(line).value.text| >= 3
    ensures KeyAllocSizeAsWritten(line) == Some(|NextToken(line).value.text| - 3)
    ensures KeyAllocSizeAsWritten(line).value < KeyAllocSize(NextToken(line).value.text)
  {
    var k := LeadingDelims(line);
    var key := NextToken(line).value.text;
    var buf := SplitBuffer(line);
    SplitBufferKey(line);
    assert buf[k..][3..] == buf[k + 3..];
    assert CStr(buf[k + 3..]) == key[3..] by {
      CStrSuffix(buf[k..], 3);
    }
  }

  /** "debug 3" gets two bytes where "--debug" and its terminator need
      eight. */
  lemma DebugKeyUndersized()
    ensures KeyAllocSizeAsWritten("debug 3\n") == Some(2) && KeyAllocSize("debug") == 8
  {
    TokenThenDelim("debug", " 3\n");
    assert "debug" + " 3\n" == "debug 3\n";
    KeyAllocUndersized("debug 3\n");
  }

  /** The key of "a" alone on its line: three characters in lies past the
      line's terminator. */
  lemma LoneShortKey()
    ensures KeyAllocSizeAsWritten("a\n") == None
  {
  }

  /** "ab = cd": the key's delimiter and the value's newline become
      terminators, so three characters into the key reads "= cd". */
  lemma SpacedShortKey()
    ensures KeyAllocSizeAsWritten("ab = cd\n") == Some(4)
  {
    assert SplitBuffer("ab = cd\n") == "ab" + [NUL] + "= cd" + [NUL];
    assert SplitBuffer("ab = cd\n")[3..] == "= cd" + [NUL] + [];
    CStrOfTerminated("= cd", []);
  }

  /** "ab=cd": three characters into the key reads the value "cd". */
  lemma TightShortKey()
    ensures KeyAllocSizeAsWritten("ab=cd\n") == Some(2)
  {
    assert SplitBuffer("ab=cd\n") == "ab" + [NUL] + "cd" + [NUL];
    assert SplitBuffer("ab=cd\n")[3..] == "cd" + [NUL] + [];
    CStrOfTerminated("cd", []);
  }

  /** The strcpy of "--" and the strcat of the key into a buffer of
      KeyAllocSize bytes: it holds exactly "--" + key as a C string. */
  method DashKey(key: seq<char>) returns (buf: array<char>)
    requires NulFree(key)
    ensures buf.Length == KeyAllocSize(key)
    ensures CStr(buf[..]) == "--" + key
  {
    buf := new char[|key| + 2 + 1];
    buf[0] := '-';
    buf[1] := '-';
    forall i | 0 <= i < |key| {
      buf[i + 2] := key[i];
    }
    buf[|key| + 2] := NUL;
    assert buf[..] == "--" + key + [NUL] + [];
    CStrOfTerminated("--" + key, []);
  }

  /** argv[0..argc) holds the entries `args`. */
  predicate Holds(argv: array<Option<seq<char>>>, args: seq<seq<char>>)
    reads argv
  {
    |args| <= argv.Length && forall j :: 0 <= j < |args| ==> argv[j] == Some(args[j])
  }

  /** The body of the reading loop of parseConfigFile for one line: store
      "--" + key and then the value at argv[argc], bumping argc for each;
      `args` is argv[0..argc). */
  method AddLine(argv: array<Option<seq<char>>>, args: seq<seq<char>>, line: seq<char>)
    returns (args': seq<seq<char>>)
    requires |args| + |LineEntries(line)| <= argv.Length
    requires Holds(argv, args)
    modifies argv
    ensures args' == args + LineEntries(line)
    ensures Holds(argv, args')
  {
    var kv := SplitLine(line);
    if kv.key.Some? {
      WordNulFree(kv.key.value);
    }
    args' := StoreEntries(argv, args, kv);
  }

  /** Stores the entries of a split line after argv[0..argc). */
  method StoreEntries(argv: array<Option<seq<char>>>, args: seq<seq<char>>, kv: Split)
    returns (args': seq<seq<char>>)
    requires kv.key.None? ==> kv.value.None?
    requires kv.key.Some? ==> NulFree(kv.key.value)
    requires |args| + |SplitEntries(kv)| <= argv.Length
    requires Holds(argv, args)
    modifies argv
    ensures args' == args + SplitEntries(kv)
    ensures Holds(argv, args')
  {
    args' := args;
    if kv.key.Some? {
      var buf := DashKey(kv.key.value);
      var dashed := CStr(buf[..]);
      argv[|args'|] := Some(dashed);
      args' := args' + [dashed];
    }
    if kv.value.Some? {
      argv[|args'|] := Some(kv.value.value);
      args' := args' + [kv.value.value];
    }
  }

  /** parseConfigFile: argv[0] is the executable's name; each processed
      line adds its entries; the option parser runs only when the file
      was opened and read without error; every entry but argv[0] is freed.
      `garbage` is what the uninitialised vector holds on entry and
      `popt` what the option parser does. */
  method ParseConfigFile(execName: seq<char>, configFile: seq<char>, file: ConfigOpen,
                         garbage: seq<Option<seq<char>>>, popt: PoptOutcome)
    returns (r: ConfigFileResult)
    requires |garbage| == ArgvSize
    requires file.OpenFailed? ==> file.errno != 0  // fopen sets errno when it fails
    requires file.Opened? ==> |ConfigArgv(execName, file.content)| <= ArgvSize
    ensures file.OpenFailed? ==> r.result == file.errno && r.argv == [execName] && r.error.Some?
    ensures file.Opened? ==> r.argv == ConfigArgv(execName, file.content)
    ensures r.parsed <==> file.Opened? && file.readError == 0 && popt.Ran?
    ensures file.Opened? && file.readError != 0 ==> r.result == file.readError && r.error.None?
    ensures file.Opened? && file.readError == 0 && popt.NoContext? ==> r.result == 0 && r.error.None?
    ensures r.parsed ==> r.result == popt.code && (r.error.Some? <==> popt.code < -1)
    ensures |r.freed| == |r.argv| - 1 && forall i :: 0 <= i < |r.freed| ==> r.freed[i] == i + 1
  {
    var argv := new Option<seq<char>>[ArgvSize](i requires 0 <= i < ArgvSize => garbage[i]);
    var result := 0;
    var error: Option<seq<char>> := None;

    var i := 1;
    while i < ArgvSize && argv[i].Some?
      invariant 1 <= i <= ArgvSize
      invariant forall k :: 1 <= k < i ==> argv[k].None? && garbage[k].Some?
      invariant forall k :: i <= k < ArgvSize ==> argv[k] == garbage[k]
    {
      argv[i] := None;
      i := i + 1;
    }
    argv[0] := Some(execName);
    var args := [execName];

    if file.OpenFailed? {
      error := Some("unable to open config file \"" + configFile + "\" (" + file.reason + " [" + Decimal(file.errno) + "])");
      result := file.errno;
    } else {
      args := ReadLines(argv, execName, file.content);
      result := file.readError;
    }

    var parsed := false;
    if result == 0 && popt.Ran? {
      parsed := true;
      result := popt.code;
      if popt.code < -1 {
        error := Some("problem in config file \"" + configFile + "\" with option \"" + popt.badOption
                      + "\" (" + popt.reason + ")");
      }
    }

    var freed: seq<nat> := [];
    i := 1;
    while i < |args| && argv[i].Some?
      invariant 1 <= i <= |args|
      invariant Holds(argv, args)
      invariant |freed| == i - 1 && forall k :: 0 <= k < |freed| ==> freed[k] == k + 1
    {
      freed := freed + [i];
      i := i + 1;
    }
    r := ConfigFileResult(result, args, parsed, freed, error);
  }

  /** The reading loop of parseConfigFile: fgets a chunk at a time into
      the line buffer, stopping at the end of the file, and add the
      entries of each chunk after argv[0]. */
  method ReadLines(argv: array<Option<seq<char>>>, execName: seq<char>, content: seq<char>)
    returns (args: seq<seq<char>>)
    requires argv.Length == ArgvSize && argv[0] == Some(execName)
    requires |ConfigArgv(execName, content)| <= ArgvSize
    modifies argv
    ensures args == ConfigArgv(execName, content)
    ensures Holds(argv, args)
  {
    args := [execName];
    var rest := content;   // what fgets has not read yet
    while rest != []
      invariant args + Entries(AllLines(rest)) == ConfigArgv(execName, content)
      invariant Holds(argv, args)
      decreases |rest|
    {
      args, rest := ReadChunk(argv, args, rest);
    }
  }

  /** One pass of the reading loop: fgets one chunk and add its entries.
      The entries still to come shrink by exactly what was added. */
  method ReadChunk(argv: array<Option<seq<char>>>, args: seq<seq<char>>, rest: seq<char>)
    returns (args': seq<seq<char>>, rest': seq<char>)
    requires rest != [] && Holds(argv, args)
    requires |args| + |Entries(AllLines(rest))| <= argv.Length
    modifies argv
    ensures |rest'| < |rest| && Holds(argv, args')
    ensures args' + Entries(AllLines(rest')) == args + Entries(AllLines(rest))
  {
    var line;
    line, rest' := Fgets(rest);
    ChunkStep(args, line, AllLines(rest'));
    args' := AddLine(argv, args, line);
  }

  lemma EntriesCons(line: seq<char>, lines: seq<seq<char>>)
    ensures Entries([line] + lines) == LineEntries(line) + Entries(lines)
  {
    assert ([line] + lines)[1..] == lines;
  }

  /** Adding the entries of the first line keeps the whole vector. */
  lemma ChunkStep(args: seq<seq<char>>, line: seq<char>, lines: seq<seq<char>>)
    ensures (args + LineEntries(line)) + Entries(lines) == args + Entries([line] + lines)
  {
    EntriesCons(line, lines);
  }

  /** One fgets call: the chunk it stores in the line buffer and what is
      left unread. */
  method Fgets(rest: seq<char>) returns (line: seq<char>, rest': seq<char>)
    requires rest != []
    ensures |rest'| < |rest| && rest == line + rest'
    ensures AllLines(rest) == [line] + AllLines(rest')
  {
    var n := ChunkLength(rest);
    line := rest[..n];
    rest' := rest[n..];
  }

  /** `line` repeated `n` times. */
  function Repeat(line: seq<char>, n: nat): seq<char> {
    if n == 0 then [] else line + Repeat(line, n - 1)
  }

  /** NewlineAt finds the first newline. */
  lemma {:induction false} NewlineAtFirst(s: seq<char>, k: nat)
    requires k < |s| && s[k] == '\n' && '\n' !in s[..k]
    ensures NewlineAt(s) == k
  {
    if k > 0 {
      assert s[0] in s[..k];
      assert s[1..][..k - 1] == s[1..k];
      assert forall c :: c in s[1..k] ==> c in s[..k];
      NewlineAtFirst(s[1..], k - 1);
    }
  }

  /** A short line ending in its only newline is one fgets chunk. */
  lemma AllLinesOfLine(line: seq<char>, rest: seq<char>)
    requires 0 < |line| < LineSize && line[|line| - 1] == '\n' && '\n' !in line[..|line| - 1]
    ensures AllLines(line + rest) == [line] + AllLines(rest)
  {
    var s := line + rest;
    assert s[..|line| - 1] == line[..|line| - 1];
    NewlineAtFirst(s, |line| - 1);
    assert s[..|line|] == line && s[|line|..] == rest;
  }

  /** `n` copies of `line`, as a list of chunks. */
  function Copies(line: seq<char>, n: nat): seq<seq<char>> {
    if n == 0 then [] else [line] + Copies(line, n - 1)
  }

  /** fgets splits `n` copies of a one-chunk line into those copies. */
  lemma {:induction false} RepeatLines(line: seq<char>, n: nat)
    requires 0 < |line| < LineSize && line[|line| - 1] == '\n' && '\n' !in line[..|line| - 1]
    ensures AllLines(Repeat(line, n)) == Copies(line, n)
  {
    if n > 0 {
      var rest := Repeat(line, n - 1);
      assert Repeat(line, n) == line + rest;
      AllLinesOfLine(line, rest);
      RepeatLines(line, n - 1);
      assert Copies(line, n) == [line] + Copies(line, n - 1);
    }
  }

  /** `n` copies of a line with two entries yield 2n entries. */
  lemma {:induction false} CopiesEntries(line: seq<char>, n: nat)
    requires |LineEntries(line)| == 2
    ensures |Entries(Copies(line, n))| == n + n
  {
    if n > 0 {
      var rest := Copies(line, n - 1);
      assert Copies(line, n) == [line] + rest;
      EntriesCons(line, rest);
      CopiesEntries(line, n - 1);
      var e, es := LineEntries(line), Entries(rest);
      assert |e + es| == |e| + |es|;
    }
  }

  lemma LineAB()
    ensures LineEntries("a = b\n") == ["--a", "b"]
  {
    assert Word("a") by { assert "a"[1..] == []; }
    assert Word("b") by { assert "b"[1..] == []; }
    KeyEqualsValue("a", "b");
    assert "a" + " = " + "b" + "\n" == "a = b\n";
    assert "--" + "a" == "--a";
  }

  /** AS WRITTEN: nothing bounds argc, so a file of fifty "a = b" lines
      asks for 101 entries in a vector of 100. */
  lemma ArgvOverflow(execName: seq<char>)
    ensures |ConfigArgv(execName, Repeat("a = b\n", 50))| == 101 > ArgvSize
  {
    var line: seq<char> := "a = b\n";
    LineAB();
    assert line[..|line| - 1] == "a = b";
    RepeatLines(line, 50);
    CopiesEntries(line, 50);
  }

  // ---------------------------------------------------------------------
  // parseConfiguration: command line, config file, command line again

  /** Where the configuration is looked for when none is named. */
  const DefaultConfigPath: seq<char> := "/etc/toggled.conf"

  /** One assignment the option parser makes while it works through a
      vector: --foreground and --daemon store 1 and 0, --debug its number,
      --config and --logfile their text. */
  datatype Setting =
    | SetForeground(flag: int)
    | SetDebug(level: int)
    | SetConfig(path: seq<char>)
    | SetLogFile(path: seq<char>)

  /** The four fields of the options. */
  datatype Field = Foreground | DebugLevel | ConfigFile | LogFile

  function FieldOf(s: Setting): Field {
    match s
    case SetForeground(_) => Foreground
    case SetDebug(_) => DebugLevel
    case SetConfig(_) => ConfigFile
    case SetLogFile(_) => LogFile
  }

  /** `a` and `b` hold the same value in field `f`. */
  predicate Agree(a: Options, b: Options, f: Field) {
    match f
    case Foreground => a.foreground == b.foreground
    case DebugLevel => a.debugLevel == b.debugLevel
    case ConfigFile => a.configFile == b.configFile
    case LogFile => a.logFile == b.logFile
  }

  /** One assignment: it changes its own field and no other. */
  function Apply(o: Options, s: Setting): (r: Options)
    ensures forall f :: f != FieldOf(s) ==> Agree(r, o, f)
  {
    match s
    case SetForeground(v) => o.(foreground := v)
    case SetDebug(v) => o.(debugLevel := v)
    case SetConfig(p) => o.(configFile := Some(p))
    case SetLogFile(p) => o.(logFile := Some(p))
  }

  /** The options after the parser made `settings` in order. */
  function ApplyAll(o: Options, settings: seq<Setting>): Options
    decreases |settings|
  {
    if settings == [] then o else ApplyAll(Apply(o, settings[0]), settings[1..])
  }

  /** Some assignment of `settings` is to field `f`. */
  predicate Sets(settings: seq<Setting>, f: Field) {
    settings != [] && (FieldOf(settings[0]) == f || Sets(settings[1..], f))
  }

  /** The last assignment to a field decides it, whatever the options held
      before; a field no assignment names keeps its value. */
  lemma {:induction false} ApplyAllDecides(a: Options, b: Options, settings: seq<Setting>, f: Field)
    ensures Sets(settings, f) ==> Agree(ApplyAll(a, settings), ApplyAll(b, settings), f)
    ensures !Sets(settings, f) ==> Agree(ApplyAll(a, settings), a, f)
    decreases |settings|
  {
    if settings != [] {
      var a', b' := Apply(a, settings[0]), Apply(b, settings[0]);
      ApplyAllDecides(a', b', settings[1..], f);
      ApplyAllDecides(b', b', settings[1..], f);
      if FieldOf(settings[0]) == f {
        assert Agree(a', b', f);
      } else {
        assert Agree(a', a, f);
      }
    }
  }

  /** Once a config file is named, it stays named. */
  lemma {:induction false} ConfigFileNamed(a: Options, settings: seq<Setting>)
    requires a.configFile.Some? || Sets(settings, ConfigFile)
    ensures ApplyAll(a, settings).configFile.Some?
    decreases |settings|
  {
    if settings != [] {
      var a' := Apply(a, settings[0]);
      if a'.configFile.Some? || Sets(settings[1..], ConfigFile) {
        ConfigFileNamed(a', settings[1..]);
      }
    }
  }

  /** Why the option parser stopped early: the option it could not take and
      the text for the code. */
  datatype BadOption = BadOption(option: seq<char>, reason: seq<char>)

  /** parseCmdLineOptions: the options after the parser's assignments, and
      the message logged when it stopped at a bad option. It returns 0
      either way. */
  function ParseCmdLineOptions(o: Options, settings: seq<Setting>, bad: Option<BadOption>): (r: (Options, Option<seq<char>>))
    ensures r.0 == ApplyAll(o, settings)
    ensures r.1.Some? <==> bad.Some?
  {
    (ApplyAll(o, settings),
     if bad.Some? then Some("problem with the command line option \"" + bad.value.option + "\" (" + bad.value.reason + ")")
     else None)
  }

  /** What parseConfiguration leaves behind. */
  datatype Configuration = Configuration(
    options: Options,              // the resolved options
    consulted: seq<char>,          // the config file it looked at
    read: bool,                    // whether it handed that file to parseConfigFile
    errors: seq<seq<char>>)        // the messages it logged, in order

  /** parseConfiguration. `cmdLine` and `bad` are what the option parser
      makes of the command line (the same both times); `access` is the
      answer of access() for the file consulted and `fileSettings` the
      assignments the parser made from that file's vector. */
  function ParseConfiguration(cmdLine: seq<Setting>, bad: Option<BadOption>, access: AccessResult,
                              fileSettings: seq<Setting>): (r: Configuration)
    ensures r.read <==> access.AccessOk?
  {
    var (first, cmdError) := ParseCmdLineOptions(DefaultOptions(), cmdLine, bad);
    var explicit := first.configFile.Some?;
    var path := if explicit then first.configFile.value else DefaultConfigPath;
    var check := FileIsReadable(path, if explicit then 1 else 0, access);
    var fromFile := if check.readable then ApplyAll(first, fileSettings) else first;
    var (last, _) := ParseCmdLineOptions(fromFile, cmdLine, bad);
    var cmdErrors := if cmdError.Some? then [cmdError.value] else [];
    var checkErrors := if check.error.Some? then [check.error.value] else [];
    Configuration(last, path, check.readable, cmdErrors + checkErrors + cmdErrors)
  }

  /** The file consulted is the one the command line names last, or the
      standard one; a missing standard file is not reported, a missing
      named file is, and so is any other failure. */
  lemma ConsultedFile(cmdLine: seq<Setting>, bad: Option<BadOption>, access: AccessResult, fileSettings: seq<Setting>)
    ensures var r := ParseConfiguration(cmdLine, bad, access, fileSettings);
      && (!Sets(cmdLine, ConfigFile) ==> r.consulted == DefaultConfigPath)
      && (Sets(cmdLine, ConfigFile) ==> Some(r.consulted) == ApplyAll(DefaultOptions(), cmdLine).configFile)
      && (|r.errors| == (if bad.Some? then 2 else 0) <==>
            access.AccessOk? || (access.errno == ENOENT && !Sets(cmdLine, ConfigFile)))
  {
    var o := DefaultOptions();
    ApplyAllDecides(o, o, cmdLine, ConfigFile);
    if Sets(cmdLine, ConfigFile) {
      ConfigFileNamed(o, cmdLine);
    }
  }

  /** Command-line options override the config file: every field the
      command line assigns ends as the command line alone leaves it. */
  lemma CommandLineWins(cmdLine: seq<Setting>, bad: Option<BadOption>, access: AccessResult,
                        fileSettings: seq<Setting>, f: Field)
    requires Sets(cmdLine, f)
    ensures Agree(ParseConfiguration(cmdLine, bad, access, fileSettings).options,
                  ApplyAll(DefaultOptions(), cmdLine), f)
  {
    var first := ApplyAll(DefaultOptions(), cmdLine);
    var fromFile := if access.AccessOk? then ApplyAll(first, fileSettings) else first;
    ApplyAllDecides(fromFile, DefaultOptions(), cmdLine, f);
  }

  /** A field the command line leaves alone comes from the config file
      when the file was read and assigns it, and is the default otherwise. */
  lemma FileFillsTheRest(cmdLine: seq<Setting>, bad: Option<BadOption>, access: AccessResult,
                         fileSettings: seq<Setting>, f: Field)
    requires !Sets(cmdLine, f)
    ensures Agree(ParseConfiguration(cmdLine, bad, access, fileSettings).options,
                  if access.AccessOk? then ApplyAll(DefaultOptions(), fileSettings) else DefaultOptions(), f)
  {
    var d := DefaultOptions();
    var first := ApplyAll(d, cmdLine);
    ApplyAllDecides(d, d, cmdLine, f);
    var fromFile := if access.AccessOk? then ApplyAll(first, fileSettings) else first;
    ApplyAllDecides(fromFile, fromFile, cmdLine, f);
    if access.AccessOk? {
      ApplyAllDecides(first, d, fileSettings, f);
      ApplyAllDecides(d, d, fileSettings, f);
    }
  }
}
