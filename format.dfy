/** The bounded formatting done by the logging helpers: the rendered
    message goes into a 256-byte stack buffer, and the location-qualified
    variant appends " (file:line)" only when more than ten bytes are left.
    The printf-style substitution itself is abstract: a message arrives as
    the text the format and its arguments render to. */
module Format {
  import opened Text

  /** Size of the `msg` buffer of both helpers and of the trace helper. */
  const MsgSize: nat := 256

  /** The suffix is attempted only when more than this many bytes remain. */
  const Slack: int := 10

  function Min(a: int, b: int): int { if a < b then a else b }

  /** What snprintf(buf, size, "%s", s) stores before its terminator: as
      much of `s` as fits in size - 1 bytes. */
  function Snprintf(s: seq<char>, size: nat): (r: seq<char>)
    requires size >= 1
    ensures |r| <= size - 1 && |r| <= |s| && r == s[..|r|]
    ensures |s| < size ==> r == s
  {
    s[..Min(|s|, size - 1)]
  }

  /** The text of " (%s:%d)" for a file name and a line number. */
  function LocationSuffix(file: seq<char>, line: nat): (r: seq<char>)
    ensures |r| >= 5 && r[..2] == " (" && r[|r| - 1] == ')'
    ensures NulFree(file) ==> NulFree(r)
  {
    var d := Decimal(line);
    assert forall i :: 0 <= i < |d| ==> d[i] != NUL;
    " (" + file + ":" + d + ")"
  }

  /** The bytes left after the message in the location variant; the message
      length used is the full rendered length that vsnprintf returns, not
      the length it stored. */
  function Remaining(text: seq<char>): int {
    MsgSize - |text| - 1
  }

  /** What `_log` hands to the writer: the message cut to the buffer. */
  function RenderPlain(text: seq<char>): (r: seq<char>)
    ensures |r| < MsgSize && |r| <= |text| && r == text[..|r|]
    ensures |text| < MsgSize ==> r == text
  {
    Snprintf(text, MsgSize)
  }

  /** What `_logWithLocation` hands to the writer. */
  function RenderWithLocation(text: seq<char>, suffix: seq<char>): (r: seq<char>)
    ensures |r| < MsgSize
    ensures |r| <= |text + suffix| && r == (text + suffix)[..|r|]
    ensures Remaining(text) > Slack ==> |r| >= |text| && r[..|text|] == text
    ensures Remaining(text) <= Slack ==> r == RenderPlain(text)
  {
    if Remaining(text) > Slack then
      var tail := Snprintf(suffix, Remaining(text));
      assert (text + suffix)[..|text| + |tail|] == text + tail;
      text + tail
    else RenderPlain(text)
  }

  /** The suffix is appended exactly when the message leaves more than the
      slack: then the message itself is never cut, and the suffix is cut
      only to what fits in front of the last two bytes of the buffer. When
      it is not appended, no part of it is written. */
  lemma SuffixRule(text: seq<char>, suffix: seq<char>)
    ensures Remaining(text) > Slack <==> |text| < MsgSize - 1 - Slack
    ensures Remaining(text) > Slack ==>
      RenderWithLocation(text, suffix) == text + suffix[..Min(|suffix|, MsgSize - 2 - |text|)]
    ensures Remaining(text) <= Slack ==>
      |RenderWithLocation(text, suffix)| == Min(|text|, MsgSize - 1)
  {
  }

  /** A short message with a short suffix arrives whole. */
  lemma {:induction false} ShortMessageKeepsLocation(text: seq<char>, suffix: seq<char>)
    requires |text| + |suffix| <= MsgSize - 2 && |text| < MsgSize - 1 - Slack
    ensures RenderWithLocation(text, suffix) == text + suffix
  {
    assert Snprintf(suffix, Remaining(text)) == suffix;
  }

  /** vsnprintf / snprintf writing `s` at `msg[off]` with a size of `size`
      bytes: it stores what fits and a terminator, and returns the full
      length of `s`. */
  method PrintInto(msg: array<char>, off: nat, size: nat, s: seq<char>) returns (len: nat)
    requires 1 <= size && off + size <= msg.Length
    modifies msg
    ensures len == |s|
    ensures msg[..] == old(msg[..off]) + Snprintf(s, size) + [NUL]
                       + old(msg[off + |Snprintf(s, size)| + 1..])
  {
    var n := Min(|s|, size - 1);
    forall i | off <= i < off + n {
      msg[i] := s[i - off];
    }
    msg[off + n] := NUL;
    len := |s|;
    assert msg[..] == old(msg[..off]) + Snprintf(s, size) + [NUL] + old(msg[off + n + 1..]);
  }

  /** The buffer part of `_log`: afterwards the buffer holds, as a C string,
      the rendered message cut to the buffer. */
  method FormatPlain(msg: array<char>, text: seq<char>)
    requires msg.Length == MsgSize && NulFree(text)
    modifies msg
    ensures CStr(msg[..]) == RenderPlain(text)
  {
    var _ := PrintInto(msg, 0, MsgSize, text);
    CStrOfTerminated(RenderPlain(text), msg[|RenderPlain(text)| + 1..]);
    assert msg[..] == RenderPlain(text) + [NUL] + msg[|RenderPlain(text)| + 1..];
  }

  /** The buffer part of `_logWithLocation`. */
  method FormatWithLocation(msg: array<char>, file: seq<char>, line: nat, text: seq<char>)
    requires msg.Length == MsgSize && NulFree(text) && NulFree(file)
    modifies msg
    ensures CStr(msg[..]) == RenderWithLocation(text, LocationSuffix(file, line))
  {
    var prefixLen := PrintInto(msg, 0, MsgSize, text);
    var remaining := MsgSize - prefixLen - 1;
    if remaining > Slack {
      assert msg[..prefixLen] == text;
      var suffix := LocationSuffix(file, line);
      ghost var tail := Snprintf(suffix, remaining);
      var _ := PrintInto(msg, prefixLen, remaining, suffix);
      ghost var rest := msg[prefixLen + |tail| + 1..];
      assert msg[..] == text + tail + [NUL] + rest;
      CStrOfTerminated(text + tail, rest);
    } else {
      ghost var r := RenderPlain(text);
      assert msg[..] == r + [NUL] + msg[|r| + 1..];
      CStrOfTerminated(r, msg[|r| + 1..]);
    }
  }

  /** The indentation string of the trace helper: 90 dots. */
  const LeaderLength: nat := 90

  /** How many dots "%.*s" prints of the leader for a call depth: the depth,
      capped by the leader's length; a negative precision prints it all. */
  function TraceIndent(depth: int): (n: nat)
    ensures n <= LeaderLength
    ensures 0 <= depth <= LeaderLength ==> n == depth
  {
    if depth < 0 || depth > LeaderLength as int then LeaderLength else depth
  }

  /** The text of "%.*s %s() %s %s()" before it is cut to the buffer. */
  function TraceText(depth: int, left: seq<char>, middle: seq<char>, right: seq<char>): (r: seq<char>)
    ensures |r| >= TraceIndent(depth) && forall i :: 0 <= i < TraceIndent(depth) ==> r[i] == '.'
    ensures r[TraceIndent(depth)..] == " " + left + "() " + middle + " " + right + "()"
    ensures NulFree(left) && NulFree(middle) && NulFree(right) ==> NulFree(r)
  {
    var dots := seq(TraceIndent(depth), _ => '.');
    assert NulFree(dots);
    dots + " " + left + "() " + middle + " " + right + "()"
  }
}
