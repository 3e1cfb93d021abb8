/** Values shared by the whole model: an optional value (a C pointer that may
    be NULL), C-string views of character buffers, and the decimal and
    hexadecimal renderings that the printf-style calls of the daemon produce. */
module Text {

  datatype Option<+T> = None | Some(value: T)

  /** The character that terminates a C string. */
  const NUL: char := '\0'

  /** A text that can live in a C string: it holds no terminator. */
  predicate NulFree(s: seq<char>) {
    NUL !in s
  }

  /** What C sees of a buffer: everything before the first terminator
      (the whole buffer when there is none). */
  function CStr(buf: seq<char>): (r: seq<char>)
    ensures |r| <= |buf|
  {
    if buf == [] then []
    else if buf[0] == NUL then []
    else [buf[0]] + CStr(buf[1..])
  }

  /** A C string holds no terminator. */
  lemma {:induction false} CStrNulFree(buf: seq<char>)
    ensures NulFree(CStr(buf))
  {
    if buf != [] && buf[0] != NUL {
      CStrNulFree(buf[1..]);
    }
  }

  /** The C string is the part of the buffer before its first terminator. */
  lemma {:induction false} CStrIsPrefix(buf: seq<char>)
    ensures CStr(buf) == buf[..|CStr(buf)|]
    ensures |CStr(buf)| < |buf| ==> buf[|CStr(buf)|] == NUL
  {
    if buf != [] && buf[0] != NUL {
      CStrIsPrefix(buf[1..]);
    }
  }

  /** A buffer holding `s` followed by a terminator reads back as `s`,
      whatever follows the terminator. */
  lemma {:induction false} CStrOfTerminated(s: seq<char>, rest: seq<char>)
    requires NulFree(s)
    ensures CStr(s + [NUL] + rest) == s
  {
    if s != [] {
      assert (s + [NUL] + rest)[1..] == s[1..] + [NUL] + rest;
      CStrOfTerminated(s[1..], rest);
    }
  }

  /** A buffer with no terminator reads back whole. */
  lemma {:induction false} CStrOfNulFree(s: seq<char>)
    requires NulFree(s)
    ensures CStr(s) == s
  {
    if s != [] {
      assert s[1..] == s[1..];
      assert forall c :: c in s[1..] ==> c in s;
      CStrOfNulFree(s[1..]);
    }
  }

  /** Skipping characters of the C string skips them in the buffer. */
  lemma {:induction false} CStrSuffix(buf: seq<char>, m: nat)
    requires m <= |CStr(buf)|
    ensures CStr(buf[m..]) == CStr(buf)[m..]
  {
    if m > 0 {
      assert buf[1..][m - 1..] == buf[m..];
      CStrSuffix(buf[1..], m - 1);
    }
  }

  function DigitChar(d: nat): (c: char)
    requires d < 10
    ensures '0' <= c <= '9'
  {
    ['0', '1', '2', '3', '4', '5', '6', '7', '8', '9'][d]
  }

  /** printf's "%d" / "%u" of a non-negative number: its decimal digits,
      most significant first, without leading zeros. */
  function Decimal(n: nat): (r: seq<char>)
    ensures 1 <= |r|
    ensures forall i :: 0 <= i < |r| ==> '0' <= r[i] <= '9'
    ensures n < 10 <==> |r| == 1
    decreases n
  {
    if n < 10 then [DigitChar(n)] else Decimal(n / 10) + [DigitChar(n % 10)]
  }

  function HexChar(d: nat): (c: char)
    requires d < 16
    ensures c in "0123456789abcdef"
  {
    "0123456789abcdef"[d]
  }

  /** The lower-case hexadecimal digits of `n`, without leading zeros. */
  function HexDigits(n: nat): (r: seq<char>)
    ensures 1 <= |r|
    ensures forall i :: 0 <= i < |r| ==> r[i] in "0123456789abcdef"
    decreases n
  {
    if n < 16 then [HexChar(n)] else HexDigits(n / 16) + [HexChar(n % 16)]
  }

  function Pow16(k: nat): (r: nat)
    ensures r >= 1
  {
    if k == 0 then 1 else 16 * Pow16(k - 1)
  }

  /** `n` needs exactly `k` hexadecimal digits when 16^(k-1) <= n < 16^k. */
  lemma {:induction false} HexDigitsLength(n: nat, k: nat)
    requires 1 <= k
    requires (k == 1 || Pow16(k - 1) <= n) && n < Pow16(k)
    ensures |HexDigits(n)| == k
  {
    if k > 1 {
      assert n >= 16;
      if k > 2 {
        assert Pow16(k - 2) <= n / 16;
      }
      HexDigitsLength(n / 16, k - 1);
    }
  }

  /** Left-pads `s` with '0' up to `width` characters (printf's "%0*"). */
  function ZeroPad(s: seq<char>, width: nat): (r: seq<char>)
    ensures |r| == if |s| < width then width else |s|
    ensures r[|r| - |s|..] == s
    ensures forall i :: 0 <= i < |r| - |s| ==> r[i] == '0'
  {
    if |s| < width then seq(width - |s|, _ => '0') + s else s
  }

  /** The zero-padded digits hold hexadecimal digits only, and so no
      terminator. */
  lemma PaddedHexDigits(n: nat)
    ensures var z := ZeroPad(HexDigits(n), 8);
      && (forall i :: 0 <= i < |z| ==> z[i] in "0123456789abcdef")
      && NulFree(z)
  {
    var h := HexDigits(n);
    var z := ZeroPad(h, 8);
    forall i | 0 <= i < |z|
      ensures z[i] in "0123456789abcdef"
    {
      if i < |z| - |h| {
        assert z[i] == '0';
      } else {
        assert z[i] == h[i - (|z| - |h|)];
      }
    }
    assert NUL !in "0123456789abcdef";
  }

  /** printf's "0x%08lx". */
  function HexAddress(n: nat): (r: seq<char>)
    ensures |r| >= 10 && r[..2] == "0x"
    ensures forall i :: 2 <= i < |r| ==> r[i] in "0123456789abcdef"
    ensures NulFree(r)
  {
    PaddedHexDigits(n);
    "0x" + ZeroPad(HexDigits(n), 8)
  }
}
