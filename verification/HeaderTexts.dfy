/**
 Format texts in bank headers (et2bos.c, bos2et.c, boswrite.c): characters lie in words from the
 lowest byte up, as on a little-endian machine.
 */
module HeaderTexts {
  const BLANKCHAR := 32

  /** Weight of byte `j` of a word. */
  function Weight(j: nat): int
    requires j < 4
  {
    if j == 0 then 1 else if j == 1 then 0x100 else if j == 2 then 0x10000 else 0x1000000
  }

  function ByteOf(x: int, j: nat): int
    requires j < 4
  {
    (x / Weight(j)) % 0x100
  }

  /** The word with byte `j` set to zero. */
  function WithoutByte(x: int, j: nat): int
    requires j < 4
  {
    x - ByteOf(x, j) * Weight(j)
  }

  /** Byte `k` of the words from word `at` on; behind the end there are zeros. */
  function Byte(e: seq<int>, at: int, k: nat): int {
    if 0 <= at + k / 4 < |e| then ByteOf(e[at + k / 4], k % 4) else 0
  }

  predicate EndsText(c: int) {
    c == 0 || c == BLANKCHAR
  }

  /** From byte `k` on: the first blank or NUL, or `limit`. */
  function TextEnd(e: seq<int>, at: int, limit: nat, k: nat): (n: nat)
    requires k <= limit
    ensures k <= n <= limit
    ensures forall j :: k <= j < n ==> !EndsText(Byte(e, at, j))
    ensures n < limit ==> EndsText(Byte(e, at, n))
    decreases limit - k
  {
    if k == limit || EndsText(Byte(e, at, k)) then k else TextEnd(e, at, limit, k + 1)
  }

  /** The words with a NUL at byte `k` from word `at` on. */
  function Cut(e: seq<int>, at: int, k: nat): (r: seq<int>)
    ensures |r| == |e|
    ensures forall i :: 0 <= i < |e| && i != at + k / 4 ==> r[i] == e[i]
  {
    if 0 <= at + k / 4 < |e| then e[at + k / 4 := WithoutByte(e[at + k / 4], k % 4)] else e
  }

  /** Length of the text in the format words of a header. */
  function TextLength(fmt: seq<int>): (n: nat)
    ensures n <= 4 * |fmt|
  {
    TextEnd(fmt, 0, 4 * |fmt|, 0)
  }

  /** The format words have a blank or NUL behind the text. */
  predicate Stops(fmt: seq<int>) {
    TextLength(fmt) < 4 * |fmt|
  }

  lemma {:induction false} TextEndSame(e: seq<int>, at: int, fmt: seq<int>, k: nat)
    requires 0 <= at && at + |fmt| <= |e| && e[at..at + |fmt|] == fmt && k <= 4 * |fmt|
    ensures TextEnd(e, at, 4 * |fmt|, k) == TextEnd(fmt, 0, 4 * |fmt|, k)
    decreases 4 * |fmt| - k
  {
    if k < 4 * |fmt| {
      assert fmt[k / 4] == e[at + k / 4];
      TextEndSame(e, at, fmt, k + 1);
    }
  }

  // ---- Formats as the writers make them ----------------------------------------------------------------

  predicate IsText(t: seq<int>) {
    forall i :: 0 <= i < |t| ==> 0 < t[i] < 0x100
  }

  function TextByte(t: seq<int>, k: nat): int {
    if k < |t| then t[k] else BLANKCHAR
  }

  function FourBytes(a: int, b: int, c: int, d: int): int {
    a + 0x100 * b + 0x10000 * c + 0x1000000 * d
  }

  /** The text in as many words as it takes, filled up with blanks. */
  function TextWords(t: seq<int>): (fmt: seq<int>)
    ensures |fmt| == (|t| + 3) / 4
  {
    seq((|t| + 3) / 4, i requires 0 <= i =>
      FourBytes(TextByte(t, 4 * i), TextByte(t, 4 * i + 1), TextByte(t, 4 * i + 2), TextByte(t, 4 * i + 3)))
  }

  lemma BytesOf(a: int, b: int, c: int, d: int)
    requires 0 <= a < 0x100 && 0 <= b < 0x100 && 0 <= c < 0x100 && 0 <= d < 0x100
    ensures var x := FourBytes(a, b, c, d);
            ByteOf(x, 0) == a && ByteOf(x, 1) == b && ByteOf(x, 2) == c && ByteOf(x, 3) == d
  {
    hide ByteOf;
    var z := c + 0x100 * d;
    var y := b + 0x100 * z;
    LowByte(a, y);
    LowByte(b, z);
    LowByte(c, d);
    LowByte(d, 0);
    NextByte(a, y, 0);
    NextByte(a, y, 1);
    NextByte(a, y, 2);
    NextByte(b, z, 0);
    NextByte(b, z, 1);
    NextByte(c, d, 0);
  }

  lemma LowByte(a: int, y: int)
    requires 0 <= a < 0x100
    ensures ByteOf(a + 0x100 * y, 0) == a
  {
  }

  lemma NextByte(a: int, y: int, j: nat)
    requires 0 <= a < 0x100 && j < 3
    ensures ByteOf(a + 0x100 * y, j + 1) == ByteOf(y, j)
  {
    Over(a, y, Weight(j));
    assert 0x100 * Weight(j) == Weight(j + 1);
  }

  /** A word without its lowest byte, divided further. */
  lemma Over(a: int, y: int, m: int)
    requires 0 <= a < 0x100 && m > 0
    ensures (a + 0x100 * y) / (0x100 * m) == y / m
  {
    var q, r := y / m, y % m;
    assert a + 0x100 * y == q * (0x100 * m) + (a + 0x100 * r);
    Quotient(a + 0x100 * y, 0x100 * m, q, a + 0x100 * r);
  }

  lemma Quotient(x: int, m: int, q: int, r: int)
    requires 0 <= r < m && x == q * m + r
    ensures x / m == q
  {
    var d := x / m - q;
    assert x == (x / m) * m + x % m;
    assert d * m == r - x % m;
    Multiple(d, m);
  }

  lemma Multiple(d: int, m: int)
    requires m > 0
    ensures (d >= 1 ==> d * m >= m) && (d <= -1 ==> d * m <= -m)
  {
  }

  lemma TextBytes(t: seq<int>, k: nat)
    requires IsText(t) && k < 4 * |TextWords(t)|
    ensures Byte(TextWords(t), 0, k) == TextByte(t, k)
  {
    hide ByteOf, FourBytes, TextByte;
    var i := k / 4;
    ByteInRange(t, 4 * i);
    ByteInRange(t, 4 * i + 1);
    ByteInRange(t, 4 * i + 2);
    ByteInRange(t, 4 * i + 3);
    BytesOf(TextByte(t, 4 * i), TextByte(t, 4 * i + 1), TextByte(t, 4 * i + 2), TextByte(t, 4 * i + 3));
  }

  lemma ByteInRange(t: seq<int>, k: nat)
    requires IsText(t)
    ensures 0 <= TextByte(t, k) < 0x100
  {
  }

  /** A text ends in its words unless it fills them: its length is a multiple of four and it has no blank. */
  lemma TextStops(t: seq<int>)
    requires IsText(t)
    ensures Stops(TextWords(t)) <==> |t| % 4 != 0 || exists i :: 0 <= i < |t| && t[i] == BLANKCHAR
  {
    var fmt := TextWords(t);
    var n := TextLength(fmt);
    if n < 4 * |fmt| { TextBytes(t, n); }
    if |t| % 4 != 0 {
      TextBytes(t, |t|);
    }
    if i :| 0 <= i < |t| && t[i] == BLANKCHAR {
      TextBytes(t, i);
    }
  }

  // ---- The text of a header read back ------------------------------------------------------------------

  /** How many of the first `n` characters of the words are left without the blanks at their end; one at least. */
  function Kept(fmt: seq<int>, n: nat): (k: nat)
    ensures k <= n && (n > 0 ==> k > 0)
    ensures forall j :: k <= j < n ==> Byte(fmt, 0, j) == BLANKCHAR
    ensures k > 1 ==> Byte(fmt, 0, k - 1) != BLANKCHAR
  {
    if n > 1 && Byte(fmt, 0, n - 1) == BLANKCHAR then Kept(fmt, n - 1) else n
  }

  /** The characters from `k` on before `n`, up to a NUL. */
  function Chars(fmt: seq<int>, k: nat, n: nat): (t: seq<int>)
    ensures |t| <= if k < n then n - k else 0
    decreases n - k
  {
    if k >= n || Byte(fmt, 0, k) == 0 then [] else [Byte(fmt, 0, k)] + Chars(fmt, k + 1, n)
  }

  /** The text in the format words of a header, without the blanks behind it. */
  function FormatText(fmt: seq<int>): (t: seq<int>)
    ensures |t| <= 4 * |fmt|
  {
    Chars(fmt, 0, Kept(fmt, 4 * |fmt|))
  }

  lemma {:induction false} CharsOfText(t: seq<int>, k: nat, n: nat)
    requires IsText(t) && k <= n <= |t|
    ensures Chars(TextWords(t), k, n) == t[k..n]
    decreases n - k
  {
    hide TextWords, Byte;
    if k < n {
      TextBytes(t, k);
      CharsOfText(t, k + 1, n);
    }
  }

  /** A text comes back from its words if and only if it does not end with a blank, a single one excepted. */
  lemma TextBack(t: seq<int>)
    requires IsText(t)
    ensures FormatText(TextWords(t)) == t <==> |t| <= 1 || t[|t| - 1] != BLANKCHAR
  {
    hide TextWords, Byte, Chars;
    var fmt := TextWords(t);
    var k := Kept(fmt, 4 * |fmt|);
    if k > 1 { TextBytes(t, k - 1); }
    if k < |t| { TextBytes(t, |t| - 1); }
    if t != [] && t[|t| - 1] == BLANKCHAR { TextBytes(t, |t| - 1); }
    if k <= |t| { CharsOfText(t, 0, k); }
  }

  /** Byte `k` of the format words in the buffer. */
  function ByteAt(w: array<int>, at: nat, ghost nwfmt: nat, k: nat): (c: int)
    requires at + nwfmt <= w.Length && k < 4 * nwfmt
    reads w
    ensures c == Byte(w[at..at + nwfmt], 0, k)
  {
    assert w[at + k / 4] == w[at..at + nwfmt][k / 4];
    ByteOf(w[at + k / 4], k % 4)
  }

  /** The text in a header (etbosio.c:566-571). */
  method ReadText(w: array<int>, at: nat, nwfmt: nat) returns (t: seq<int>)
    requires at + nwfmt <= w.Length
    ensures t == FormatText(w[at..at + nwfmt])
  {
    hide Byte, Kept, Chars;
    var n := WithoutBlanks(w, at, nwfmt);
    ghost var fmt := w[at..at + nwfmt];
    t := [];
    NextChar(fmt, 0, n);
    while |t| < n && ByteAt(w, at, nwfmt, |t|) != 0
      invariant |t| <= n && Chars(fmt, 0, n) == t + Chars(fmt, |t|, n)
    {
      NextChar(fmt, |t|, n);
      t := t + [ByteAt(w, at, nwfmt, |t|)];
    }
    NextChar(fmt, |t|, n);
  }

  method WithoutBlanks(w: array<int>, at: nat, nwfmt: nat) returns (n: nat)
    requires at + nwfmt <= w.Length
    ensures n == Kept(w[at..at + nwfmt], 4 * nwfmt) <= 4 * nwfmt
  {
    hide Byte;
    n := 4 * nwfmt;
    while n > 1 && ByteAt(w, at, nwfmt, n - 1) == BLANKCHAR
      invariant n <= 4 * nwfmt && Kept(w[at..at + nwfmt], 4 * nwfmt) == Kept(w[at..at + nwfmt], n)
    {
      n := n - 1;
    }
  }

  lemma NextChar(fmt: seq<int>, k: nat, n: nat)
    requires k <= n
    ensures Chars(fmt, k, n) ==
              if k < n && Byte(fmt, 0, k) != 0 then [Byte(fmt, 0, k)] + Chars(fmt, k + 1, n) else []
  {
  }

  /** How the words of a bank are coded: not known, 32, 16 or 8 bits each, or as a text says. */
  datatype BankFormat = NoFormat | Bits(code: int) | Text(chars: seq<int>)

  function FormatChars(f: BankFormat): seq<int> {
    match f
    case NoFormat => [32, 32, 32, 32]
    case Bits(code) => if code == 1 then [66, 51, 50, 32] else if code == 2 then [66, 49, 54, 32] else [66, 48, 56, 32]
    case Text(chars) => chars
  }

  /** The format words of all names. */
  ghost function HeaderFormats(formats: seq<BankFormat>): (fmts: seq<seq<int>>)
    ensures |fmts| == |formats|
  {
    seq(|formats|, i requires 0 <= i < |formats| => TextWords(FormatChars(formats[i])))
  }

  /** Blanks that come to lie behind the header words: three are put behind a text (bos2et.c:117-127). */
  function Spill(f: BankFormat): (r: nat)
    ensures r < 4
  {
    if f.Text? then (|f.chars| + 3) % 4 else 0
  }

  /** Whether there are any, and so a word behind the header changes. */
  function Spills(f: BankFormat): nat {
    if Spill(f) > 0 then 1 else 0
  }

  /** What of three blanks behind a text its words have no room for; other formats have none. */
  lemma SpillIs(f: BankFormat)
    ensures if f.Text? then
              |f.chars| + 3 == 4 * |TextWords(f.chars)| + Spill(f) && (Spill(f) == 0 <==> |f.chars| % 4 == 1)
            else Spill(f) == 0
  {
  }

  /** A word with blanks in its first bytes. */
  function WithBlanks(x: int, r: nat): int
    requires r < 4
  {
    x - x % Weight(r) + 0x20202020 % Weight(r)
  }

  const FMTSIZE := 61

  /** A format whose text and three blanks have room in the writer's buffer of characters. */
  predicate FormatFits(f: BankFormat) {
    match f
    case NoFormat => true
    case Bits(code) => 1 <= code <= 3
    case Text(chars) => |chars| + 3 <= FMTSIZE
  }

  /** The format words of a header, by way of a buffer of characters (boswrite.c:89-115). */
  method FormatHeader(f: BankFormat) returns (words: seq<int>)
    requires FormatFits(f)
    ensures words == TextWords(FormatChars(f)) && |words| <= 15
  {
    var fmt := new int[FMTSIZE];
    var chars := FormatChars(f);
    var nch := 0;
    while nch < |chars|
      invariant 0 <= nch <= |chars| && forall k :: 0 <= k < nch ==> fmt[k] == chars[k]
    {
      fmt[nch] := chars[nch];
      nch := nch + 1;
    }
    if f.Text? {
      fmt[nch], fmt[nch + 1], fmt[nch + 2] := BLANKCHAR, BLANKCHAR, BLANKCHAR;
      nch := (nch + 3) / 4 * 4;
    }
    assert nch == (|chars| + 3) / 4 * 4 < |chars| + 4;
    words := WordsOf(fmt, nch, chars);
  }

  /** The characters in words. */
  method WordsOf(fmt: array<int>, nch: nat, ghost chars: seq<int>) returns (words: seq<int>)
    requires nch == (|chars| + 3) / 4 * 4 <= fmt.Length && forall k :: 0 <= k < nch ==> fmt[k] == TextByte(chars, k)
    ensures words == TextWords(chars)
  {
    words := [];
    var i := 0;
    while 4 * i < nch
      invariant 0 <= i && 4 * i <= nch && words == TextWords(chars)[..i]
    {
      words := words + [FourBytes(fmt[4 * i], fmt[4 * i + 1], fmt[4 * i + 2], fmt[4 * i + 3])];
      i := i + 1;
    }
  }

  // ---- Byte by byte ----------------------------------------------------------------------------------------

  lemma TopBytes(x: int, j: nat)
    requires j < 3
    ensures ByteOf(x, j + 1) == ByteOf(x / 0x100, j)
  {
    NextByte(x % 0x100, x / 0x100, j);
  }

  /** One byte is zero, the others are as they were. */
  lemma {:induction false} NulThere(x: int, j: nat, i: nat)
    requires j < 4 && i < 4
    ensures ByteOf(WithoutByte(x, j), i) == if i == j then 0 else ByteOf(x, i)
    decreases j
  {
    hide ByteOf;
    var y := x / 0x100;
    if j == 0 {
      LowByte(x % 0x100, y);
      LowByte(0, y);
      assert ByteOf(x, 0) == x % 0x100;
      if i > 0 { NextByte(0, y, i - 1); TopBytes(x, i - 1); }
    } else {
      TopBytes(x, j - 1);
      var z := WithoutByte(y, j - 1);
      assert WithoutByte(x, j) == x % 0x100 + 0x100 * z;
      LowByte(x % 0x100, y);
      LowByte(x % 0x100, z);
      if i > 0 {
        NulThere(y, j - 1, i - 1);
        NextByte(x % 0x100, z, i - 1);
        TopBytes(x, i - 1);
      }
    }
  }

  lemma BlanksNext(x: int, r: nat)
    requires r < 4
    ensures WithBlanks(x, r) == if r == 0 then x else 32 + 0x100 * WithBlanks(x / 0x100, r - 1)
  {
    hide WithBlanks;
    if r <= 1 { BlanksOne(x); } else if r == 2 { BlanksTwo(x); } else { BlanksThree(x); }
  }

  lemma BlanksOne(x: int)
    ensures WithBlanks(x, 0) == x && WithBlanks(x, 1) == 32 + 0x100 * WithBlanks(x / 0x100, 0)
  {
    assert WithBlanks(x / 0x100, 0) == x / 0x100;
  }

  lemma BlanksTwo(x: int)
    ensures WithBlanks(x, 2) == 32 + 0x100 * WithBlanks(x / 0x100, 1)
  {
    var a, y := x % 0x100, x / 0x100;
    assert x % 0x10000 == a + 0x100 * (y % 0x100);
  }

  lemma BlanksThree(x: int)
    ensures WithBlanks(x, 3) == 32 + 0x100 * WithBlanks(x / 0x100, 2)
  {
    var a, y := x % 0x100, x / 0x100;
    assert x % 0x1000000 == a + 0x100 * (y % 0x10000);
  }

  /** The first bytes are blanks, the others are as they were. */
  lemma {:induction false} BlanksThere(x: int, r: nat, i: nat)
    requires r < 4 && i < 4
    ensures ByteOf(WithBlanks(x, r), i) == if i < r then 32 else ByteOf(x, i)
    decreases r
  {
    hide ByteOf, WithBlanks;
    if r == 0 {
      BlanksNext(x, 0);
    } else {
      var y, z := x / 0x100, WithBlanks(x / 0x100, r - 1);
      BlanksNext(x, r);
      LowByte(32, z);
      if i > 0 {
        BlanksThere(y, r - 1, i - 1);
        NextByte(32, z, i - 1);
        TopBytes(x, i - 1);
      }
    }
  }

  // ---- What the NUL does to the data -----------------------------------------------------------------------

  /** The data behind a header after the text has been ended. */
  function Clipped(fmt: seq<int>, data: seq<int>): (r: seq<int>)
    ensures |r| == |data|
  {
    if Stops(fmt) || data == [] then data else data[0 := WithoutByte(data[0], 0)]
  }

  /** When the data are not touched. */
  predicate Spared(fmt: seq<int>, data: seq<int>) {
    Stops(fmt) || data == [] || ByteOf(data[0], 0) == 0
  }

  lemma SparedIff(fmt: seq<int>, data: seq<int>)
    ensures Clipped(fmt, data) == data <==> Spared(fmt, data)
  {
  }
}
