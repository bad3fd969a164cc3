/** The field printers of the owner text (`push_decimal`, `push_padded`, `hex_0x_lower`,
    `push_utc`), each with the reader that undoes it. A byte of the text is its character. */
module Printing {
  import opened Numbers
  import opened Wrappers
  import opened Scaling
  import Calendar

  newtype byte = x: int | 0 <= x < 256

  /** A 32-byte word: an account, a key commitment, a registry id, an ABI-encoded number. */
  type Word = w: seq<byte> | |w| == 32 witness seq(32, _ => 0)

  /** The growing text (`soroban_sdk::Bytes`). */
  class Buffer {
    var data: string

    constructor ()
      ensures data == ""
    {
      data := "";
    }

    method Extend(s: string)
      modifies this
      ensures data == old(data) + s
    {
      data := data + s;
    }
  }

  // ---- decimal ----

  function Digit(d: nat): (c: char)
    requires d < 10
    ensures IsDigit(c) && DigitValue(c) == d
  {
    '0' + d as char
  }

  predicate IsDigit(c: char) {
    '0' <= c <= '9'
  }

  function DigitValue(c: char): nat
    requires IsDigit(c)
  {
    (c - '0') as nat
  }

  function Decimal(v: nat): (s: string)
    ensures |s| > 0
  {
    if v < 10 then [Digit(v)] else Decimal(v / 10) + [Digit(v % 10)]
  }

  /** The length of the digits at the front of a text. */
  function DigitRun(s: string): (n: nat)
    ensures n <= |s| && forall i :: 0 <= i < n ==> IsDigit(s[i])
    ensures n < |s| ==> !IsDigit(s[n])
  {
    if s == "" || !IsDigit(s[0]) then 0 else 1 + DigitRun(s[1..])
  }

  function ReadDigits(s: string): nat
    requires forall i :: 0 <= i < |s| ==> IsDigit(s[i])
  {
    if s == "" then 0 else 10 * ReadDigits(s[..|s| - 1]) + DigitValue(s[|s| - 1])
  }

  /** Reads a number at the front: its value and what follows it. */
  function ReadDecimal(s: string): Option<(nat, string)> {
    var n := DigitRun(s);
    if n == 0 then None else Some((ReadDigits(s[..n]), s[n..]))
  }

  lemma {:induction false} DecimalDigits(v: nat)
    ensures forall i :: 0 <= i < |Decimal(v)| ==> IsDigit(Decimal(v)[i])
    ensures ReadDigits(Decimal(v)) == v
  {
    if v >= 10 {
      DecimalDigits(v / 10);
      var s := Decimal(v);
      assert s[..|s| - 1] == Decimal(v / 10);
    }
  }

  /** A printed number reads back, whatever non-digit follows it. */
  lemma DecimalReadsBack(v: nat, rest: string)
    requires rest == "" || !IsDigit(rest[0])
    ensures ReadDecimal(Decimal(v) + rest) == Some((v, rest))
  {
    DecimalDigits(v);
    var s, n := Decimal(v) + rest, |Decimal(v)|;
    DigitRunEnds(s, n);
    assert s[..n] == Decimal(v) && s[n..] == rest;
  }

  lemma {:induction false} DigitRunEnds(s: string, n: nat)
    requires n <= |s| && forall i :: 0 <= i < n ==> IsDigit(s[i])
    requires n < |s| ==> !IsDigit(s[n])
    ensures DigitRun(s) == n
  {
    if n > 0 {
      DigitRunEnds(s[1..], n - 1);
    }
  }

  /** How many digits a number takes. */
  lemma {:induction false} DecimalLength(v: nat, k: nat)
    requires k > 0
    ensures |Decimal(v)| <= k <==> v < Pow10(k)
  {
    if v >= 10 {
      if k == 1 {
        assert Pow10(1) == 10;
      } else {
        DecimalLength(v / 10, k - 1);
      }
    } else {
      Pow10Monotone(1, k);
    }
  }

  lemma PowersOfTen()
    ensures Pow10(9) == 1_000_000_000 && Pow10(10) == 10_000_000_000
  {
    assert Pow10(5) == 100_000;
    Pow10Add(5, 4);
    Pow10Add(5, 5);
  }

  lemma Pow39()
    ensures U128_MAX < Pow10(39)
  {
    PowersOfTen();
    Pow10Add(10, 10);
    Pow10Add(20, 10);
    Pow10Add(30, 9);
  }

  /** The longest decimal of a u128 has 39 digits: the array never overflows. */
  lemma DecimalFits(v: nat)
    requires v <= U128_MAX
    ensures |Decimal(v)| <= 39
  {
    Pow39();
    DecimalLength(v, 39);
  }

  /** `push_decimal`: fills a 39-byte array backwards, then appends the filled end. */
  method PushDecimal(t: Buffer, v: nat)
    requires v <= U128_MAX
    modifies t
    ensures t.data == old(t.data) + Decimal(v)
  {
    DecimalFits(v);
    var buf := new char[39];
    var i, w := 39, v;
    while true
      invariant 0 <= i <= 39 && |Decimal(w)| <= i
      invariant Decimal(v) == Decimal(w) + buf[i..]
      invariant t.data == old(t.data)
      decreases w
    {
      i := i - 1;
      ghost var filled := buf[i + 1..];
      buf[i] := Digit(w % 10);
      assert buf[i..] == [Digit(w % 10)] + filled;
      assert Decimal(v) == if w < 10 then buf[i..] else Decimal(w / 10) + buf[i..];
      w := w / 10;
      if w == 0 {
        assert Decimal(v) == buf[i..];
        break;
      }
    }
    t.Extend(buf[i..]);
  }

  // ---- padded ----

  function Zeros(n: nat): string {
    seq(n, _ => '0')
  }

  function Padded(v: nat, width: nat): string {
    Zeros(SatSub(width, |Decimal(v)|)) + Decimal(v)
  }

  /** `push_padded`: zeros while the number is below the power its width needs. */
  method PushPadded(t: Buffer, v: nat, width: nat)
    requires 0 < width <= 39 && v <= U128_MAX
    modifies t
    ensures t.data == old(t.data) + Padded(v, width)
  {
    var p := Pow10(width - 1);
    ghost var zeros := 0;
    while v < p && p > 1
      invariant zeros < width && p == Pow10(width - 1 - zeros)
      invariant zeros > 0 ==> v < Pow10(width - zeros)
      invariant t.data == old(t.data) + Zeros(zeros)
      decreases p
    {
      t.Extend("0");
      p := p / 10;
      zeros := zeros + 1;
    }
    assert zeros == SatSub(width, |Decimal(v)|) by {
      var k := width - zeros;
      DecimalLength(v, k);
      if k > 1 {
        DecimalLength(v, k - 1);
      }
    }
    PushDecimal(t, v);
  }

  // ---- hex ----

  const ALPHABET: string := "0123456789abcdef"

  function HexDigit(n: nat): (c: char)
    requires n < 16
    ensures c == ALPHABET[n]
    ensures HexValue(c) == Some(n)
  {
    ALPHABET[n]
  }

  function HexValue(c: char): Option<nat> {
    if '0' <= c <= '9' then Some((c - '0') as nat)
    else if 'a' <= c <= 'f' then Some((c - 'a') as nat + 10)
    else None
  }

  function HexByte(b: byte): (s: string)
    ensures |s| == 2
  {
    [HexDigit(b as nat / 16), HexDigit(b as nat % 16)]
  }

  function HexBytes(w: seq<byte>): (s: string)
    ensures |s| == 2 * |w|
  {
    if w == [] then "" else HexByte(w[0]) + HexBytes(w[1..])
  }

  function ReadHexBytes(s: string): Option<seq<byte>> {
    if s == "" then Some([])
    else if |s| == 1 then None
    else
      match (HexValue(s[0]), HexValue(s[1]), ReadHexBytes(s[2..]))
      case (Some(hi), Some(lo), Some(rest)) =>
        if hi < 16 && lo < 16 then Some([(16 * hi + lo) as byte] + rest) else None
      case _ => None
  }

  lemma {:induction false} HexBytesReadBack(w: seq<byte>)
    ensures ReadHexBytes(HexBytes(w)) == Some(w)
  {
    if w != [] {
      HexBytesReadBack(w[1..]);
      var s := HexBytes(w);
      assert s[2..] == HexBytes(w[1..]);
      assert [w[0]] + w[1..] == w;
    }
  }

  /** "0x" and 64 lower-case digits. */
  function Hex(w: Word): (s: string)
    ensures |s| == 66
  {
    "0x" + HexBytes(w)
  }

  /** Reads a word at the front: its bytes and what follows it. */
  function ReadHex(s: string): Option<(Word, string)> {
    if |s| < 66 || s[..2] != "0x" then None
    else
      match ReadHexBytes(s[2..66])
      case Some(w) => if |w| == 32 then Some((w, s[66..])) else None
      case None => None
  }

  lemma HexReadsBack(w: Word, rest: string)
    ensures ReadHex(Hex(w) + rest) == Some((w, rest))
  {
    HexBytesReadBack(w);
    var s := Hex(w) + rest;
    assert s[..2] == "0x" && s[2..66] == HexBytes(w) && s[66..] == rest;
  }

  lemma {:induction false} HexBytesSnoc(w: seq<byte>, b: byte)
    ensures HexBytes(w + [b]) == HexBytes(w) + HexByte(b)
  {
    if w == [] {
      assert [b][1..] == [];
    } else {
      HexBytesSnoc(w[1..], b);
      assert (w + [b])[1..] == w[1..] + [b];
    }
  }

  lemma HexPrefixGrows(w: Word, i: nat)
    requires i < 32
    ensures "0x" + HexBytes(w[..i + 1]) == "0x" + HexBytes(w[..i]) + HexByte(w[i])
  {
    assert w[..i + 1] == w[..i] + [w[i]];
    HexBytesSnoc(w[..i], w[i]);
  }

  /** `hex_0x_lower`: two table reads a byte into a 66-character array. */
  method HexLower(w: Word) returns (out: array<char>)
    ensures fresh(out) && out[..] == Hex(w)
  {
    out := new char[66];
    out[0] := '0';
    out[1] := 'x';
    for i := 0 to 32
      invariant out[..2 + 2 * i] == "0x" + HexBytes(w[..i])
    {
      out[2 + i * 2] := ALPHABET[w[i] as nat / 16];
      out[3 + i * 2] := ALPHABET[w[i] as nat % 16];
      HexPrefixGrows(w, i);
      assert out[..4 + 2 * i] == out[..2 + 2 * i] + HexByte(w[i]);
    }
    assert w[..32] == w;
    assert out[..] == out[..66];
  }

  // ---- date and time ----

  lemma Associates(a: string, b: string, c: string)
    ensures a + b + c == a + (b + c)
  {
  }

  /** "YYYY-MM-DD HH:MM:SS UTC" of a Unix time, the date taken from the day-by-day calendar. */
  function Utc(unix: nat): string {
    DateText(Calendar.DateAfter(unix / 86_400)) + " " + Time(unix % 86_400) + " UTC"
  }

  function DateText(d: Calendar.Date): string {
    Padded(d.year, 4) + "-" + Padded(d.month, 2) + "-" + Padded(d.day, 2)
  }

  function Time(sod: nat): string {
    Padded(sod / 3_600, 2) + ":" + Padded(sod % 3_600 / 60, 2) + ":" + Padded(sod % 60, 2)
  }

  /** `push_utc`: the era arithmetic, then each field appended padded. */
  method PushUtc(t: Buffer, unix: nat)
    requires unix <= U64_MAX
    modifies t
    ensures t.data == old(t.data) + Utc(unix)
  {
    var days, sod := unix / 86_400, unix % 86_400;
    var y, mo, d := EraDate(days);
    ghost var date := Calendar.DateAfter(days);
    PushFields(t, y, mo, d, "-", 4);
    t.Extend(" ");
    Associates(old(t.data), DateText(date), " ");
    PushFields(t, sod / 3_600, sod % 3_600 / 60, sod % 60, ":", 2);
    Associates(old(t.data), DateText(date) + " ", Time(sod));
    t.Extend(" UTC");
    Associates(old(t.data), DateText(date) + " " + Time(sod), " UTC");
  }

  /** Three padded numbers with a separator. */
  method PushFields(t: Buffer, a: nat, b: nat, c: nat, sep: string, width: nat)
    requires a <= U128_MAX && b <= U128_MAX && c <= U128_MAX && 0 < width <= 39
    modifies t
    ensures t.data == old(t.data) + (Padded(a, width) + sep + Padded(b, 2) + sep + Padded(c, 2))
  {
    PushPadded(t, a, width);
    t.Extend(sep);
    Associates(old(t.data), Padded(a, width), sep);
    PushPadded(t, b, 2);
    Associates(old(t.data), Padded(a, width) + sep, Padded(b, 2));
    t.Extend(sep);
    Associates(old(t.data), Padded(a, width) + sep + Padded(b, 2), sep);
    PushPadded(t, c, 2);
    Associates(old(t.data), Padded(a, width) + sep + Padded(b, 2) + sep, Padded(c, 2));
  }

  method EraDate(days: nat) returns (y: nat, mo: nat, d: nat)
    requires days <= U64_MAX
    ensures Calendar.Date(y, mo, d) == Calendar.DateAfter(days)
    ensures y <= U128_MAX && mo <= 12 && d <= 31
  {
    var era, doe := EraDay(days);
    var yoe, doy := EraYear(doe);
    y, mo, d := MarchDate(yoe + era * 400, doy);
    Calendar.PrinterIsCalendar(days);
  }

  method EraDay(days: nat) returns (era: nat, doe: nat)
    ensures era == Calendar.Era(days) <= days + 5 && doe == Calendar.DayOfEra(days)
  {
    var z := days + 719_468;
    era := z / 146_097;
    doe := z - era * 146_097;
  }

  method EraYear(doe: nat) returns (yoe: nat, doy: nat)
    requires doe < 146_097
    ensures (yoe, doy) == Calendar.DayInEra(doe)
  {
    Calendar.EraParts(doe);
    yoe := (doe - doe / 1_460 + doe / 36_524 - doe / 146_096) / 365;
    doy := doe - (365 * yoe + yoe / 4 - yoe / 100);
  }

  method MarchDate(year: nat, doy: nat) returns (y: nat, mo: nat, d: nat)
    requires doy <= 365
    ensures Calendar.Date(y, mo, d) == Calendar.FromMarch(year, doy)
    ensures y <= year + 1 && mo <= 12 && d <= 31
  {
    Calendar.MonthFromDayOfYear(doy);
    var mp := (5 * doy + 2) / 153;
    d := doy - (153 * mp + 2) / 5 + 1;
    mo := if mp < 10 then mp + 3 else mp - 9;
    y := year + (if mo <= 2 then 1 else 0);
  }
}
