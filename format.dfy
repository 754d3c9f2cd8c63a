/**
 * The text the default reporters of src/result.c print: the `%02d`, `%08x`
 * and `%s` conversions of fprintf (section 7.21.6.1 of ISO/IEC 9899:2011)
 * as pure string functions, the UTC clock reading, and the two line headers.
 * A parser for the log header is the partner that shows the header loses
 * nothing: it gives back the clock, the result and the bracketed tag.
 */
module Format {
  import opened Options
  import opened Results

  predicate IsDecDigit(c: char) { '0' <= c <= '9' }

  predicate IsLowerHexDigit(c: char) { '0' <= c <= '9' || 'a' <= c <= 'f' }

  predicate AllDec(s: string) { forall i :: 0 <= i < |s| ==> IsDecDigit(s[i]) }

  predicate AllHex(s: string) { forall i :: 0 <= i < |s| ==> IsLowerHexDigit(s[i]) }

  /** The value of one decimal or lowercase hexadecimal digit. */
  function DigitValue(c: char): (d: nat)
    requires IsLowerHexDigit(c)
    ensures d < 16
    ensures IsDecDigit(c) <==> d < 10
  {
    if c <= '9' then c as int - '0' as int else c as int - 'a' as int + 10
  }

  /** The digit for `d`, with lowercase letters above nine as `%x` prints them. */
  function DigitChar(d: nat): (c: char)
    requires d < 16
    ensures IsLowerHexDigit(c) && DigitValue(c) == d
  {
    if d < 10 then ('0' as int + d) as char else ('a' as int + d - 10) as char
  }

  /** The number a string of decimal digits denotes, most significant first. */
  function DecimalValue(s: string): nat
    requires AllDec(s)
  {
    if s == [] then 0 else DecimalValue(s[..|s| - 1]) * 10 + DigitValue(s[|s| - 1])
  }

  /** The number a string of lowercase hexadecimal digits denotes. */
  function HexValue(s: string): nat
    requires AllHex(s)
  {
    if s == [] then 0 else HexValue(s[..|s| - 1]) * 16 + DigitValue(s[|s| - 1])
  }

  /**
   * `%d` of a non-negative value, and the `LURK_LINE_STRING` of include/lurk.h
   * (a stringized `__LINE__`): the shortest digit string of `n`.
   */
  function Decimal(n: nat): (s: string)
    ensures AllDec(s) && DecimalValue(s) == n
    ensures |s| >= 1 && (|s| > 1 ==> s[0] != '0')
    ensures n < 10 <==> |s| == 1
    ensures n < 100 <==> |s| <= 2
    decreases n
  {
    if n < 10 then
      [DigitChar(n)]
    else
      var s := Decimal(n / 10) + [DigitChar(n % 10)];
      assert s[..|s| - 1] == Decimal(n / 10);
      s
  }

  /** `%02d`: at least two digits, zero-padded on the left; wider values are not cut. */
  function Pad2(n: nat): (s: string)
    ensures AllDec(s) && DecimalValue(s) == n
    ensures n < 100 <==> |s| == 2
    ensures |s| >= 2
  {
    if n < 10 then
      var s := "0" + Decimal(n);
      assert s[..1] == "0";
      s
    else
      Decimal(n)
  }

  function Pow16(k: nat): (p: nat)
    ensures p >= 1
  {
    if k == 0 then 1 else 16 * Pow16(k - 1)
  }

  lemma Pow16Eight()
    ensures Pow16(8) == 0x1_0000_0000
  {
  }

  /** A positive multiple of a positive number is at least that number. */
  lemma {:induction false} MulAtLeast(m: int, k: int)
    requires m > 0 && k >= 1
    ensures m * k >= m
  {
    if k > 1 {
      MulAtLeast(m, k - 1);
      assert m * k == m * (k - 1) + m;
    }
  }

  /** Euclidean division has one quotient and one remainder. */
  lemma DivModUnique(v: int, m: int, q: int, y: int)
    requires m > 0 && v == m * q + y && 0 <= y < m
    ensures v / m == q && v % m == y
  {
    var q', y' := v / m, v % m;
    assert v == m * q' + y';
    assert m * (q - q') == y' - y by {
      assert m * (q - q') == m * q - m * q';
    }
    if q > q' {
      MulAtLeast(m, q - q');
    } else if q < q' {
      MulAtLeast(m, q' - q);
    }
  }

  /** Dropping the last hexadecimal digit and putting it back. */
  lemma ShiftMod(v: nat, p: nat)
    requires p >= 1
    ensures (v / 16) % p * 16 + v % 16 == v % (16 * p)
  {
    var q, d := v / 16, v % 16;
    var a, b := q / p, q % p;
    assert v == (16 * p) * a + (16 * b + d) by {
      assert v == 16 * q + d;
      assert q == p * a + b;
      assert 16 * q == 16 * (p * a) + 16 * b;
    }
    DivModUnique(v, 16 * p, a, 16 * b + d);
  }

  /** The `k` least significant hexadecimal digits of `v`, most significant first. */
  function HexDigits(v: nat, k: nat): (s: string)
    ensures |s| == k && AllHex(s)
    ensures HexValue(s) == v % Pow16(k)
  {
    if k == 0 then
      []
    else
      var s := HexDigits(v / 16, k - 1) + [DigitChar(v % 16)];
      assert s[..|s| - 1] == HexDigits(v / 16, k - 1);
      ShiftMod(v, Pow16(k - 1));
      s
  }

  /** A hexadecimal string of `k` digits denotes less than `16^k`. */
  lemma {:induction false} HexValueBound(s: string)
    requires AllHex(s)
    ensures HexValue(s) < Pow16(|s|)
  {
    if s != [] {
      HexValueBound(s[..|s| - 1]);
    }
  }

  /** The unsigned int that `%x` reads a `result_t` as: its 32-bit two's complement. */
  function Unsigned32(r: Int32): (u: nat)
    ensures u < 0x1_0000_0000
    ensures r >= 0 ==> u == r
    ensures r < 0 ==> u == r + 0x1_0000_0000
  {
    r % 0x1_0000_0000
  }

  /** The signed value a 32-bit pattern stands for. */
  function Signed32(u: nat): Int32
    requires u < 0x1_0000_0000
  {
    if u < 0x8000_0000 then u else u - 0x1_0000_0000
  }

  /** `%08x` of a `result_t`: eight lowercase hexadecimal digits. */
  function Hex8(r: Int32): (s: string)
    ensures |s| == 8 && AllHex(s)
  {
    HexDigits(Unsigned32(r), 8)
  }

  /**
   * The eight digits denote the 32-bit two's complement of the result, and
   * give the signed result back.
   */
  lemma Hex8RoundTrip(r: Int32)
    ensures HexValue(Hex8(r)) == Unsigned32(r)
    ensures Signed32(HexValue(Hex8(r))) == r
  {
    Pow16Eight();
  }

  /** All ones in `k` digits prints as `k` letters f. */
  lemma {:induction false} HexDigitsAllOnes(k: nat)
    ensures HexDigits(Pow16(k) - 1, k) == seq(k, _ => 'f')
  {
    if k > 0 {
      var p := Pow16(k - 1);
      DivModUnique(Pow16(k) - 1, 16, p - 1, 15);
      HexDigitsAllOnes(k - 1);
      assert DigitChar(15) == 'f';
      assert seq(k - 1, _ => 'f') + ['f'] == seq(k, _ => 'f');
    }
  }

  /** `%08x` of -1, for example, a negative result. */
  lemma Hex8MinusOne()
    ensures Hex8(-1) == "ffffffff"
  {
    Pow16Eight();
    HexDigitsAllOnes(8);
    assert Unsigned32(-1) == Pow16(8) - 1;
  }

  /** Zero prints as `k` zero digits. */
  lemma {:induction false} HexDigitsZero(k: nat)
    ensures HexDigits(0, k) == seq(k, _ => '0')
  {
    if k > 0 {
      HexDigitsZero(k - 1);
      assert DigitChar(0) == '0';
      assert seq(k - 1, _ => '0') + ['0'] == seq(k, _ => '0');
    }
  }

  /** A value below sixteen prints as zeros and one last digit. */
  lemma HexDigitsSmall(v: nat, k: nat)
    requires v < 16 && k >= 1
    ensures HexDigits(v, k) == seq(k - 1, _ => '0') + [DigitChar(v)]
  {
    assert v / 16 == 0 && v % 16 == v;
    assert HexDigits(v, k) == HexDigits(0, k - 1) + [DigitChar(v)];
    HexDigitsZero(k - 1);
  }

  /** `%08x` of 1 (`RESULT_FAILURE`), for example, a status. */
  lemma Hex8One()
    ensures Hex8(1) == "00000001"
  {
    HexDigitsSmall(1, 8);
  }

  type Hour = h: nat | h < 24
  type Minute = m: nat | m < 60
  /** Up to 60 to allow a leap second, as `struct tm` does. */
  type Second = s: nat | s <= 60

  /** The broken-down UTC time of day the reporters print. */
  datatype Clock = Clock(hour: Hour, minute: Minute, second: Second)

  /**
   * `get_time`: the `gmtime` reading, or the all-zero `struct tm` when
   * `gmtime` fails (`None`).
   */
  function ClockOf(reading: Option<Clock>): (c: Clock)
    ensures reading.Some? ==> c == reading.value
    ensures reading.None? ==> c.hour == 0 && c.minute == 0 && c.second == 0
  {
    reading.GetOr(Clock(0, 0, 0))
  }

  /** `"%02d:%02d:%02d"` of the clock: always eight characters. */
  function TimeField(t: Clock): (s: string)
    ensures |s| == 8 && s[2] == ':' && s[5] == ':'
  {
    var h, m, c := Pad2(t.hour), Pad2(t.minute), Pad2(t.second);
    [h[0], h[1], ':', m[0], m[1], ':', c[0], c[1]]
  }

  /** Each two-digit field of the time reads back as the clock's value. */
  lemma TimeFieldDigits(t: Clock)
    ensures var s := TimeField(t);
      && AllDec(s[0..2]) && DecimalValue(s[0..2]) == t.hour
      && AllDec(s[3..5]) && DecimalValue(s[3..5]) == t.minute
      && AllDec(s[6..8]) && DecimalValue(s[6..8]) == t.second
  {
    var s := TimeField(t);
    assert s[0..2] == Pad2(t.hour) && s[3..5] == Pad2(t.minute) && s[6..8] == Pad2(t.second);
  }

  /** The header `log_default` prints before the message: `HH:MM:SS  %08x  [tag]  `. */
  function LogHeader(t: Clock, r: Int32, tag: string): (h: string)
    ensures |h| == 24 + |tag|
  {
    TimeField(t) + "  " + Hex8(r) + "  [" + tag + "]  "
  }

  /** The header `err_default` prints: `HH:MM:SS  %08x  [projname:caller.loc]  `. */
  function ErrHeader(t: Clock, r: Int32, projname: string, caller: string, loc: string): (h: string)
    ensures |h| == 26 + |projname| + |caller| + |loc|
  {
    TimeField(t) + "  " + Hex8(r) + "  [" + projname + ":" + caller + "." + loc + "]  "
  }

  /** The error header is the log header whose tag is `projname:caller.loc`. */
  lemma ErrHeaderIsLogHeader(t: Clock, r: Int32, projname: string, caller: string, loc: string)
    ensures ErrHeader(t, r, projname, caller, loc) == LogHeader(t, r, projname + ":" + caller + "." + loc)
  {
  }

  /** What a header carries: the clock, the result and the bracketed tag. */
  datatype HeaderFields = HeaderFields(clock: Clock, result: Int32, tag: string)

  /** Reads a header back; `None` for text that no header can be. */
  function ParseHeader(h: string): (f: Option<HeaderFields>)
    ensures f.Some? ==> |h| == 24 + |f.value.tag|
  {
    if |h| < 24 then None
    else if !(AllDec(h[0..2]) && h[2] == ':' && AllDec(h[3..5]) && h[5] == ':' && AllDec(h[6..8])
              && h[8..10] == "  " && AllHex(h[10..18]) && h[18..21] == "  [" && h[|h| - 3..] == "]  ")
    then None
    else
      var hour, minute, second := DecimalValue(h[0..2]), DecimalValue(h[3..5]), DecimalValue(h[6..8]);
      if hour < 24 && minute < 60 && second <= 60 then
        HexValueBound(h[10..18]);
        Pow16Eight();
        Some(HeaderFields(Clock(hour, minute, second), Signed32(HexValue(h[10..18])), h[21..|h| - 3]))
      else
        None
  }

  /** The log header round-trips: clock, result and tag come back unchanged. */
  lemma LogHeaderRoundTrip(t: Clock, r: Int32, tag: string)
    ensures ParseHeader(LogHeader(t, r, tag)) == Some(HeaderFields(t, r, tag))
  {
    var h := LogHeader(t, r, tag);
    var time := TimeField(t);
    TimeFieldDigits(t);
    Hex8RoundTrip(r);
    assert h[0..8] == time;
    assert h[0..2] == time[0..2];
    assert h[3..5] == time[3..5];
    assert h[6..8] == time[6..8];
    assert h[8..10] == "  ";
    assert h[10..18] == Hex8(r);
    assert h[18..21] == "  [";
    assert h[21..|h| - 3] == tag;
    assert h[|h| - 3..] == "]  ";
  }

  /**
   * The error header round-trips too: its tag comes back as
   * `projname:caller.loc`.
   */
  lemma ErrHeaderRoundTrip(t: Clock, r: Int32, projname: string, caller: string, loc: string)
    ensures ParseHeader(ErrHeader(t, r, projname, caller, loc))
         == Some(HeaderFields(t, r, projname + ":" + caller + "." + loc))
  {
    ErrHeaderIsLogHeader(t, r, projname, caller, loc);
    LogHeaderRoundTrip(t, r, projname + ":" + caller + "." + loc);
  }
}
