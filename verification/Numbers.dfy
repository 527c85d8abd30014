/** Printing a number with fixed decimals, and reading it back. */
module Numbers {
  import opened Reals
  import opened Results

  function Pow10(n: nat): nat {
    if n == 0 then 1 else 10 * Pow10(n - 1)
  }

  lemma {:induction false} Pow10Positive(n: nat)
    ensures 0 < Pow10(n)
  {
    if 0 < n {
      Pow10Positive(n - 1);
    }
  }

  /** Decimal digit `i` of `a`, counted from the least significant. */
  function DigitAt(a: nat, i: nat): nat {
    Shifted(a, i) % 10
  }

  /** `a` without its last `i` digits. */
  function Shifted(a: nat, i: nat): nat {
    if i == 0 then a else Shifted(a, i - 1) / 10
  }

  function DigitChar(k: nat): char
    requires k < 10
  {
    '0' + k as char
  }

  // ---------------------------------------------------------------------------------------------
  // Printing

  /** The whole number that is printed: `n` scaled to its decimals and rounded half away from zero. */
  function ScaledMagnitude(n: real, decimals: nat): (a: nat)
    ensures -0.5 <= a as real - Magnitude(n) * Pow10(decimals) as real <= 0.5
  {
    Pow10Positive(decimals);
    ScaledNonNegative(Magnitude(n), Pow10(decimals) as real);
    (Magnitude(n) * Pow10(decimals) as real + 0.5).Floor
  }

  lemma ScaledNonNegative(x: real, y: real)
    requires 0.0 <= x && 0.0 <= y
    ensures 0.0 <= x * y
  {
  }

  /** Number of digits of `a`; none for zero. */
  function Length(a: nat): nat {
    if a == 0 then 0 else 1 + Length(a / 10)
  }

  /** Number of digits printed: at least one before the decimal point. */
  function Width(a: nat, decimals: nat): nat {
    if Length(a) <= decimals then decimals + 1 else Length(a)
  }

  /** What is printed of the digits from the first down to number `i`, the point before the decimals included. */
  function Emitted(a: nat, decimals: nat, width: nat, i: nat): string
    decreases width - i
  {
    if width <= i then ""
    else Emitted(a, decimals, width, i + 1) + (if i + 1 == decimals then "." else "") + [DigitChar(DigitAt(a, i))]
  }

  function Printed(n: real, decimals: nat): string {
    var a := ScaledMagnitude(n, decimals);
    (if n < 0.0 then "-" else "") + Emitted(a, decimals, Width(a, decimals), 0)
  }

  lemma {:induction false} LengthDrops(a: nat, i: nat)
    ensures Shifted(a, i) == 0 <==> Length(a) <= i
    ensures i <= Length(a) ==> Length(Shifted(a, i)) == Length(a) - i
  {
    if 0 < i {
      LengthDrops(a, i - 1);
    }
  }

  /** Prints a number: its digits go into a small buffer, last one first, and come out backwards. */
  method PrintFloat(n: real, decimals: nat) returns (out: string)
    requires decimals <= 12 && ScaledMagnitude(n, decimals) < 0x8000_0000
    ensures out == Printed(n, decimals)
  {
    var a := RoundedUnits(n, decimals);
    out := if n < 0.0 then "-" else "";
    var buf := new char[13];
    var i := GenerateDigits(a, decimals, buf);
    var digits := EmitDigits(a, decimals, buf, i);
    out := out + digits;
  }

  /** Digits, last one first, with zeros up to the decimal point and one before it. */
  method GenerateDigits(whole: nat, decimals: nat, buf: array<char>) returns (i: nat)
    requires buf.Length == 13 && decimals <= 12 && whole < 0x8000_0000
    modifies buf
    ensures i == Width(whole, decimals) <= 13
    ensures forall j :: 0 <= j < i ==> buf[j] == DigitChar(DigitAt(whole, j))
  {
    var a := whole;
    i := 0;
    LengthDrops(whole, 0);
    TenDigits(whole);
    while 0 < a
      invariant i <= Length(whole) && a == Shifted(whole, i)
      invariant forall j :: 0 <= j < i ==> buf[j] == DigitChar(DigitAt(whole, j))
      decreases a
    {
      LengthDrops(whole, i);
      buf[i] := DigitChar(a % 10);
      i := i + 1;
      a := a / 10;
    }
    LengthDrops(whole, i);
    i := FillZeros(whole, decimals, buf, i);
  }

  method FillZeros(whole: nat, decimals: nat, buf: array<char>, from: nat) returns (i: nat)
    requires buf.Length == 13 && decimals <= 12 && Length(whole) == from <= 10
    requires forall j :: 0 <= j < from ==> buf[j] == DigitChar(DigitAt(whole, j))
    modifies buf
    ensures i == Width(whole, decimals) <= 13
    ensures forall j :: 0 <= j < i ==> buf[j] == DigitChar(DigitAt(whole, j))
  {
    i := from;
    while i < decimals
      invariant from <= i && (i <= decimals || i == from)
      invariant forall j :: 0 <= j < i ==> buf[j] == DigitChar(DigitAt(whole, j))
    {
      LengthDrops(whole, i);
      buf[i] := '0';
      i := i + 1;
    }
    if i == decimals {
      LengthDrops(whole, i);
      buf[i] := '0';
      i := i + 1;
    }
  }

  method EmitDigits(whole: nat, decimals: nat, buf: array<char>, width: nat) returns (out: string)
    requires width <= buf.Length
    requires forall j :: 0 <= j < width ==> buf[j] == DigitChar(DigitAt(whole, j))
    ensures out == Emitted(whole, decimals, width, 0)
  {
    out := "";
    var i: nat := width;
    while 0 < i
      invariant i <= width
      invariant out == Emitted(whole, decimals, width, i)
    {
      if i == decimals {
        out := out + ".";
      }
      out := out + [buf[i - 1]];
      i := i - 1;
    }
  }

  lemma {:induction false} TenDigits(a: nat)
    requires a < 0x8000_0000
    ensures Length(a) <= 10
  {
    var i := 10;
    assert Shifted(a, 1) == a / 10;
    assert Shifted(a, 2) < 0x8000_0000 / 100 + 1;
    assert Shifted(a, 3) == Shifted(a, 2) / 10;
    assert Shifted(a, 4) == Shifted(a, 3) / 10 && Shifted(a, 5) == Shifted(a, 4) / 10;
    assert Shifted(a, 6) == Shifted(a, 5) / 10 && Shifted(a, 7) == Shifted(a, 6) / 10;
    assert Shifted(a, 8) == Shifted(a, 7) / 10 && Shifted(a, 9) == Shifted(a, 8) / 10
      && Shifted(a, 10) == Shifted(a, 9) / 10;
    LengthDrops(a, 10);
  }

  /** Scales to the decimals, two at a time. */
  method Scale(m: real, decimals: nat) returns (scaled: real)
    ensures scaled == m * Pow10(decimals) as real
  {
    scaled := m;
    var left: nat := decimals;
    while 2 <= left
      invariant left <= decimals
      invariant scaled * Pow10(left) as real == m * Pow10(decimals) as real
    {
      assert Pow10(left) == 100 * Pow10(left - 2);
      Hundred(scaled, Pow10(left - 2));
      scaled := scaled * 100.0;
      left := left - 2;
    }
    assert Pow10(0) == 1 && Pow10(1) == 10;
    if left != 0 {
      scaled := scaled * 10.0;
    }
  }

  lemma Hundred(x: real, p: nat)
    ensures x * (100 * p) as real == x * 100.0 * p as real
  {
    assert (100 * p) as real == 100.0 * p as real;
  }

  /** The magnitude in units of the last decimal. */
  method RoundedUnits(n: real, decimals: nat) returns (a: nat)
    ensures a == ScaledMagnitude(n, decimals)
  {
    var m := if n < 0.0 then -n else n;
    var scaled := Scale(m, decimals);
    ScaledNonNegative(Magnitude(n), Pow10(decimals) as real);
    a := (scaled + 0.5).Floor;
  }

  // ---------------------------------------------------------------------------------------------
  // Reading

  const MAX_INT_DIGITS := 8

  /** The number read so far: significant digits, decimal exponent, digits seen, and whether past the point. */
  datatype Scan = Scan(value: nat, exponent: int, digits: nat, decimal: bool)

  const NOTHING_READ := Scan(0, 0, 0, false)

  predicate IsDigit(c: char) {
    '0' <= c <= '9'
  }

  /** One character more: a digit, dropped beyond the eighth, or the first decimal point. */
  function Step(s: Scan, c: char): Option<Scan> {
    if IsDigit(c) then
      Some(if s.digits + 1 <= MAX_INT_DIGITS
           then Scan(10 * s.value + (c as int - '0' as int), if s.decimal then s.exponent - 1
             else s.exponent, s.digits + 1, s.decimal)
           else s.(exponent := if s.decimal then s.exponent else s.exponent + 1, digits := s.digits + 1))
    else if c == '.' && !s.decimal then Some(s.(decimal := true))
    else None
  }

  /** Reads as far as the number goes; the result counts the characters used. */
  function ScanFrom(line: string, i: nat, s: Scan): (Scan, nat)
    requires i <= |line|
    decreases |line| - i
  {
    if i == |line| then (s, i)
    else match Step(s, line[i])
      case None => (s, i)
      case Some(s') => ScanFrom(line, i + 1, s')
  }

  /** A power of ten, of either sign. */
  function PowerOfTen(e: int): real {
    Pow10Positive(if e < 0 then -e else e);
    if e < 0 then 1.0 / Pow10(-e) as real else Pow10(e) as real
  }

  /** A number with its decimal point moved by `e` places. */
  function PointMoved(f: real, e: int): real {
    f * PowerOfTen(e)
  }

  /** The value of what was read. */
  function ValueOf(s: Scan, negative: bool): real {
    var v := PointMoved(s.value as real, s.exponent);
    if negative then -v else v
  }

  /** What is read at `i`: the number and where the next character is, or nothing if there are no digits. */
  function Read(line: string, i: nat): Option<(real, nat)>
    requires i <= |line|
  {
    var negative := i < |line| && line[i] == '-';
    var j := if i < |line| && (line[i] == '-' || line[i] == '+') then i + 1 else i;
    var (s, k) := ScanFrom(line, j, NOTHING_READ);
    if s.digits == 0 then None else Some((ValueOf(s, negative), k))
  }

  method ReadFloat(line: string, i: nat) returns (r: Option<(real, nat)>)
    requires i <= |line|
    ensures r == Read(line, i)
  {
    var j := i;
    var negative := false;
    if j < |line| && line[j] == '-' {
      negative := true;
      j := j + 1;
    } else if j < |line| && line[j] == '+' {
      j := j + 1;
    }
    var s, k := ScanNumber(line, j);
    if s.digits == 0 {
      return None;
    }
    var f := ApplyExponent(s.value, s.exponent);
    return Some((if negative then -f else f, k));
  }

  /** The loop over the characters of the number. */
  method ScanNumber(line: string, start: nat) returns (s: Scan, j: nat)
    requires start <= |line|
    ensures (s, j) == ScanFrom(line, start, NOTHING_READ)
  {
    var value: nat, exponent: int, digits: nat, decimal := 0, 0, 0, false;
    j := start;
    while j < |line|
      invariant start <= j <= |line|
      invariant ScanFrom(line, start, NOTHING_READ) == ScanFrom(line, j, Scan(value, exponent, digits, decimal))
    {
      var c := line[j];
      if IsDigit(c) {
        digits := digits + 1;
        if digits <= MAX_INT_DIGITS {
          if decimal {
            exponent := exponent - 1;
          }
          value := 10 * value + (c as int - '0' as int);
        } else if !decimal {
          exponent := exponent + 1;
        }
      } else if c == '.' && !decimal {
        decimal := true;
      } else {
        break;
      }
      j := j + 1;
    }
    s := Scan(value, exponent, digits, decimal);
  }

  /** Applies the exponent two decimals, one decimal, or one power of ten at a time. */
  method ApplyExponent(value: nat, exponent: int) returns (f: real)
    ensures f == PointMoved(value as real, exponent)
  {
    f := value as real;
    var e := exponent;
    if f == 0.0 {
      return;
    }
    while e <= -2
      invariant e <= 0 || e == exponent
      invariant PointMoved(f, e) == PointMoved(value as real, exponent)
    {
      TwoDecimals(f, e);
      f := f * 0.01;
      e := e + 2;
    }
    if e < 0 {
      OneDecimal(f, e);
      f := f * 0.1;
      e := e + 1;
    } else {
      while 0 < e
        invariant 0 <= e
        invariant PointMoved(f, e) == PointMoved(value as real, exponent)
      {
        TenTimes(f, e);
        f := f * 10.0;
        e := e - 1;
      }
    }
    assert PowerOfTen(0) == 1.0;
  }

  lemma TwoDecimals(f: real, e: int)
    ensures PointMoved(f * 0.01, e + 2) == PointMoved(f, e)
  {
    PowerStep(e);
    PowerStep(e + 1);
  }

  lemma OneDecimal(f: real, e: int)
    ensures PointMoved(f * 0.1, e + 1) == PointMoved(f, e)
  {
    PowerStep(e);
  }

  lemma TenTimes(f: real, e: int)
    ensures PointMoved(f * 10.0, e - 1) == PointMoved(f, e)
  {
    PowerStep(e - 1);
  }

  lemma PowerStep(e: int)
    ensures PowerOfTen(e + 1) == 10.0 * PowerOfTen(e)
  {
    Pow10Positive(if e < 0 then -e else e);
    if e < 0 {
      Pow10Positive(-e - 1);
      assert Pow10(-e) == 10 * Pow10(-e - 1);
    }
  }

  // ---------------------------------------------------------------------------------------------
  // Round trip

  /** What has been read after the printed digits down to number `i`. */
  function ScanAt(a: nat, decimals: nat, width: nat, i: nat): Scan
    requires i <= width
  {
    Scan(Shifted(a, i), if i < decimals then i - decimals else 0, width - i, i < decimals)
  }

  lemma ScanOne(line: string, i: nat, s: Scan)
    requires i < |line| && Step(s, line[i]).Some?
    ensures ScanFrom(line, i, s) == ScanFrom(line, i + 1, Step(s, line[i]).value)
  {
  }

  /** Reading a digit of the number takes the scan one digit further. */
  lemma DigitStep(a: nat, decimals: nat, width: nat, i: nat)
    requires i < width <= MAX_INT_DIGITS && decimals < width
    ensures var s := ScanAt(a, decimals, width, i + 1);
            Step(s.(decimal := s.decimal || i + 1 == decimals), DigitChar(DigitAt(a, i)))
              == Some(ScanAt(a, decimals, width, i))
  {
    assert Shifted(a, i + 1) == Shifted(a, i) / 10;
  }

  /** The digit, with the point before it if it is the first decimal. */
  function DigitText(a: nat, decimals: nat, i: nat): string {
    (if i + 1 == decimals then "." else "") + [DigitChar(DigitAt(a, i))]
  }

  lemma DigitRead(line: string, k: nat, a: nat, decimals: nat, width: nat, i: nat)
    requires i < width <= MAX_INT_DIGITS && decimals < width
    requires k + |DigitText(a, decimals, i)| <= |line|
    requires line[k..k + |DigitText(a, decimals, i)|] == DigitText(a, decimals, i)
    ensures ScanFrom(line, k, ScanAt(a, decimals, width, i + 1))
            == ScanFrom(line, k + |DigitText(a, decimals, i)|, ScanAt(a, decimals, width, i))
  {
    var text, s := DigitText(a, decimals, i), ScanAt(a, decimals, width, i + 1);
    DigitStep(a, decimals, width, i);
    assert line[k] == line[k..k + |text|][0] == text[0];
    if i + 1 == decimals {
      assert line[k + 1] == line[k..k + |text|][1] == text[1];
      ScanOne(line, k, s);
      ScanOne(line, k + 1, s.(decimal := true));
    } else {
      ScanOne(line, k, s);
    }
  }

  lemma EmitNext(a: nat, decimals: nat, width: nat, i: nat)
    requires i <= width
    ensures Emitted(a, decimals, width, i)
            == if i == width then "" else Emitted(a, decimals, width, i + 1) + DigitText(a, decimals, i)
  {
  }

  lemma ScanStart(a: nat, decimals: nat, width: nat)
    requires decimals < width && Shifted(a, width) == 0
    ensures ScanAt(a, decimals, width, width) == NOTHING_READ
  {
  }

  /** Reading what was printed goes through the whole of it. */
  lemma {:induction false} ScanEmitted(before: string, a: nat, decimals: nat, width: nat, i: nat, after: string)
    requires i <= width <= MAX_INT_DIGITS && decimals < width && Shifted(a, width) == 0
    ensures var digits := Emitted(a, decimals, width, i);
            ScanFrom(before + digits + after, |before|, NOTHING_READ)
            == ScanFrom(before + digits + after, |before + digits|, ScanAt(a, decimals, width, i))
    decreases width - i
  {
    hide DigitText, ScanAt, Emitted, ScanFrom;
    EmitNext(a, decimals, width, i);
    if i == width {
      ScanStart(a, decimals, width);
      assert before + "" == before;
    } else {
      var more, text := Emitted(a, decimals, width, i + 1), DigitText(a, decimals, i);
      var line := before + Emitted(a, decimals, width, i) + after;
      assert line == before + more + (text + after);
      ScanEmitted(before, a, decimals, width, i + 1, text + after);
      var k := |before + more|;
      assert line[k..k + |text|] == text;
      DigitRead(line, k, a, decimals, width, i);
    }
  }

  /** A whole number of units of the last decimal. */
  function Decimal(units: int, decimals: nat): real {
    Pow10Positive(decimals);
    units as real / Pow10(decimals) as real
  }

  /** The printed text has its digits after the sign, and reading uses them all. */
  lemma PrintedIsRead(n: real, decimals: nat)
    requires Width(ScaledMagnitude(n, decimals), decimals) <= MAX_INT_DIGITS
    ensures var text, a := Printed(n, decimals), ScaledMagnitude(n, decimals);
            var j := if n < 0.0 then 1 else 0;
            && j < |text| && (n < 0.0 <==> text[0] == '-') && (0.0 <= n ==> text[0] != '+')
            && ScanFrom(text, j, NOTHING_READ) == (ScanAt(a, decimals, Width(a, decimals), 0), |text|)
  {
    var text, a := Printed(n, decimals), ScaledMagnitude(n, decimals);
    var width, sign := Width(a, decimals), if n < 0.0 then "-" else "";
    var digits := Emitted(a, decimals, width, 0);
    LengthDrops(a, width);
    FirstIsDigit(a, decimals, width, 0);
    ScanEmitted(sign, a, decimals, width, 0, "");
    assert sign + digits + "" == text;
  }

  /** The number printed, in units of its last decimal: rounded, halves away from zero. */
  function PrintedUnits(n: real, decimals: nat): int {
    var a: int := ScaledMagnitude(n, decimals);
    if n < 0.0 then -a else a
  }

  /** A number measured in units of the last decimal. */
  function InUnits(x: real, decimals: nat): real {
    x * Pow10(decimals) as real
  }

  lemma PrintedUnitsRound(n: real, decimals: nat)
    ensures -0.5 <= PrintedUnits(n, decimals) as real - InUnits(n, decimals) <= 0.5
  {
    if n < 0.0 {
      var p := Pow10(decimals) as real;
      assert Magnitude(n) * p == -(n * p);
    }
  }

  /**
   Reading back what was printed, up to eight digits, uses all of it and gives the printed number rounded
   to its decimals, halves away from zero: within half a unit of the last one.
   */
  lemma RoundTrip(n: real, decimals: nat)
    requires Width(ScaledMagnitude(n, decimals), decimals) <= MAX_INT_DIGITS
    ensures Read(Printed(n, decimals), 0)
            == Some((Decimal(PrintedUnits(n, decimals), decimals), |Printed(n, decimals)|))
    ensures -0.5 <= InUnits(Decimal(PrintedUnits(n, decimals), decimals) - n, decimals) <= 0.5
  {
    PrintedIsRead(n, decimals);
    ValueIsDecimal(ScaledMagnitude(n, decimals), n < 0.0, decimals, Width(ScaledMagnitude(n, decimals), decimals));
    Rescale(PrintedUnits(n, decimals), n, decimals);
    PrintedUnitsRound(n, decimals);
  }

  lemma ValueIsDecimal(a: int, negative: bool, decimals: nat, width: nat)
    requires 0 <= a
    ensures ValueOf(ScanAt(a, decimals, width, 0), negative) == Decimal(if negative then -a else a, decimals)
  {
    Pow10Positive(decimals);
    var v, p := a as real, Pow10(decimals) as real;
    assert v * (1.0 / p) == v / p;
    assert (-a) as real / p == -(v / p);
  }

  lemma Rescale(units: int, n: real, decimals: nat)
    ensures InUnits(Decimal(units, decimals) - n, decimals) == units as real - InUnits(n, decimals)
  {
    Pow10Positive(decimals);
    var p := Pow10(decimals) as real;
    assert units as real / p * p == units as real;
  }

  lemma {:induction false} FirstIsDigit(a: nat, decimals: nat, width: nat, i: nat)
    requires i < width && decimals < width
    ensures var e := Emitted(a, decimals, width, i); 0 < |e| && IsDigit(e[0])
    decreases width - i
  {
    if i + 1 < width {
      FirstIsDigit(a, decimals, width, i + 1);
    }
  }

  // ---------------------------------------------------------------------------------------------
  // Reading any number

  predicate AllDigits(text: string) {
    forall i :: 0 <= i < |text| ==> IsDigit(text[i])
  }

  /** The number a string of digits stands for. */
  function DigitsValue(text: string): nat
    requires AllDigits(text)
  {
    if text == "" then 0
    else 10 * DigitsValue(text[..|text| - 1]) + (text[|text| - 1] as int - '0' as int)
  }

  function Fewer(m: nat, n: nat): nat {
    if m < n then m else n
  }

  /** What has been read after the digits `text`, of which the first `whole` were before the point. */
  function ScanOf(text: string, whole: nat, decimal: bool): Scan
    requires AllDigits(text)
  {
    var kept := Fewer(MAX_INT_DIGITS, |text|);
    Scan(DigitsValue(text[..kept]), whole - kept, |text|, decimal)
  }

  lemma OneDigit(text: string, whole: nat, decimal: bool, c: char)
    requires AllDigits(text) && IsDigit(c) && (!decimal ==> whole == |text|)
    ensures AllDigits(text + [c])
    ensures Step(ScanOf(text, whole, decimal), c)
            == Some(ScanOf(text + [c], if decimal then whole else whole + 1, decimal))
  {
    var more := text + [c];
    if |text| < MAX_INT_DIGITS {
      assert text[..|text|] == text && more[..|text| + 1] == more && more[..|more| - 1] == text;
    } else {
      assert more[..MAX_INT_DIGITS] == text[..MAX_INT_DIGITS];
    }
  }

  lemma {:induction false} ScanDigits(line: string, k: nat, text: string, whole: nat, decimal: bool, digits: string)
    requires AllDigits(text) && AllDigits(digits) && (!decimal ==> whole == |text|)
    requires k + |digits| <= |line| && line[k..k + |digits|] == digits
    ensures AllDigits(text + digits)
    ensures ScanFrom(line, k, ScanOf(text, whole, decimal))
            == ScanFrom(line, k + |digits|, ScanOf(text + digits, if decimal then whole else whole + |digits|, decimal))
    decreases |digits|
  {
    if digits == "" {
      assert text + digits == text;
    } else {
      assert line[k] == line[k..k + |digits|][0];
      assert line[k + 1..k + 1 + |digits[1..]|] == digits[1..];
      assert text + digits == text + [digits[0]] + digits[1..];
      OneDigit(text, whole, decimal, digits[0]);
      ScanOne(line, k, ScanOf(text, whole, decimal));
      ScanDigits(line, k + 1, text + [digits[0]], if decimal then whole else whole + 1, decimal, digits[1..]);
    }
  }

  /** A number as written: a sign or none, digits, and a point with more digits or none. */
  function Written(sign: string, whole: string, point: bool, fraction: string): string {
    sign + whole + (if point then "." else "") + fraction
  }

  lemma ScanWritten(line: string, k: nat, whole: string, point: bool, fraction: string)
    requires AllDigits(whole) && AllDigits(fraction) && (point || fraction == "")
    requires var n := |Written("", whole, point, fraction)|;
             && k + n <= |line| && line[k..k + n] == Written("", whole, point, fraction)
             && (k + n < |line| ==> !IsDigit(line[k + n]) && (line[k + n] == '.' ==> point))
    ensures AllDigits(whole + fraction)
    ensures ScanFrom(line, k, NOTHING_READ)
            == (ScanOf(whole + fraction, |whole|, point), k + |Written("", whole, point, fraction)|)
  {
    hide ScanFrom, ScanOf, Step, AllDigits;
    var text, w := Written("", whole, point, fraction), k + |whole|;
    var rest := if point then "." + fraction else "";
    Parts(line, k, whole, rest);
    assert text == whole + rest;
    NothingIsRead();
    ScanDigits(line, k, "", 0, false, whole);
    assert "" + whole == whole;
    if point {
      Parts(line, w, ".", fraction);
      PointRead(line, w, whole);
      ScanDigits(line, w + 1, whole, |whole|, true, fraction);
    } else {
      assert whole + fraction == whole;
    }
    ScanEnds(line, k + |text|, whole + fraction, |whole|, point);
  }

  lemma NothingIsRead()
    ensures AllDigits("") && ScanOf("", 0, false) == NOTHING_READ
  {
  }

  lemma Parts(line: string, k: nat, x: string, y: string)
    requires k + |x| + |y| <= |line| && line[k..k + |x| + |y|] == x + y
    ensures line[k..k + |x|] == x && line[k + |x|..k + |x| + |y|] == y
  {
    assert line[k..k + |x|] == line[k..k + |x| + |y|][..|x|];
    assert line[k + |x|..k + |x| + |y|] == line[k..k + |x| + |y|][|x|..];
  }

  lemma PointRead(line: string, w: nat, whole: string)
    requires AllDigits(whole) && w + 1 <= |line| && line[w..w + 1] == "."
    ensures ScanFrom(line, w, ScanOf(whole, |whole|, false)) == ScanFrom(line, w + 1, ScanOf(whole, |whole|, true))
  {
    assert line[w] == line[w..w + 1][0];
    ScanOne(line, w, ScanOf(whole, |whole|, false));
  }

  lemma ScanEnds(line: string, k: nat, text: string, whole: nat, point: bool)
    requires AllDigits(text) && k <= |line|
    requires k < |line| ==> !IsDigit(line[k]) && (line[k] == '.' ==> point)
    ensures ScanFrom(line, k, ScanOf(text, whole, point)) == (ScanOf(text, whole, point), k)
  {
  }

  /**
   Whatever follows it, a number is read at its sign, with either sign or none, and with its first eight digits, each
   at its own decimal place; those after them count as zeros. Without a digit nothing is read.
   */
  lemma NumbersAreRead(
      before: string, sign: string, whole: string, point: bool, fraction: string, after: string)
    requires sign == "" || sign == "-" || sign == "+"
    requires AllDigits(whole) && AllDigits(fraction) && (point || fraction == "")
    requires after != "" ==> !IsDigit(after[0]) && (after[0] == '.' ==> point)
    requires sign == "" && whole == "" && !point && after != "" ==> after[0] != '-' && after[0] != '+'
    ensures var text, digits := Written(sign, whole, point, fraction), whole + fraction;
            var kept := Fewer(MAX_INT_DIGITS, |digits|);
            && AllDigits(digits[..kept])
            && Read(before + text + after, |before|)
               == if digits == "" then None
                  else
                    var v := PointMoved(DigitsValue(digits[..kept]) as real, |whole| - kept);
                    Some((if sign == "-" then -v else v, |before + text|))
  {
    var text, bare := Written(sign, whole, point, fraction), Written("", whole, point, fraction);
    var line, j := before + text + after, |before| + |sign|;
    assert line == before + sign + bare + after && |text| == |sign| + |bare|;
    assert line[j..j + |bare|] == bare;
    assert j + |bare| < |line| ==> line[j + |bare|] == after[0];
    FirstOfNumber(before, sign, bare, after);
    hide ScanFrom, DigitsValue, PointMoved, Written;
    ScanWritten(line, j, whole, point, fraction);
  }

  lemma FirstOfNumber(before: string, sign: string, bare: string, after: string)
    requires sign == "" || sign == "-" || sign == "+"
    requires bare != "" ==> IsDigit(bare[0]) || bare[0] == '.'
    requires sign == "" && bare == "" && after != "" ==> after[0] != '-' && after[0] != '+'
    ensures var line, i := before + sign + bare + after, |before|;
            && (i < |line| && line[i] == '-' <==> sign == "-")
            && (i < |line| && (line[i] == '-' || line[i] == '+') <==> sign != "")
  {
    var line, i := before + sign + bare + after, |before|;
    if sign != "" {
      assert line[i] == sign[0];
    } else if bare != "" {
      assert line[i] == bare[0];
    } else if after != "" {
      assert line[i] == after[0];
    }
  }

  // ---------------------------------------------------------------------------------------------
  // What is printed

  /** The digits of `a` from number `width` - 1 down to number `i`. */
  function DigitsOf(a: nat, width: nat, i: nat): string
    decreases width - i
  {
    if width <= i then "" else DigitsOf(a, width, i + 1) + [DigitChar(DigitAt(a, i))]
  }

  lemma {:induction false} DigitsAreDigits(a: nat, width: nat, i: nat)
    requires i <= width && Shifted(a, width) == 0
    ensures AllDigits(DigitsOf(a, width, i)) && |DigitsOf(a, width, i)| == width - i
    ensures DigitsValue(DigitsOf(a, width, i)) == Shifted(a, i)
    decreases width - i
  {
    if i < width {
      DigitsAreDigits(a, width, i + 1);
      var all, before := DigitsOf(a, width, i), DigitsOf(a, width, i + 1);
      assert all[..|all| - 1] == before;
      assert Shifted(a, i + 1) == Shifted(a, i) / 10;
    }
  }

  /** The digits come out with the point before the decimals. */
  lemma {:induction false} EmittedInTwoParts(a: nat, decimals: nat, width: nat, i: nat)
    requires i <= width && decimals < width
    ensures |DigitsOf(a, width, i)| == width - i
    ensures Emitted(a, decimals, width, i)
            == if decimals <= i then DigitsOf(a, width, i)
               else DigitsOf(a, width, decimals) + "." + DigitsOf(a, width, i)[width - decimals..]
    ensures i <= decimals ==> DigitsOf(a, width, i)[..width - decimals] == DigitsOf(a, width, decimals)
    decreases width - i
  {
    if i < width {
      EmittedInTwoParts(a, decimals, width, i + 1);
    }
  }

  /**
   For any number and any number of decimals: what is printed is the sign, if the number is negative, at least one
   digit, and, if there are decimals, the point and exactly that many digits; all of them together stand for the
   magnitude in units of the last decimal, rounded half away from zero.
   */
  lemma PrintedInDigits(n: real, decimals: nat)
    ensures exists whole: string, fraction: string ::
              && Printed(n, decimals) == Written(if n < 0.0 then "-" else "", whole, 0 < decimals, fraction)
              && whole != "" && |fraction| == decimals && AllDigits(whole + fraction)
              && DigitsValue(whole + fraction) == ScaledMagnitude(n, decimals)
  {
    var sign := if n < 0.0 then "-" else "";
    var whole, fraction := EmittedInDigits(ScaledMagnitude(n, decimals), decimals);
    hide Emitted, DigitsValue, ScaledMagnitude, AllDigits, Width;
    assert Printed(n, decimals) == Written(sign, whole, 0 < decimals, fraction);
  }

  lemma EmittedInDigits(a: nat, decimals: nat) returns (whole: string, fraction: string)
    ensures Emitted(a, decimals, Width(a, decimals), 0) == Written("", whole, 0 < decimals, fraction)
    ensures whole != "" && |fraction| == decimals && AllDigits(whole + fraction) && DigitsValue(whole + fraction) == a
  {
    hide Emitted, DigitsOf, DigitsValue, AllDigits, Length;
    var width := Width(a, decimals);
    LengthDrops(a, width);
    EmittedInTwoParts(a, decimals, width, 0);
    DigitsAreDigits(a, width, 0);
    var digits := DigitsOf(a, width, 0);
    whole, fraction := digits[..width - decimals], digits[width - decimals..];
    assert whole + fraction == digits;
    assert "" + whole == whole;
    assert decimals == 0 ==> whole + "" + fraction == digits;
  }
}
