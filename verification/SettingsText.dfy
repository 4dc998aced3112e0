/** Text as the settings file is read and written: lines, trimming, decimal numbers. */
module SettingsText {
  import opened Common

  // ----- lines, first `=`, trimming -----

  function IndexOf(s: string, c: char): (i: nat)
    ensures i <= |s| && (i < |s| ==> s[i] == c) && forall j :: 0 <= j < i ==> s[j] != c
  {
    if s == "" || s[0] == c then 0 else 1 + IndexOf(s[1..], c)
  }

  /** A carriage return goes with the newline it precedes. */
  function WithoutReturn(line: string): string {
    if line != "" && line[|line| - 1] == '\r' then line[..|line| - 1] else line
  }

  function Lines(text: string): seq<string> {
    var i := IndexOf(text, '\n');
    if text == "" then [] else if i == |text| then [text] else [WithoutReturn(text[..i])] + Lines(text[i + 1..])
  }

  predicate IsSpace(c: char) {
    c in {' ', '\t', '\n', '\r', '\U{0B}', '\U{0C}', '\U{85}', '\U{A0}'}
  }

  function TrimStart(s: string): string {
    if s != "" && IsSpace(s[0]) then TrimStart(s[1..]) else s
  }

  function TrimEnd(s: string): string {
    if s != "" && IsSpace(s[|s| - 1]) then TrimEnd(s[..|s| - 1]) else s
  }

  function Trim(s: string): string {
    TrimEnd(TrimStart(s))
  }

  /** The key and value of a line, if it has an `=`. */
  function KeyValue(line: string): Option<(string, string)> {
    var i := IndexOf(line, '=');
    if i == |line| then None else Some((Trim(line[..i]), Trim(line[i + 1..])))
  }

  /** A word that is written as it is read: no separators, nothing to trim. */
  ghost predicate Plain(s: string) {
    forall i :: 0 <= i < |s| ==> !IsSpace(s[i]) && s[i] != '='
  }

  lemma PlainIsTrimmed(s: string)
    requires Plain(s)
    ensures Trim(s) == s && WithoutReturn(s) == s
  {
    if s != "" {
      assert !IsSpace(s[0]) && !IsSpace(s[|s| - 1]);
    }
  }

  lemma {:induction false} IndexOfJoined(s: string, c: char, rest: string)
    requires c !in s
    ensures IndexOf(s + [c] + rest, c) == |s|
  {
    var text := s + [c] + rest;
    forall k | 0 <= k < |s| ensures text[k] != c {
      assert text[k] == s[k] && s[k] in s;
    }
    assert text[|s|] == c;
  }

  /** A written line comes back first, whatever follows it. */
  lemma LineFirst(key: string, value: string, rest: string)
    requires Plain(key) && Plain(value)
    ensures Lines(key + "=" + value + "\n" + rest) == [key + "=" + value] + Lines(rest)
  {
    var line := key + "=" + value;
    forall i | 0 <= i < |line| ensures line[i] != '\n' && (i == |line| - 1 ==> line[i] != '\r') {
      if i < |key| {
        assert line[i] == key[i];
      } else if i > |key| {
        assert line[i] == value[i - |key| - 1];
      }
    }
    assert '\n' !in line;
    var text := line + "\n" + rest;
    IndexOfJoined(line, '\n', rest);
    assert text[..|line|] == line && text[|line| + 1..] == rest;
  }

  /** A written line reads as its key and its value. */
  lemma LineReads(key: string, value: string)
    requires Plain(key) && Plain(value)
    ensures KeyValue(key + "=" + value) == Some((key, value))
  {
    var line := key + "=" + value;
    assert '=' !in key;
    IndexOfJoined(key, '=', value);
    assert line == key + ['='] + value;
    assert line[..|key|] == key && line[|key| + 1..] == value;
    PlainIsTrimmed(key);
    PlainIsTrimmed(value);
  }

  // ----- whole numbers -----

  function Digit(d: nat): char
    requires d < 10
  {
    "0123456789"[d]
  }

  predicate IsDigit(c: char) {
    '0' <= c <= '9'
  }

  function ValueOf(c: char): (d: nat)
    requires IsDigit(c)
    ensures d < 10
  {
    c as int - '0' as int
  }

  lemma DigitValue(d: nat)
    requires d < 10
    ensures IsDigit(Digit(d)) && ValueOf(Digit(d)) == d && !IsSpace(Digit(d)) && Digit(d) != '='
  {
  }

  function PrintNat(n: nat): (s: string)
    ensures s != ""
  {
    if n < 10 then [Digit(n)] else PrintNat(n / 10) + [Digit(n % 10)]
  }

  function ParseDigits(s: string): Option<nat> {
    if s == "" then Some(0)
    else if !IsDigit(s[|s| - 1]) then None
    else
      match ParseDigits(s[..|s| - 1])
      case None => None
      case Some(n) => Some(10 * n + ValueOf(s[|s| - 1]))
  }

  predicate AllDigits(s: string) {
    forall i :: 0 <= i < |s| ==> IsDigit(s[i])
  }

  lemma {:induction false} NatReads(n: nat)
    ensures ParseDigits(PrintNat(n)) == Some(n) && AllDigits(PrintNat(n)) && Plain(PrintNat(n))
  {
    DigitValue(n % 10);
    var s := PrintNat(n);
    if n < 10 {
      assert s[..0] == "";
      assert ParseDigits("") == Some(0);
    } else {
      NatReads(n / 10);
      assert s[..|s| - 1] == PrintNat(n / 10);
    }
  }

  function PrintInt(n: int): string {
    if n < 0 then "-" + PrintNat(-n) else PrintNat(n)
  }

  /** A number of a machine type: a sign where the type has one, digits, and no overflow. */
  function ParseInt(s: string, lo: int, hi: int): Option<int> {
    if s == "" then None
    else
      var signed := s[0] == '+' || (s[0] == '-' && lo < 0);
      var digits := if signed then s[1..] else s;
      match (if digits == "" then None else ParseDigits(digits))
      case None => None
      case Some(n) =>
        var m: int := n;
        var v := if s[0] == '-' then -m else m;
        if lo <= v <= hi then Some(v) else None
  }

  lemma IntReads(n: int, lo: int, hi: int)
    requires lo <= n <= hi && lo <= 0
    ensures ParseInt(PrintInt(n), lo, hi) == Some(n) && Plain(PrintInt(n))
  {
    var a: nat := if n < 0 then -n else n;
    NatReads(a);
    var s := PrintInt(n);
    if n < 0 {
      assert s[1..] == PrintNat(a);
      forall i | 0 <= i < |s| ensures !IsSpace(s[i]) && s[i] != '=' {
        assert i > 0 ==> s[i] == PrintNat(a)[i - 1];
      }
    } else {
      assert IsDigit(s[0]);
    }
  }

  // ----- decimal fractions -----

  /** A finite decimal: sign, whole part, and fraction digits that do not end in zero. */
  datatype Decimal = Dec(neg: bool, whole: nat, frac: seq<nat>)

  ghost predicate Canonical(d: Decimal) {
    && (forall i :: 0 <= i < |d.frac| ==> d.frac[i] < 10)
    && (d.frac != [] ==> d.frac[|d.frac| - 1] != 0)
  }

  function PrintDigits(ds: seq<nat>): (s: string)
    requires forall i :: 0 <= i < |ds| ==> ds[i] < 10
    ensures |s| == |ds| && forall i :: 0 <= i < |ds| ==> s[i] == Digit(ds[i])
  {
    if ds == [] then "" else [Digit(ds[0])] + PrintDigits(ds[1..])
  }

  function DigitsOf(s: string): (ds: seq<nat>)
    requires AllDigits(s)
    ensures |ds| == |s| && forall i :: 0 <= i < |s| ==> ds[i] == ValueOf(s[i])
  {
    if s == "" then [] else [ValueOf(s[0])] + DigitsOf(s[1..])
  }

  function WithoutZeros(ds: seq<nat>): seq<nat> {
    if ds != [] && ds[|ds| - 1] == 0 then WithoutZeros(ds[..|ds| - 1]) else ds
  }

  function PrintUnsigned(d: Decimal): string
    requires Canonical(d)
  {
    PrintNat(d.whole) + (if d.frac == [] then "" else "." + PrintDigits(d.frac))
  }

  function PrintDecimal(d: Decimal): string
    requires Canonical(d)
  {
    (if d.neg then "-" else "") + PrintUnsigned(d)
  }

  /** Digits and a fraction; either part may be empty, not both. */
  function ParseUnsigned(body: string): Option<Decimal> {
    var dot := IndexOf(body, '.');
    var frac := if dot < |body| then body[dot + 1..] else "";
    match ParseDigits(body[..dot])
    case None => None
    case Some(n) =>
      if (dot == 0 && frac == "") || !AllDigits(frac) then None else Some(Dec(false, n, WithoutZeros(DigitsOf(frac))))
  }

  function ParseDecimal(s: string): Option<Decimal> {
    if s != "" && (s[0] == '+' || s[0] == '-') then
      match ParseUnsigned(s[1..])
      case None => None
      case Some(d) => Some(Dec(s[0] == '-', d.whole, d.frac))
    else ParseUnsigned(s)
  }

  lemma FractionReads(frac: seq<nat>)
    requires Canonical(Dec(false, 0, frac))
    ensures AllDigits(PrintDigits(frac)) && WithoutZeros(DigitsOf(PrintDigits(frac))) == frac
      && Plain(PrintDigits(frac))
  {
    var s := PrintDigits(frac);
    forall i | 0 <= i < |s| ensures IsDigit(s[i]) && ValueOf(s[i]) == frac[i] && !IsSpace(s[i]) && s[i] != '=' {
      DigitValue(frac[i]);
    }
    assert DigitsOf(s) == frac;
  }

  lemma {:induction false} NoDot(n: nat)
    ensures '.' !in PrintNat(n) && IsDigit(PrintNat(n)[0])
  {
    NatReads(n);
    var w := PrintNat(n);
    forall i | 0 <= i < |w| ensures w[i] != '.' {
      assert IsDigit(w[i]);
    }
  }

  lemma WholeReads(w: string, n: nat)
    requires w != "" && ParseDigits(w) == Some(n) && '.' !in w
    ensures ParseUnsigned(w) == Some(Dec(false, n, []))
  {
    hide ParseDigits;
    var dot := IndexOf(w, '.');
    assert dot == |w| && w[..dot] == w;
    assert DigitsOf("") == [];
  }

  lemma PartsRead(w: string, n: nat, f: string, frac: seq<nat>)
    requires ParseDigits(w) == Some(n) && '.' !in w && w != ""
    requires AllDigits(f) && WithoutZeros(DigitsOf(f)) == frac
    ensures ParseUnsigned(w + "." + f) == Some(Dec(false, n, frac))
  {
    hide ParseDigits, WithoutZeros, DigitsOf;
    var body := w + "." + f;
    IndexOfJoined(w, '.', f);
    assert body == w + ['.'] + f;
    hide IndexOf;
    assert body[..|w|] == w && body[|w| + 1..] == f;
  }

  lemma UnsignedReads(d: Decimal)
    requires Canonical(d)
    ensures ParseUnsigned(PrintUnsigned(d)) == Some(Dec(false, d.whole, d.frac))
    ensures PrintUnsigned(d) != "" && IsDigit(PrintUnsigned(d)[0])
  {
    hide ParseUnsigned, ParseDigits, PrintNat;
    var w := PrintNat(d.whole);
    NatReads(d.whole);
    NoDot(d.whole);
    FractionReads(d.frac);
    if d.frac == [] {
      assert PrintUnsigned(d) == w;
      WholeReads(w, d.whole);
    } else {
      assert PrintUnsigned(d) == w + "." + PrintDigits(d.frac);
      PartsRead(w, d.whole, PrintDigits(d.frac), d.frac);
    }
  }

  lemma PlainJoined(a: string, b: string)
    requires Plain(a) && Plain(b)
    ensures Plain(a + b)
  {
  }

  lemma UnsignedIsPlain(d: Decimal)
    requires Canonical(d)
    ensures Plain(PrintUnsigned(d))
  {
    hide ParseDigits, PrintNat, PrintDigits, AllDigits;
    NatReads(d.whole);
    FractionReads(d.frac);
    if d.frac != [] {
      PlainJoined(".", PrintDigits(d.frac));
      PlainJoined(PrintNat(d.whole), "." + PrintDigits(d.frac));
    } else {
      assert PrintUnsigned(d) == PrintNat(d.whole);
    }
  }

  /** Every canonical decimal reads back exactly. */
  lemma DecimalReads(d: Decimal)
    requires Canonical(d)
    ensures ParseDecimal(PrintDecimal(d)) == Some(d) && Plain(PrintDecimal(d))
  {
    hide ParseUnsigned, PrintUnsigned;
    UnsignedReads(d);
    UnsignedIsPlain(d);
    var body := PrintUnsigned(d);
    if d.neg {
      assert PrintDecimal(d)[1..] == body;
      PlainJoined("-", body);
    } else {
      assert PrintDecimal(d) == body;
    }
  }
}
