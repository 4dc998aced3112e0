/** The settings file: written, read back, and forced into range. */
module SettingsFile {
  import opened Common
  import opened SettingsText
  import opened SettingsTable

  datatype Value = Flag(on: bool) | Coded(at: nat) | Number(n: int) | Real(d: Decimal)

  ghost predicate Fits(kind: Kind, v: Value) {
    match kind
    case Toggle => v.Flag?
    case Choice(variants) => v.Coded? && v.at < |variants|
    case Whole(width, _) => v.Number? && width.lo <= v.n <= width.hi
    case Fraction(_, _) => v.Real? && Canonical(v.d)
  }

  /** A value for every row. */
  ghost predicate Typed(vs: seq<Value>) {
    |vs| == ROWS && forall i :: 0 <= i < ROWS ==> Fits(Rows()[i].kind, vs[i])
  }

  // ----- one row's codec -----

  function Write(kind: Kind, v: Value): string
    requires Fits(kind, v)
  {
    match kind
    case Toggle => if v.on then "true" else "false"
    case Choice(variants) => variants[v.at].code
    case Whole(_, _) => PrintInt(v.n)
    case Fraction(_, _) => PrintDecimal(v.d)
  }

  function ParseToggle(s: string): Option<bool> {
    if s in ["true", "on", "1", "yes"] then Some(true)
    else if s in ["false", "off", "0", "no"] then Some(false)
    else None
  }

  /** The first variant that is read from the word; the number of variants for none. */
  function VariantOf(variants: seq<Variant>, word: string): (at: nat)
    ensures at <= |variants|
  {
    if variants == [] || word in variants[0].words then 0 else 1 + VariantOf(variants[1..], word)
  }

  function Read(kind: Kind, s: string): Option<Value> {
    match kind
    case Toggle => (match ParseToggle(s) case Some(b) => Some(Flag(b)) case None => None)
    case Choice(variants) => if VariantOf(variants, s) < |variants| then Some(Coded(VariantOf(variants, s))) else None
    case Whole(width, _) => (match ParseInt(s, width.lo, width.hi) case Some(n) => Some(Number(n)) case None => None)
    case Fraction(_, _) => (match ParseDecimal(s) case Some(d) => Some(Real(d)) case None => None)
  }

  lemma ChoiceReads(variants: seq<Variant>, at: nat)
    requires variants == PRESETS || variants == HUD_MODES || variants == VRS_CHOICES
    requires at < |variants|
    ensures VariantOf(variants, variants[at].code) == at && Plain(variants[at].code)
  {
    if variants == PRESETS {
      PresetReads(at);
    } else if variants == HUD_MODES {
      HudReads(at);
    } else {
      VrsReads(at);
    }
  }

  lemma PresetReads(at: nat)
    requires at < |PRESETS|
    ensures VariantOf(PRESETS, PRESETS[at].code) == at && Plain(PRESETS[at].code)
  {
    assert PRESETS[1..] == [PRESETS[1], PRESETS[2], PRESETS[3]];
    assert PRESETS[1..][1..] == [PRESETS[2], PRESETS[3]];
    assert PRESETS[1..][1..][1..] == [PRESETS[3]];
    match at {
      case 0 => assert "0" in PRESETS[0].words;
      case 1 => assert PRESETS[1].words[2] == "1"; assert "1" !in PRESETS[0].words;
      case 2 => assert PRESETS[2].words[1] == "2"; assert "2" !in PRESETS[0].words && "2" !in PRESETS[1].words;
      case _ =>
        assert PRESETS[3].words[1] == "3";
        assert "3" !in PRESETS[0].words && "3" !in PRESETS[1].words && "3" !in PRESETS[2].words;
    }
  }

  lemma HudReads(at: nat)
    requires at < |HUD_MODES|
    ensures VariantOf(HUD_MODES, HUD_MODES[at].code) == at && Plain(HUD_MODES[at].code)
  {
    assert HUD_MODES[1..] == [HUD_MODES[1], HUD_MODES[2]];
    assert HUD_MODES[1..][1..] == [HUD_MODES[2]];
    match at {
      case 0 => assert HUD_MODES[0].words[1] == "2";
      case 1 => assert HUD_MODES[1].words[2] == "1"; assert "1" !in HUD_MODES[0].words;
      case _ => assert HUD_MODES[2].words[1] == "0"; assert "0" !in HUD_MODES[0].words && "0" !in HUD_MODES[1].words;
    }
  }

  lemma VrsReads(at: nat)
    requires at < |VRS_CHOICES|
    ensures VariantOf(VRS_CHOICES, VRS_CHOICES[at].code) == at && Plain(VRS_CHOICES[at].code)
  {
    assert VRS_CHOICES[1..] == [VRS_CHOICES[1], VRS_CHOICES[2]];
    assert VRS_CHOICES[1..][1..] == [VRS_CHOICES[2]];
    match at {
      case 0 => assert VRS_CHOICES[0].words[0] == "auto";
      case 1 => assert VRS_CHOICES[1].words[0] == "on"; assert "on" !in VRS_CHOICES[0].words;
      case _ =>
        assert VRS_CHOICES[2].words[0] == "off";
        assert "off" !in VRS_CHOICES[0].words && "off" !in VRS_CHOICES[1].words;
    }
  }

  /** Every row's codec reads back what it writes. */
  lemma CodecReads(i: nat, v: Value)
    requires i < ROWS && Fits(Rows()[i].kind, v)
    ensures Read(Rows()[i].kind, Write(Rows()[i].kind, v)) == Some(v) && Plain(Write(Rows()[i].kind, v))
  {
    RowIsWellFormed(i);
    hide Rows, PrintInt, PrintDecimal, ParseInt, ParseDecimal, VariantOf;
    match Rows()[i].kind
    case Toggle =>
      assert "true" == ["true", "on", "1", "yes"][0] && "false" == ["false", "off", "0", "no"][0];
      assert "false" !in ["true", "on", "1", "yes"];
    case Choice(variants) => ChoiceReads(variants, v.at);
    case Whole(width, _) => IntReads(v.n, width.lo, width.hi);
    case Fraction(_, _) => DecimalReads(v.d);
  }

  // ----- the whole text -----

  /** The first row that answers to a name; `ROWS` for none. */
  function FirstRow(name: string, from: nat): (i: nat)
    requires from <= ROWS
    ensures from <= i <= ROWS
    ensures i < ROWS ==> Matches(Rows()[i], name)
    ensures forall j :: from <= j < i ==> !Matches(Rows()[j], name)
    decreases ROWS - from
  {
    if from == ROWS || Matches(Rows()[from], name) then from else FirstRow(name, from + 1)
  }

  function AfterLine(vs: seq<Value>, line: string): seq<Value>
    requires |vs| == ROWS
  {
    match KeyValue(line)
    case None => vs
    case Some((key, value)) =>
      var i := FirstRow(key, 0);
      if i == ROWS then vs
      else
        match Read(Rows()[i].kind, value)
        case Some(v) => vs[i := v]
        case None => vs
  }

  function AfterLines(vs: seq<Value>, lines: seq<string>): (r: seq<Value>)
    requires |vs| == ROWS
    ensures |r| == ROWS
  {
    if lines == [] then vs else AfterLine(AfterLines(vs, lines[..|lines| - 1]), lines[|lines| - 1])
  }

  /** What parsing a text over `vs` leaves. */
  function AfterText(vs: seq<Value>, text: string): seq<Value>
    requires |vs| == ROWS
  {
    AfterLines(vs, Lines(text))
  }

  function RowLine(vs: seq<Value>, i: nat): string
    requires Typed(vs) && i < ROWS
  {
    Rows()[i].key + "=" + Write(Rows()[i].kind, vs[i]) + "\n"
  }

  /** The lines of the first `n` rows. */
  function Printed(vs: seq<Value>, n: nat): string
    requires Typed(vs) && n <= ROWS
  {
    if n == 0 then "" else Printed(vs, n - 1) + RowLine(vs, n - 1)
  }

  /** The file: every row, the format line, and the packages' options. */
  function FileText(vs: seq<Value>, options: string): string
    requires Typed(vs)
  {
    Printed(vs, ROWS) + FORMAT_KEY + "=1\n" + options
  }

  // ----- clamping -----

  function Limited(n: int, lo: int, hi: int): int {
    if n < lo then lo else if n > hi then hi else n
  }

  function Capped(n: int): int {
    if n > 0x7FFF_FFFF then 0x7FFF_FFFF else n
  }

  /** A 32-bit pattern read as signed. */
  function AsI32(n: int): int {
    if n > 0x7FFF_FFFF then n - 0x1_0000_0000 else n
  }

  /** The largest entry at most `v`, or the first entry. */
  function SnapDown(list: seq<int>, v: int): int
    requires list != []
  {
    if list[|list| - 1] <= v || |list| == 1 then list[|list| - 1] else SnapDown(list[..|list| - 1], v)
  }

  /** The largest positive entry at most `v`, else the smallest positive one; zero stays zero. */
  function SnapRate(rates: seq<int>, v: int): int {
    if v == 0 || rates == [] then 0
    else
      var last := rates[|rates| - 1];
      if last <= 0 then SnapRate(rates[..|rates| - 1], v)
      else if last <= v then last
      else
        var below := SnapRate(rates[..|rates| - 1], v);
        if below == 0 then last else below
  }

  function MsaaClamp(n: int, device: nat): int {
    var snapped := SnapDown(MSAA, AsI32(n));
    if snapped > device then SnapDown(MSAA, AsI32(device)) else snapped
  }

  function FracValue(ds: seq<nat>): real {
    if ds == [] then 0.0 else (ds[0] as real + FracValue(ds[1..])) / 10.0
  }

  function Amount(d: Decimal): real {
    var size := d.whole as real + FracValue(d.frac);
    if d.neg then -size else size
  }

  function ClampValue(kind: Kind, v: Value, device: nat): Value {
    match kind
    case Toggle => v
    case Choice(_) => v
    case Whole(_, rule) =>
      if !v.Number? then v
      else
        (match rule
         case Range(lo, hi) => Number(Limited(v.n, lo, hi))
         case Rate(rates) => Number(SnapRate(rates, Capped(v.n)))
         case Fps => if v.n == 0 then v else Number(Limited(v.n, 10, 1000))
         case Msaa => Number(MsaaClamp(v.n, device)))
    case Fraction(min, max) =>
      if !v.Real? then v
      else if Amount(v.d) < Amount(min) then Real(min)
      else if Amount(v.d) > Amount(max) then Real(max)
      else v
  }

  function Clamped(vs: seq<Value>, device: nat): (r: seq<Value>)
    requires |vs| == ROWS
    ensures |r| == ROWS
  {
    seq(ROWS, i requires 0 <= i < ROWS => ClampValue(Rows()[i].kind, vs[i], device))
  }

  // ----- clamping twice is clamping once -----

  ghost predicate Ascending(rates: seq<int>) {
    forall i, j :: 0 <= i < j < |rates| ==> rates[i] < rates[j]
  }

  lemma {:induction false} SnapRateOffers(rates: seq<int>, v: int)
    ensures SnapRate(rates, v) == 0 || (SnapRate(rates, v) > 0 && SnapRate(rates, v) in rates)
  {
    if v != 0 && rates != [] {
      SnapRateOffers(rates[..|rates| - 1], v);
    }
  }

  /** An offered rate is left alone. */
  lemma {:induction false} SnapRateKeeps(rates: seq<int>, rate: int)
    requires Ascending(rates) && rate in rates && rate > 0
    ensures SnapRate(rates, rate) == rate
  {
    var init := rates[..|rates| - 1];
    if rate != rates[|rates| - 1] {
      var i :| 0 <= i < |rates| && rates[i] == rate;
      assert init[i] == rate;
      SnapRateKeeps(init, rate);
    }
  }

  lemma RangesHold(i: nat)
    requires i < ROWS
    ensures match Rows()[i].kind
            case Toggle => true
            case Choice(_) => true
            case Whole(_, Range(lo, hi)) => lo <= hi
            case Whole(_, Rate(rates)) => rates == UPDATE_RATES || rates == PHYSICS_RATES
            case Whole(_, _) => true
            case Fraction(min, max) => Amount(min) <= Amount(max)
  {
    Amounts();
    hide Amount;
    if i < 23 {
      assert Rows()[i] == FirstRows()[i];
    } else {
      assert Rows()[i] == LaterRows()[i - 23];
    }
  }

  lemma Amounts()
    ensures Amount(Dec(false, 60, [])) <= Amount(Dec(false, 220, []))
      && Amount(Dec(false, 0, [])) <= Amount(Dec(false, 1, []))
    ensures Amount(Dec(false, 0, [2, 5])) <= Amount(Dec(false, 2, []))
      && Amount(Dec(false, 0, [5])) <= Amount(Dec(false, 2, []))
  {
    assert [2, 5][1..] == [5] && [5][1..] == [];
    assert FracValue([]) == 0.0;
    assert FracValue([5]) == 0.5;
  }

  lemma SupportedCounts(n: int)
    ensures SnapDown(MSAA, n) == if n >= 8 then 8 else if n >= 4 then 4 else if n >= 2 then 2 else 1
  {
    assert [1, 2][..1] == [1] && [1, 2, 4][..2] == [1, 2] && MSAA[..3] == [1, 2, 4];
    assert SnapDown([1, 2], n) == if n >= 2 then 2 else 1;
    assert SnapDown([1, 2, 4], n) == if n >= 4 then 4 else SnapDown([1, 2], n);
  }

  lemma MsaaTwice(n: int, device: nat)
    requires device <= 0xFFFF_FFFF
    ensures MsaaClamp(MsaaClamp(n, device), device) == MsaaClamp(n, device)
  {
    var m := MsaaClamp(n, device);
    SupportedCounts(AsI32(n));
    SupportedCounts(AsI32(device));
    SupportedCounts(AsI32(m));
  }

  /** Clamping is safe to repeat, row by row. */
  lemma ClampTwice(i: nat, v: Value, device: nat)
    requires i < ROWS && Fits(Rows()[i].kind, v) && device <= 0xFFFF_FFFF
    ensures var kind := Rows()[i].kind;
            ClampValue(kind, ClampValue(kind, v, device), device) == ClampValue(kind, v, device)
  {
    RangesHold(i);
    RowIsWellFormed(i);
    hide Rows, MsaaClamp, Amount, SnapRate;
    match Rows()[i].kind
    case Toggle =>
    case Choice(_) =>
    case Whole(_, rule) =>
      if rule.Rate? {
        RateTwice(rule.rates, v.n);
      }
      if rule.Msaa? {
        MsaaTwice(v.n, device);
      }
    case Fraction(_, _) =>
  }

  // ----- what clamping lands on -----

  /** The value is one its row offers: within the range, a rate of the list, no limit or 10 to 1000
      frames, a supported sample count that the device has. */
  predicate Offered(kind: Kind, v: Value, device: nat) {
    match kind
    case Toggle => v.Flag?
    case Choice(variants) => v.Coded? && v.at < |variants|
    case Whole(_, rule) =>
      && v.Number?
      && (match rule
          case Range(lo, hi) => lo <= v.n <= hi
          case Rate(rates) => v.n in rates
          case Fps => v.n == 0 || 10 <= v.n <= 1000
          case Msaa => v.n in MSAA && (v.n == 1 || v.n <= device))
    case Fraction(min, max) => v.Real? && Amount(min) <= Amount(v.d) <= Amount(max)
  }

  ghost predicate AllOffered(vs: seq<Value>, device: nat)
    requires |vs| == ROWS
  {
    forall i :: 0 <= i < ROWS ==> Offered(Rows()[i].kind, vs[i], device)
  }

  lemma RateLands(rates: seq<int>, n: int)
    requires rates == UPDATE_RATES || rates == PHYSICS_RATES
    ensures SnapRate(rates, Capped(n)) in rates
    ensures SnapRate(rates, Capped(n)) == n <==> n in rates
  {
    SnapRateOffers(rates, Capped(n));
    assert 0 == rates[0];
    if n in rates && n > 0 {
      SnapRateKeeps(rates, n);
    }
  }

  lemma MsaaLands(n: int, device: nat)
    requires device <= 0xFFFF_FFFF
    ensures MsaaClamp(n, device) in MSAA && (MsaaClamp(n, device) == 1 || MsaaClamp(n, device) <= device)
    ensures MsaaClamp(n, device) == n <==> n in MSAA && (n == 1 || n <= device)
  {
    SupportedCounts(AsI32(n));
    SupportedCounts(AsI32(device));
    assert MSAA[0] == 1 && MSAA[1] == 2 && MSAA[2] == 4 && MSAA[3] == 8;
  }

  /** A clamped value is one its row offers, and only values the row does not offer are changed. */
  lemma ClampLands(i: nat, v: Value, device: nat)
    requires i < ROWS && Fits(Rows()[i].kind, v) && device <= 0xFFFF_FFFF
    ensures var kind := Rows()[i].kind;
            && Offered(kind, ClampValue(kind, v, device), device)
            && (ClampValue(kind, v, device) == v <==> Offered(kind, v, device))
  {
    RangesHold(i);
    RowIsWellFormed(i);
    hide Rows, MsaaClamp, Amount, SnapRate;
    match Rows()[i].kind
    case Toggle =>
    case Choice(_) =>
    case Whole(_, rule) =>
      if rule.Rate? {
        RateLands(rule.rates, v.n);
      }
      if rule.Msaa? {
        MsaaLands(v.n, device);
      }
    case Fraction(_, _) =>
  }

  /** All rows at once: clamping lands on what is offered, and leaves alone exactly what was. */
  lemma ClampedIsOffered(vs: seq<Value>, device: nat)
    requires Typed(vs) && device <= 0xFFFF_FFFF
    ensures AllOffered(Clamped(vs, device), device)
    ensures Clamped(vs, device) == vs <==> AllOffered(vs, device)
  {
    hide Rows, ClampValue, Offered;
    forall i | 0 <= i < ROWS
      ensures Offered(Rows()[i].kind, Clamped(vs, device)[i], device)
      ensures Clamped(vs, device)[i] == vs[i] <==> Offered(Rows()[i].kind, vs[i], device)
    {
      ClampLands(i, vs[i], device);
    }
  }

  lemma RateTwice(rates: seq<int>, n: int)
    requires rates == UPDATE_RATES || rates == PHYSICS_RATES
    ensures var r := SnapRate(rates, Capped(n));
            SnapRate(rates, Capped(r)) == r
  {
    var r := SnapRate(rates, Capped(n));
    SnapRateOffers(rates, Capped(n));
    if r > 0 {
      SnapRateKeeps(rates, r);
    }
  }

  // ----- the text undoes itself -----

  /** Lines that name no setting. */
  ghost predicate Foreign(lines: seq<string>) {
    forall k :: 0 <= k < |lines| ==> ForeignLine(lines[k])
  }

  ghost predicate ForeignLine(line: string) {
    KeyValue(line).Some? ==> FirstRow(KeyValue(line).value.0, 0) == ROWS
  }

  lemma {:induction false} ForeignKeeps(vs: seq<Value>, lines: seq<string>)
    requires |vs| == ROWS && Foreign(lines)
    ensures AfterLines(vs, lines) == vs
  {
    if lines != [] {
      ForeignKeeps(vs, lines[..|lines| - 1]);
      assert ForeignLine(lines[|lines| - 1]);
    }
  }

  lemma {:induction false} AfterJoined(vs: seq<Value>, a: seq<string>, b: seq<string>)
    requires |vs| == ROWS
    ensures AfterLines(vs, a + b) == AfterLines(AfterLines(vs, a), b)
  {
    if b == [] {
      assert a + b == a;
    } else {
      var init := b[..|b| - 1];
      assert (a + b)[..|a + b| - 1] == a + init;
      AfterJoined(vs, a, init);
    }
  }

  /** A row's own name finds that row. */
  lemma KeyFindsRow(i: nat)
    requires i < ROWS
    ensures FirstRow(Rows()[i].key, 0) == i && Plain(Rows()[i].key)
  {
    RowOwnsItsNames(i);
    hide Rows;
    var j := FirstRow(Rows()[i].key, 0);
    assert Matches(Rows()[i], Rows()[i].key);
    if j < ROWS {
      NamesAreDistinct(i, j, Rows()[i].key);
    }
  }

  /** A row's line sets that row to what was written. */
  lemma RowLineReads(vs: seq<Value>, s: seq<Value>, i: nat)
    requires |vs| == ROWS && Typed(s) && i < ROWS
    ensures AfterLine(vs, Rows()[i].key + "=" + Write(Rows()[i].kind, s[i])) == vs[i := s[i]]
  {
    KeyFindsRow(i);
    CodecReads(i, s[i]);
    LineReads(Rows()[i].key, Write(Rows()[i].kind, s[i]));
    hide Rows, Read, Write, KeyValue, FirstRow;
  }

  /** `s` up to row `n`, `t` from there on. */
  function Mixed(s: seq<Value>, t: seq<Value>, n: nat): seq<Value>
    requires |s| == ROWS && |t| == ROWS && n <= ROWS
  {
    s[..n] + t[n..]
  }

  /** The first line of a text is a row's: it is read, the rest follows. */
  lemma FirstLineReads(vs: seq<Value>, s: seq<Value>, i: nat, rest: string)
    requires |vs| == ROWS && Typed(s) && i < ROWS
    ensures AfterText(vs, RowLine(s, i) + rest) == AfterText(vs[i := s[i]], rest)
  {
    var key, value := Rows()[i].key, Write(Rows()[i].kind, s[i]);
    KeyFindsRow(i);
    CodecReads(i, s[i]);
    LineFirst(key, value, rest);
    RowLineReads(vs, s, i);
    hide Rows, Write, FirstRow, Lines, AfterLine, AfterLines;
    assert RowLine(s, i) + rest == key + "=" + value + "\n" + rest;
    AfterJoined(vs, [key + "=" + value], Lines(rest));
    OneLine(vs, key + "=" + value);
  }

  lemma {:induction false} PrintedReads(s: seq<Value>, t: seq<Value>, n: nat, rest: string)
    requires Typed(s) && |s| == ROWS && |t| == ROWS && n <= ROWS
    ensures AfterText(t, Printed(s, n) + rest) == AfterText(Mixed(s, t, n), rest)
    decreases n
  {
    hide Typed, AfterText, RowLine;
    if n == 0 {
      assert Printed(s, 0) + rest == rest && Mixed(s, t, 0) == t;
    } else {
      var i := n - 1;
      assert Printed(s, n) + rest == Printed(s, i) + (RowLine(s, i) + rest);
      PrintedReads(s, t, i, RowLine(s, i) + rest);
      FirstLineReads(Mixed(s, t, i), s, i, rest);
      assert Mixed(s, t, i)[i := s[i]] == Mixed(s, t, n);
    }
  }

  lemma OneLine(vs: seq<Value>, line: string)
    requires |vs| == ROWS
    ensures AfterLines(vs, [line]) == AfterLine(vs, line)
  {
    assert [line][..0] == [];
  }

  /** Reading the file over any settings gives back every persisted field, whatever the options say. */
  lemma TextUndoesItself(s: seq<Value>, t: seq<Value>, options: string)
    requires Typed(s) && |t| == ROWS && Foreign(Lines(options))
    ensures AfterText(t, FileText(s, options)) == s
  {
    hide Rows, FirstRow, Lines, Printed, KeyValue;
    var rest := FORMAT_KEY + "=1\n" + options;
    assert FileText(s, options) == Printed(s, ROWS) + rest;
    PrintedReads(s, t, ROWS, rest);
    assert Mixed(s, t, ROWS) == s;
    FormatLineIsForeign();
    assert rest == FORMAT_KEY + "=" + "1" + "\n" + options;
    FormatKeyIsPlain();
    LineFirst(FORMAT_KEY, "1", options);
    ForeignKeeps(s, Lines(rest));
  }

  lemma FormatKeyIsPlain()
    ensures Plain(FORMAT_KEY) && Plain("1")
  {
  }

  lemma FormatLineIsForeign()
    ensures ForeignLine(FORMAT_KEY + "=" + "1")
  {
    FormatKeyIsPlain();
    LineReads(FORMAT_KEY, "1");
    var i := FirstRow(FORMAT_KEY, 0);
    if i < ROWS {
      FormatKeyMatchesNone(i);
    }
  }

  // ----- with clamping: exactly when a clamped value survives -----

  /** A clamped sample count survives another device's ceiling exactly when it fits under it. */
  lemma MsaaSurvives(n: int, device: nat, other: nat)
    requires n == MsaaClamp(n, device) && 0 <= device <= 0xFFFF_FFFF && 0 <= other <= 0xFFFF_FFFF
    ensures MsaaClamp(n, other) == n <==> n == 1 || n <= other
  {
    SupportedCounts(AsI32(n));
    SupportedCounts(AsI32(device));
    SupportedCounts(AsI32(other));
  }

  /** Saved on one device and loaded on another: all is as it was, exactly if the sample count fits. */
  lemma LoadRestoresSave(s: seq<Value>, t: seq<Value>, options: string, device: nat, other: nat)
    requires Typed(s) && |t| == ROWS && Foreign(Lines(options)) && Clamped(s, device) == s
    requires device <= 0xFFFF_FFFF && other <= 0xFFFF_FFFF
    ensures var loaded := Clamped(AfterText(t, FileText(s, options)), other);
            var samples := s[MSAA_ROW];
            && samples.Number?
            && loaded == s[MSAA_ROW := Number(MsaaClamp(samples.n, other))]
            && (loaded == s <==> samples.n == 1 || samples.n <= other)
  {
    TextUndoesItself(s, t, options);
    var loaded := Clamped(s, other);
    SamplesSurvive(s, device, other);
    forall i | 0 <= i < ROWS && i != MSAA_ROW ensures loaded[i] == s[i] {
      OtherRowSurvives(s, i, device, other);
    }
    hide *;
    assert loaded == s[MSAA_ROW := loaded[MSAA_ROW]];
  }

  lemma SamplesSurvive(s: seq<Value>, device: nat, other: nat)
    requires Typed(s) && Clamped(s, device) == s && device <= 0xFFFF_FFFF && other <= 0xFFFF_FFFF
    ensures |s| == ROWS && s[MSAA_ROW].Number?
    ensures Clamped(s, other)[MSAA_ROW] == Number(MsaaClamp(s[MSAA_ROW].n, other))
    ensures MsaaClamp(s[MSAA_ROW].n, other) == s[MSAA_ROW].n <==> s[MSAA_ROW].n == 1 || s[MSAA_ROW].n <= other
  {
    MsaaRow();
    hide Rows, MsaaClamp;
    assert Clamped(s, device)[MSAA_ROW] == s[MSAA_ROW];
    MsaaSurvives(s[MSAA_ROW].n, device, other);
  }

  lemma OtherRowSurvives(s: seq<Value>, i: nat, device: nat, other: nat)
    requires |s| == ROWS && Clamped(s, device) == s && i < ROWS && i != MSAA_ROW
    ensures Clamped(s, other)[i] == s[i]
  {
    RowIsWellFormed(i);
    hide Rows, MsaaClamp, SnapRate, Amount;
    assert Clamped(s, device)[i] == s[i];
  }

  lemma MsaaRow()
    ensures Rows()[MSAA_ROW].kind == Whole(U32, Msaa)
  {
    assert Rows()[MSAA_ROW] == FirstRows()[MSAA_ROW];
  }

  /** Four samples saved on a capable device come back as two on a lesser one. */
  lemma LesserDeviceLosesSamples()
    ensures MsaaClamp(4, 8) == 4 && MsaaClamp(4, 2) == 2
  {
    SupportedCounts(4);
    SupportedCounts(2);
  }

  // ----- the settings object -----

  class Settings {
    var values: seq<Value>
    /** The device's ceiling, from the startup probe: not persisted. */
    var deviceMaxMsaa: nat

    ghost predicate Valid()
      reads this
    {
      Typed(values) && deviceMaxMsaa <= 0xFFFF_FFFF
    }

    constructor (values: seq<Value>)
      requires Typed(values)
      ensures Valid() && this.values == values && deviceMaxMsaa == 8
    {
      this.values, deviceMaxMsaa := values, 8;
    }

    /** Look each line's key up in the table and store what reads; anything else is skipped. */
    method ParseFrom(text: string)
      requires |values| == ROWS
      modifies this`values
      ensures values == AfterText(old(values), text)
    {
      var lines := Lines(text);
      var k := 0;
      while k < |lines|
        invariant 0 <= k <= |lines| && |values| == ROWS
        invariant values == AfterLines(old(values), lines[..k])
      {
        assert lines[..k + 1][..k] == lines[..k];
        match KeyValue(lines[k]) {
          case None =>
          case Some((key, value)) =>
            var i := FindRow(key);
            if i < ROWS {
              match Read(Rows()[i].kind, value) {
                case Some(v) => values := values[i := v];
                case None =>
              }
            }
        }
        k := k + 1;
      }
      assert lines[..k] == lines;
    }

    method FindRow(name: string) returns (i: nat)
      ensures i == FirstRow(name, 0)
    {
      hide Rows, Matches;
      i := 0;
      while i < ROWS && !Matches(Rows()[i], name)
        invariant 0 <= i <= ROWS && FirstRow(name, 0) == FirstRow(name, i)
      {
        i := i + 1;
      }
    }

    method ToText(options: string) returns (text: string)
      requires Valid()
      ensures text == FileText(values, options)
    {
      hide Rows, Write;
      text := "";
      var i := 0;
      while i < ROWS
        invariant 0 <= i <= ROWS && text == Printed(values, i)
      {
        text := text + RowLine(values, i);
        i := i + 1;
      }
      text := text + FORMAT_KEY + "=1\n" + options;
    }

    /** Afterwards every value is one its row offers. */
    method Clamp()
      requires |values| == ROWS
      modifies this`values
      ensures values == Clamped(old(values), deviceMaxMsaa)
      ensures old(Valid()) ==>
        AllOffered(values, deviceMaxMsaa) && (values == old(values) <==> AllOffered(old(values), deviceMaxMsaa))
    {
      hide Rows, ClampValue, AllOffered, Typed;
      ghost var valid := Valid();
      if valid {
        ClampedIsOffered(values, deviceMaxMsaa);
      }
      var i := 0;
      while i < ROWS
        invariant 0 <= i <= ROWS && |values| == ROWS
        invariant forall j :: 0 <= j < i ==> values[j] == ClampValue(Rows()[j].kind, old(values)[j], deviceMaxMsaa)
        invariant forall j :: i <= j < ROWS ==> values[j] == old(values)[j]
      {
        values := values[i := ClampValue(Rows()[i].kind, values[i], deviceMaxMsaa)];
        i := i + 1;
      }
    }
  }
}
