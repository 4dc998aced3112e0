/** What the settings file accepts, and where clamping sends what a row does not offer: to the nearest offered
    value, or down the list. */
module SettingsClamp {
  import opened Common
  import opened SettingsText
  import opened SettingsTable
  import opened SettingsFile

  function Gap(a: int, b: int): int {
    if a < b then b - a else a - b
  }

  function RealGap(a: real, b: real): real {
    if a < b then b - a else a - b
  }

  /** No whole number from `lo` to `hi` is nearer to `n`. */
  ghost predicate Nearest(n: int, lo: int, hi: int, to: int) {
    lo <= to <= hi && forall k :: lo <= k <= hi ==> Gap(to, n) <= Gap(k, n)
  }

  ghost predicate NearestAmount(a: real, lo: real, hi: real, to: real) {
    lo <= to <= hi && forall k: real :: lo <= k <= hi ==> RealGap(to, a) <= RealGap(k, a)
  }

  /** Zero stays; any other rate goes to the largest positive one of the list at most it, and one below all of
      them to the smallest. */
  ghost predicate RateAtMost(rates: seq<int>, n: int, to: int) {
    if n == 0 then to == 0
    else
      && to in rates && to > 0
      && forall r :: r in rates && r > 0 ==> (r <= n ==> r <= to <= n) && (to > n ==> to <= r)
  }

  /** The largest count supported at most the one asked for and the device's; a negative one is the least. */
  ghost predicate CountAtMost(n: int, device: nat, to: int) {
    && to in [1, 2, 4, 8]
    && forall m :: m in [1, 2, 4, 8] ==> (m <= to <==> m == 1 || (m <= n < 0x8000_0000 && m <= device))
  }

  /** Where a row's clamp sends a value. */
  ghost predicate GoesTo(kind: Kind, v: Value, device: nat, to: Value) {
    match kind
    case Toggle => to == v
    case Choice(_) => to == v
    case Whole(_, rule) =>
      && v.Number? && to.Number?
      && (match rule
          case Range(lo, hi) => Nearest(v.n, lo, hi, to.n)
          case Rate(rates) => RateAtMost(rates, v.n, to.n)
          case Fps => if v.n == 0 then to.n == 0 else Nearest(v.n, 10, 1000, to.n)
          case Msaa => CountAtMost(v.n, device, to.n))
    case Fraction(min, max) =>
      v.Real? && to.Real? && NearestAmount(Amount(v.d), Amount(min), Amount(max), Amount(to.d))
  }

  lemma LastIsMost(init: seq<int>, last: int)
    requires Ascending(init + [last])
    ensures Ascending(init) && forall r :: r in init ==> r < last
  {
    forall r | r in init ensures r < last {
      var i :| 0 <= i < |init| && init[i] == r;
      assert (init + [last])[i] == r && (init + [last])[|init|] == last;
    }
    assert (init + [last])[..|init|] == init;
  }

  ghost predicate SomePositive(rates: seq<int>) {
    exists r :: r in rates && r > 0
  }

  /** The last entry of an ascending list either is at most `n`, or is passed over for the ones before it. */
  lemma OneMoreRate(init: seq<int>, last: int, n: int, to: int)
    requires n > 0 && last > 0 && forall r :: r in init ==> r < last
    ensures last <= n ==> RateAtMost(init + [last], n, last)
    ensures last > n && RateAtMost(init, n, to) ==> RateAtMost(init + [last], n, to)
    ensures last > n && !SomePositive(init) ==> RateAtMost(init + [last], n, last)
  {
    assert forall r :: r in init + [last] <==> r in init || r == last;
  }

  lemma {:induction false} SnapsDown(rates: seq<int>, n: int)
    requires Ascending(rates) && n > 0 && SomePositive(rates)
    ensures RateAtMost(rates, n, SnapRate(rates, n))
  {
    var k := |rates| - 1;
    var init, last := rates[..k], rates[k];
    assert rates == init + [last];
    LastIsMost(init, last);
    var r :| r in rates && r > 0;
    assert r == last || r in init;
    hide RateAtMost, Ascending;
    OneMoreRate(init, last, n, SnapRate(init, n));
    SnapRateOffers(init, n);
    if SomePositive(init) {
      SnapsDown(init, n);
      assert RateAtMost(init, n, SnapRate(init, n)) ==> SnapRate(init, n) > 0 by { SnappedIsPositive(init, n); }
    }
  }

  lemma SnappedIsPositive(rates: seq<int>, n: int)
    requires n > 0
    ensures RateAtMost(rates, n, SnapRate(rates, n)) ==> SnapRate(rates, n) > 0
  {
    hide SnapRate;
  }

  lemma ListedRates()
    ensures Ascending(UPDATE_RATES) && Ascending(PHYSICS_RATES)
    ensures 30 in UPDATE_RATES && 30 in PHYSICS_RATES
    ensures forall r :: r in UPDATE_RATES || r in PHYSICS_RATES ==> r <= 1000
  {
    assert UPDATE_RATES[2] == 30 && PHYSICS_RATES[1] == 30;
  }

  lemma RateGoesTo(rates: seq<int>, n: int)
    requires (rates == UPDATE_RATES || rates == PHYSICS_RATES) && n >= 0
    ensures RateAtMost(rates, n, SnapRate(rates, Capped(n)))
  {
    ListedRates();
    if n > 0 {
      assert 30 in rates && SomePositive(rates);
      SnapsDown(rates, Capped(n));
    }
  }

  lemma CountGoesTo(n: int, device: nat)
    requires 0 <= n <= 0xFFFF_FFFF && device <= 0xFFFF_FFFF
    ensures CountAtMost(n, device, MsaaClamp(n, device))
  {
    SupportedCounts(AsI32(n));
    SupportedCounts(AsI32(device));
    assert MSAA == [1, 2, 4, 8];
    var four := [1, 2, 4, 8];
    assert four[0] == 1 && four[1] == 2 && four[2] == 4 && four[3] == 8;
  }

  lemma LimitedIsNearest(n: int, lo: int, hi: int)
    requires lo <= hi
    ensures Nearest(n, lo, hi, Limited(n, lo, hi))
  {
  }

  /** Every row sends every value where its rule says. */
  lemma ClampGoesTo(i: nat, v: Value, device: nat)
    requires i < ROWS && Fits(Rows()[i].kind, v) && device <= 0xFFFF_FFFF
    ensures GoesTo(Rows()[i].kind, v, device, ClampValue(Rows()[i].kind, v, device))
  {
    RangesHold(i);
    RowIsWellFormed(i);
    hide Rows, MsaaClamp, Amount, SnapRate, RateAtMost, CountAtMost;
    match Rows()[i].kind
    case Whole(_, rule) =>
      match rule {
        case Range(lo, hi) => LimitedIsNearest(v.n, lo, hi);
        case Rate(rates) => RateGoesTo(rates, v.n);
        case Fps => LimitedIsNearest(v.n, 10, 1000);
        case Msaa => CountGoesTo(v.n, device);
      }
    case _ =>
  }

  // ----- what is read -----

  /** A row is found by its key and by each of its aliases. */
  lemma NameFindsRow(i: nat, name: string)
    requires i < ROWS && (name == Rows()[i].key || name in Rows()[i].aliases)
    ensures FirstRow(name, 0) == i
  {
    hide Rows;
    assert Matches(Rows()[i], name);
    var j := FirstRow(name, 0);
    assert j < ROWS;
    NamesAreDistinct(i, j, name);
  }

  /** A switch is read from four words either way, and from no other. */
  lemma SwitchWords(word: string)
    ensures ParseToggle(word) ==
            if word == "true" || word == "on" || word == "1" || word == "yes" then Some(true)
            else if word == "false" || word == "off" || word == "0" || word == "no" then Some(false)
            else None
  {
    var yes, no := ["true", "on", "1", "yes"], ["false", "off", "0", "no"];
    assert yes[0] == "true" && yes[1] == "on" && yes[2] == "1" && yes[3] == "yes";
    assert no[0] == "false" && no[1] == "off" && no[2] == "0" && no[3] == "no";
  }

  /** No word stands for two of the variants. */
  ghost predicate WordsApart(variants: seq<Variant>) {
    forall i, j, word :: 0 <= i < j < |variants| && word in variants[i].words ==> word !in variants[j].words
  }

  /** An enumeration is read from any word of its variants. */
  lemma {:induction false} WordReads(variants: seq<Variant>, at: nat, word: string)
    requires WordsApart(variants) && at < |variants| && word in variants[at].words
    ensures VariantOf(variants, word) == at
  {
    if at > 0 {
      assert variants[1..][at - 1] == variants[at];
      assert WordsApart(variants[1..]) by {
        forall i, j, w | 0 <= i < j < |variants[1..]| && w in variants[1..][i].words
          ensures w !in variants[1..][j].words
        {
          assert variants[1..][i] == variants[i + 1] && variants[1..][j] == variants[j + 1];
        }
      }
      WordReads(variants[1..], at - 1, word);
    }
  }

  lemma PresetsApart()
    ensures WordsApart(PRESETS)
  {
    assert PRESETS[0].words == ["custom", "0"] && PRESETS[1].words == ["minimum", "min", "1"];
    assert PRESETS[2].words == ["fast", "2"] && PRESETS[3].words == ["default", "3"];
  }

  lemma HudModesApart()
    ensures WordsApart(HUD_MODES)
  {
    assert HUD_MODES[0].words == ["full", "2"] && HUD_MODES[1].words == ["minimal", "min", "1"];
    assert HUD_MODES[2].words == ["off", "0"];
  }

  lemma VrsChoicesApart()
    ensures WordsApart(VRS_CHOICES)
  {
    assert VRS_CHOICES[0].words == ["auto"] && VRS_CHOICES[1].words == ["on", "true"];
    assert VRS_CHOICES[2].words == ["off", "false"];
  }

  /** So each of the three choices of the table is read from any of its words. */
  lemma AnyWordReads(variants: seq<Variant>, at: nat, word: string)
    requires variants == PRESETS || variants == HUD_MODES || variants == VRS_CHOICES
    requires at < |variants| && word in variants[at].words
    ensures VariantOf(variants, word) == at
  {
    PresetsApart();
    HudModesApart();
    VrsChoicesApart();
    hide WordsApart;
    WordReads(variants, at, word);
  }
}
