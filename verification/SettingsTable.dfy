/** The settings table: one row per persisted field, with its names and its codec. */
module SettingsTable {
  import opened Common
  import opened SettingsText

  /** A word an enumeration is written as, and the words it is read from. */
  datatype Variant = Variant(code: string, words: seq<string>)

  datatype Width = Width(lo: int, hi: int)

  const U8 := Width(0, 255)
  const U32 := Width(0, 0xFFFF_FFFF)
  const I32 := Width(-0x8000_0000, 0x7FFF_FFFF)

  /** How a whole number is forced into its valid range. */
  datatype Rule = Range(lo: int, hi: int) | Rate(rates: seq<int>) | Fps | Msaa

  datatype Kind =
    | Toggle
    | Choice(variants: seq<Variant>)
    | Whole(width: Width, rule: Rule)
    | Fraction(min: Decimal, max: Decimal)

  datatype Row = Row(key: string, aliases: seq<string>, kind: Kind)

  const UPDATE_RATES := [0, 15, 30, 60, 120, 240]
  const PHYSICS_RATES := [0, 30, 60, 120, 240, 500, 1000]
  const MSAA := [1, 2, 4, 8]

  const PRESETS := [
    Variant("0", ["custom", "0"]), Variant("1", ["minimum", "min", "1"]),
    Variant("2", ["fast", "2"]), Variant("3", ["default", "3"])]
  const HUD_MODES := [Variant("2", ["full", "2"]), Variant("1", ["minimal", "min", "1"]), Variant("0", ["off", "0"])]
  const VRS_CHOICES := [Variant("auto", ["auto"]), Variant("on", ["on", "true"]), Variant("off", ["off", "false"])]

  const FORMAT_KEY := "options_format"

  /** Every setting, in menu and persistence order. */
  function Rows(): (rows: seq<Row>)
    ensures |rows| == ROWS
  {
    FirstRows() + LaterRows()
  }

  function FirstRows(): (rows: seq<Row>)
    ensures |rows| == 23
  {
    [
      Row("preset", ["profile"], Choice(PRESETS)),
      Row("vertical_distance", ["vertical", "verticaldist"], Whole(I32, Range(1, 10))),
      Row("stream_hz", ["streamrate"], Whole(U32, Rate(UPDATE_RATES))),
      Row("physics_hz", ["physicsrate"], Whole(U32, Rate(PHYSICS_RATES))),
      Row("sky_hz", ["skyrate"], Whole(U32, Rate(UPDATE_RATES))),
      Row("module_hz", ["modulerate", "modrate", "mod_hz"], Whole(U32, Rate(UPDATE_RATES))),
      Row("hud_mode", ["hud"], Choice(HUD_MODES)),
      Row("module_logic", ["modules", "mods", "mod_logic"], Toggle),
      Row("autosave", [], Toggle),
      Row("minimap", ["map"], Toggle),
      Row("player_models", ["models"], Toggle),
      Row("name_tags", ["nametags"], Toggle),
      Row("fullscreen", [], Toggle),
      Row("vsync", [], Toggle),
      Row("lighting", ["light"], Toggle),
      Row("msaa", [], Whole(U32, Msaa)),
      Row("max_fps", ["fps"], Whole(U32, Fps)),
      Row("render_distance", ["renderdist", "renderdistance"], Whole(I32, Range(0, 20))),
      Row("fov", [], Fraction(Dec(false, 60, []), Dec(false, 220, []))),
      Row("render_scale", ["renderscale", "scale"], Fraction(Dec(false, 0, [2, 5]), Dec(false, 2, []))),
      Row("ui_scale", ["uiscale", "hudscale"], Fraction(Dec(false, 0, [5]), Dec(false, 2, []))),
      Row("menu_scale", ["menuscale"], Fraction(Dec(false, 0, [5]), Dec(false, 2, []))),
      Row("shake", ["camerashake"], Fraction(Dec(false, 0, []), Dec(false, 1, [])))
    ]
  }

  function LaterRows(): (rows: seq<Row>)
    ensures |rows| == 23
  {
    [
      Row("lod2", ["lod"], Toggle),
      Row("occlusion", ["occ"], Toggle),
      Row("sky", [], Toggle),
      Row("sunlight", ["sun"], Toggle),
      Row("ambient", ["amb"], Toggle),
      Row("shadows", ["shadow"], Toggle),
      Row("blocklight", [], Toggle),
      Row("fog", [], Toggle),
      Row("clouds", [], Toggle),
      Row("weather", [], Toggle),
      Row("stars", [], Toggle),
      Row("day_night", ["daynight"], Toggle),
      Row("bloom", [], Toggle),
      Row("godrays", [], Toggle),
      Row("exposure", ["exp"], Toggle),
      Row("taa", ["aa"], Toggle),
      Row("vrs", [], Choice(VRS_CHOICES)),
      Row("ao", ["vertexao"], Toggle),
      Row("vignette", [], Toggle),
      Row("master_volume", ["volume", "master"], Whole(U8, Range(0, 100))),
      Row("effects_volume", ["effects", "sfx"], Whole(U8, Range(0, 100))),
      Row("voice_volume", ["voice_vol"], Whole(U8, Range(0, 100))),
      Row("voice_incoming", ["deafen_inverse", "hearvoice"], Toggle)
    ]
  }

  const ROWS := 46
  const MSAA_ROW := 15

  predicate Matches(row: Row, name: string) {
    row.key == name || name in row.aliases
  }

  // ----- no name belongs to two rows -----

  /** A fingerprint of a name: its length, first letter and last two letters. */
  function Print4(s: string): int {
    if |s| < 2 then |s|
    else ((|s| * 128 + s[0] as int) * 128 + s[|s| - 1] as int) * 128 + s[|s| - 2] as int
  }

  /** The row that owns a fingerprint; `ROWS` for none. */
  function Owner(p: int): int {
    match p
    case 14432869 => 0
    case 16528108 => 0
    case 37597923 => 1
    case 18724449 => 1
    case 27114099 => 1
    case 20774248 => 2
    case 22868724 => 2
    case 22822248 => 3
    case 24916724 => 3
    case 14482792 => 4
    case 16577268 => 4
    case 20675944 => 5
    case 22770420 => 5
    case 16478964 => 5
    case 14384488 => 5
    case 18494180 => 6
    case 8008309 => 6
    case 26964457 => 7
    case 16480741 => 7
    case 10189284 => 7
    case 20673001 => 7
    case 18379510 => 8
    case 16480353 => 9
    case 8091745 => 9
    case 29112812 => 10
    case 14383596 => 10
    case 20691431 => 11
    case 18594279 => 11
    case 22656869 => 12
    case 12431854 => 13
    case 18559982 => 14
    case 12270184 => 14
    case 10186977 => 15
    case 16480752 => 16
    case 7977456 => 16
    case 33338083 => 17
    case 22854259 => 17
    case 31240931 => 17
    case 7977839 => 18
    case 27046636 => 19
    case 24949484 => 19
    case 12382956 => 19
    case 18707180 => 20
    case 16610028 => 20
    case 18494188 => 20
    case 22770412 => 21
    case 20673260 => 21
    case 12382955 => 22
    case 24703723 => 22
    case 10164580 => 23
    case 8073839 => 23
    case 20707183 => 24
    case 8122851 => 24
    case 8191211 => 25
    case 18676328 => 26
    case 8189813 => 26
    case 16284270 => 27
    case 7893357 => 27
    case 16579063 => 28
    case 14482415 => 28
    case 22592104 => 29
    case 7975919 => 30
    case 14219748 => 31
    case 16644453 => 32
    case 12384754 => 33
    case 20527720 => 34
    case 18430568 => 34
    case 12105455 => 35
    case 16382457 => 36
    case 18445042 => 37
    case 7960696 => 37
    case 8204513 => 38
    case 5796065 => 38
    case 8239602 => 39
    case 5797857 => 40
    case 18724833 => 40
    case 18723572 => 41
    case 29061869 => 42
    case 14529261 => 42
    case 14383461 => 42
    case 31027949 => 43
    case 16349684 => 43
    case 8191078 => 43
    case 27112173 => 44
    case 20821615 => 44
    case 31306734 => 45
    case 31011571 => 45
    case 20591331 => 45
    case _ => ROWS
  }

  /** The names are plain words, and their fingerprints are the row's. */
  ghost predicate Owned(key: string, aliases: seq<string>, i: int) {
    && Plain(key) && Owner(Print4(key)) == i
    && forall k :: 0 <= k < |aliases| ==> Owner(Print4(aliases[k])) == i
  }

  lemma Names0()
    ensures Owned("preset", ["profile"], 0)
    ensures Owned("vertical_distance", ["vertical", "verticaldist"], 1)
    ensures Owned("stream_hz", ["streamrate"], 2)
  {
  }

  lemma Names3()
    ensures Owned("physics_hz", ["physicsrate"], 3)
    ensures Owned("sky_hz", ["skyrate"], 4)
    ensures Owned("module_hz", ["modulerate", "modrate", "mod_hz"], 5)
  {
  }

  lemma Names6()
    ensures Owned("hud_mode", ["hud"], 6)
    ensures Owned("module_logic", ["modules", "mods", "mod_logic"], 7)
    ensures Owned("autosave", [], 8)
  {
  }

  lemma Names9()
    ensures Owned("minimap", ["map"], 9)
    ensures Owned("player_models", ["models"], 10)
    ensures Owned("name_tags", ["nametags"], 11)
  {
  }

  lemma Names12()
    ensures Owned("fullscreen", [], 12)
    ensures Owned("vsync", [], 13)
    ensures Owned("lighting", ["light"], 14)
  {
  }

  lemma Names15()
    ensures Owned("msaa", [], 15)
    ensures Owned("max_fps", ["fps"], 16)
    ensures Owned("render_distance", ["renderdist", "renderdistance"], 17)
  {
  }

  lemma Names18()
    ensures Owned("fov", [], 18)
    ensures Owned("render_scale", ["renderscale", "scale"], 19)
  {
  }

  lemma Names20()
    ensures Owned("ui_scale", ["uiscale", "hudscale"], 20)
    ensures Owned("menu_scale", ["menuscale"], 21)
  {
  }

  lemma Names22()
    ensures Owned("shake", ["camerashake"], 22)
    ensures Owned("lod2", ["lod"], 23)
  {
  }

  lemma Names24()
    ensures Owned("occlusion", ["occ"], 24)
    ensures Owned("sky", [], 25)
    ensures Owned("sunlight", ["sun"], 26)
  {
  }

  lemma Names27()
    ensures Owned("ambient", ["amb"], 27)
    ensures Owned("shadows", ["shadow"], 28)
    ensures Owned("blocklight", [], 29)
  {
  }

  lemma Names30()
    ensures Owned("fog", [], 30)
    ensures Owned("clouds", [], 31)
    ensures Owned("weather", [], 32)
  {
  }

  lemma Names33()
    ensures Owned("stars", [], 33)
    ensures Owned("day_night", ["daynight"], 34)
    ensures Owned("bloom", [], 35)
  {
  }

  lemma Names36()
    ensures Owned("godrays", [], 36)
    ensures Owned("exposure", ["exp"], 37)
  {
  }

  lemma Names38()
    ensures Owned("taa", ["aa"], 38)
    ensures Owned("vrs", [], 39)
  {
  }

  lemma Names40()
    ensures Owned("ao", ["vertexao"], 40)
    ensures Owned("vignette", [], 41)
  {
  }

  lemma Names42()
    ensures Owned("master_volume", ["volume", "master"], 42)
  {
  }

  lemma Names43()
    ensures Owned("effects_volume", ["effects", "sfx"], 43)
  {
  }

  lemma Names44()
    ensures Owned("voice_volume", ["voice_vol"], 44)
  {
  }

  lemma Names45()
    ensures Owned("voice_incoming", ["deafen_inverse", "hearvoice"], 45)
  {
  }

  lemma RowsOwnFrom0(i: nat)
    requires 0 <= i < 8
    ensures Owned(Rows()[i].key, Rows()[i].aliases, i)
  {
    hide Owned;
    assert Rows()[i] == FirstRows()[i];
    match i {
      case 0 => Names0(); case 1 => Names0(); case 2 => Names0(); case 3 => Names3();
      case 4 => Names3(); case 5 => Names3(); case 6 => Names6(); case 7 => Names6();
      case _ =>
    }
  }

  lemma RowsOwnFrom8(i: nat)
    requires 8 <= i < 15
    ensures Owned(Rows()[i].key, Rows()[i].aliases, i)
  {
    hide Owned;
    assert Rows()[i] == FirstRows()[i];
    match i {
      case 8 => Names6(); case 9 => Names9(); case 10 => Names9(); case 11 => Names9();
      case 12 => Names12(); case 13 => Names12(); case 14 => Names12();
      case _ =>
    }
  }

  lemma RowsOwnFrom15(i: nat)
    requires 15 <= i < 23
    ensures Owned(Rows()[i].key, Rows()[i].aliases, i)
  {
    hide Owned;
    assert Rows()[i] == FirstRows()[i];
    match i {
      case 15 => Names15(); case 16 => Names15(); case 17 => Names15(); case 18 => Names18();
      case 19 => Names18(); case 20 => Names20(); case 21 => Names20(); case 22 => Names22();
      case _ =>
    }
  }

  lemma RowsOwnFrom23(i: nat)
    requires 23 <= i < 31
    ensures Owned(Rows()[i].key, Rows()[i].aliases, i)
  {
    hide Owned;
    assert Rows()[i] == LaterRows()[i - 23];
    match i {
      case 23 => Names22(); case 24 => Names24(); case 25 => Names24(); case 26 => Names24();
      case 27 => Names27(); case 28 => Names27(); case 29 => Names27(); case 30 => Names30();
      case _ =>
    }
  }

  lemma RowsOwnFrom31(i: nat)
    requires 31 <= i < 39
    ensures Owned(Rows()[i].key, Rows()[i].aliases, i)
  {
    hide Owned;
    assert Rows()[i] == LaterRows()[i - 23];
    match i {
      case 31 => Names30(); case 32 => Names30(); case 33 => Names33(); case 34 => Names33();
      case 35 => Names33(); case 36 => Names36(); case 37 => Names36(); case 38 => Names38();
      case _ =>
    }
  }

  lemma RowsOwnFrom39(i: nat)
    requires 39 <= i < 46
    ensures Owned(Rows()[i].key, Rows()[i].aliases, i)
  {
    hide Owned;
    assert Rows()[i] == LaterRows()[i - 23];
    match i {
      case 39 => Names38(); case 40 => Names40(); case 41 => Names40(); case 42 => Names42();
      case 43 => Names43(); case 44 => Names44(); case 45 => Names45();
      case _ =>
    }
  }

  lemma RowOwnsItsNames(i: nat)
    requires i < ROWS
    ensures Owned(Rows()[i].key, Rows()[i].aliases, i)
  {
    hide Owned, Rows;
    if i < 8 {
      RowsOwnFrom0(i);
    } else if i < 15 {
      RowsOwnFrom8(i);
    } else if i < 23 {
      RowsOwnFrom15(i);
    } else if i < 31 {
      RowsOwnFrom23(i);
    } else if i < 39 {
      RowsOwnFrom31(i);
    } else {
      RowsOwnFrom39(i);
    }
  }

  /** A row that answers to a name owns its fingerprint. */
  lemma MatchOwns(i: nat, name: string)
    requires i < ROWS && Matches(Rows()[i], name)
    ensures Owner(Print4(name)) == i
  {
    RowOwnsItsNames(i);
    hide Owner, Print4, Rows;
    var row := Rows()[i];
    if row.key != name {
      var k :| 0 <= k < |row.aliases| && row.aliases[k] == name;
    }
  }

  /** No name belongs to two rows. */
  lemma NamesAreDistinct(i: nat, j: nat, name: string)
    requires i < ROWS && j < ROWS && Matches(Rows()[i], name) && Matches(Rows()[j], name)
    ensures i == j
  {
    hide *;
    MatchOwns(i, name);
    MatchOwns(j, name);
  }

  /** The format line is no setting. */
  lemma FormatKeyMatchesNone(i: nat)
    requires i < ROWS
    ensures !Matches(Rows()[i], FORMAT_KEY)
  {
    assert Owner(Print4(FORMAT_KEY)) == ROWS by {
      assert Print4("options_format") == 31193697;
    }
    hide *;
    if Matches(Rows()[i], FORMAT_KEY) {
      MatchOwns(i, FORMAT_KEY);
    }
  }

  /** One row is clamped by the device; every whole number's type holds zero; the enumerations are these three. */
  predicate WellFormed(i: int, kind: Kind) {
    match kind
    case Toggle => true
    case Choice(variants) => variants == PRESETS || variants == HUD_MODES || variants == VRS_CHOICES
    case Whole(width, rule) => width.lo <= 0 <= width.hi && (rule.Msaa? <==> i == MSAA_ROW)
    case Fraction(_, _) => true
  }

  lemma RowIsWellFormed(i: nat)
    requires i < ROWS
    ensures WellFormed(i, Rows()[i].kind)
  {
    hide PRESETS, HUD_MODES, VRS_CHOICES;
    if i < 23 {
      assert Rows()[i] == FirstRows()[i];
    } else {
      assert Rows()[i] == LaterRows()[i - 23];
    }
  }
}
