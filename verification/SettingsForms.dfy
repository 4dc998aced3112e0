/** A settings file written by hand: padded lines, repeated keys, and the ways a number may be spelled. */
module SettingsForms {
  import opened Common
  import opened SettingsText
  import opened SettingsTable
  import opened SettingsFile

  // ----- lines -----

  ghost predicate Blank(s: string) {
    forall i :: 0 <= i < |s| ==> s[i] == ' ' || s[i] == '\t' || s[i] == '\r'
  }

  /** There is nothing to trim. */
  ghost predicate Edged(s: string) {
    s != "" ==> !IsSpace(s[0]) && !IsSpace(s[|s| - 1])
  }

  lemma {:induction false} StartTrimmed(pad: string, s: string)
    requires Blank(pad)
    ensures TrimStart(pad + s) == TrimStart(s)
  {
    if pad != "" {
      assert (pad + s)[1..] == pad[1..] + s;
      StartTrimmed(pad[1..], s);
    } else {
      assert pad + s == s;
    }
  }

  lemma {:induction false} EndTrimmed(s: string, pad: string)
    requires Blank(pad)
    ensures TrimEnd(s + pad) == TrimEnd(s)
  {
    if pad != "" {
      var last := |pad| - 1;
      assert (s + pad)[..|s + pad| - 1] == s + pad[..last];
      EndTrimmed(s, pad[..last]);
    } else {
      assert s + pad == s;
    }
  }

  lemma PadTrimmed(before: string, s: string, after: string)
    requires Blank(before) && Edged(s) && Blank(after)
    ensures Trim(before + s + after) == s
  {
    assert before + s + after == before + (s + after);
    StartTrimmed(before, s + after);
    if s == "" {
      assert s + after == after && after + "" == after && "" + "" == "";
      StartTrimmed(after, "");
    } else {
      assert TrimStart(s + after) == s + after;
      EndTrimmed(s, after);
    }
  }

  /** Blanks around a key and around a value are no part of them; a value may hold more `=` signs. */
  lemma PaddedLineReads(a: string, key: string, b: string, c: string, value: string, d: string)
    requires Blank(a) && Blank(b) && Blank(c) && Blank(d) && Edged(key) && Edged(value) && '=' !in key
    ensures KeyValue(a + key + b + "=" + c + value + d) == Some((key, value))
  {
    var head, tail := a + key + b, c + value + d;
    assert a + key + b + "=" + c + value + d == head + ['='] + tail;
    assert '=' !in head;
    IndexOfJoined(head, '=', tail);
    assert (head + ['='] + tail)[..|head|] == head && (head + ['='] + tail)[|head| + 1..] == tail;
    hide Trim, IndexOf;
    PadTrimmed(a, key, b);
    PadTrimmed(c, value, d);
  }

  /** A line ends at a line feed, which takes one carriage return before it along; the last needs none. */
  lemma LineEnds(line: string, rest: string)
    requires '\n' !in line && (line != "" ==> line[|line| - 1] != '\r')
    ensures Lines(line + "\n" + rest) == [line] + Lines(rest) == Lines(line + "\r\n" + rest)
    ensures line != "" ==> Lines(line) == [line]
  {
    hide Lines;
    var long := line + "\r";
    assert line + "\n" + rest == line + ['\n'] + rest && line + "\r\n" + rest == long + ['\n'] + rest;
    LineSplit(line, rest);
    LineSplit(long, rest);
    assert long[..|line|] == line;
    if line != "" {
      LineAlone(line);
    }
  }

  lemma LineSplit(line: string, rest: string)
    requires '\n' !in line
    ensures Lines(line + ['\n'] + rest) == [WithoutReturn(line)] + Lines(rest)
  {
    var text := line + ['\n'] + rest;
    IndexOfJoined(line, '\n', rest);
    hide IndexOf, WithoutReturn;
    assert text != "" && text[..|line|] == line && text[|line| + 1..] == rest;
  }

  lemma LineAlone(line: string)
    requires '\n' !in line && line != ""
    ensures Lines(line) == [line]
  {
    assert IndexOf(line, '\n') == |line|;
  }

  // ----- which line a row ends with -----

  /** The line names the row, by key or alias, with a value the row reads. */
  ghost predicate Sets(line: string, i: nat, v: Value)
    requires i < ROWS
  {
    && KeyValue(line).Some? && (KeyValue(line).value.0 == Rows()[i].key || KeyValue(line).value.0 in Rows()[i].aliases)
    && Read(Rows()[i].kind, KeyValue(line).value.1) == Some(v)
  }

  /** One line changes the row it sets, and no other. */
  lemma LineSets(vs: seq<Value>, line: string, i: nat)
    requires |vs| == ROWS && i < ROWS
    ensures forall v :: Sets(line, i, v) ==> AfterLine(vs, line)[i] == v
    ensures (forall v :: !Sets(line, i, v)) ==> AfterLine(vs, line)[i] == vs[i]
  {
    hide Rows, Read;
    if KeyValue(line).Some? {
      var (key, value) := KeyValue(line).value;
      var j := FirstRow(key, 0);
      if j < ROWS && Matches(Rows()[i], key) {
        NamesAreDistinct(i, j, key);
      }
      if j == i && Read(Rows()[i].kind, value).Some? {
        assert Sets(line, i, Read(Rows()[i].kind, value).value);
      }
    }
  }

  /** Parsing leaves a row with what the last line that sets it says, and as it was if none does. */
  lemma {:induction false} LastLineWins(vs: seq<Value>, lines: seq<string>, i: nat, k: nat, v: Value)
    requires |vs| == ROWS && i < ROWS && k <= |lines|
    requires k < |lines| ==> Sets(lines[k], i, v)
    requires forall j, w :: k < j < |lines| ==> !Sets(lines[j], i, w)
    requires k == |lines| ==> v == vs[i] && forall j, w :: 0 <= j < |lines| ==> !Sets(lines[j], i, w)
    ensures AfterLines(vs, lines)[i] == v
  {
    hide Sets, AfterLine, Rows;
    if lines != [] {
      var last := |lines| - 1;
      LineSets(AfterLines(vs, lines[..last]), lines[last], i);
      if k != last {
        assert forall w :: !Sets(lines[last], i, w);
        LastLineWins(vs, lines[..last], i, if k < last then k else last, v);
      }
    }
  }

  // ----- numbers -----

  /** Digits read, and nothing else does. */
  lemma {:induction false} DigitsReadExactly(s: string)
    ensures ParseDigits(s).Some? <==> AllDigits(s)
  {
    if s != "" {
      var init := s[..|s| - 1];
      DigitsReadExactly(init);
      assert AllDigits(s) ==> AllDigits(init);
      assert AllDigits(init) && IsDigit(s[|s| - 1]) ==> AllDigits(s) by {
        assert forall i :: 0 <= i < |init| ==> init[i] == s[i];
      }
    }
  }

  /** Leading zeros change nothing. */
  lemma {:induction false} ZeroLeads(s: string)
    ensures ParseDigits("0" + s) == ParseDigits(s)
  {
    if s == "" {
      assert "0" + s == "0" && "0"[..0] == "";
      assert ParseDigits("") == Some(0);
    } else {
      var t := "0" + s;
      assert t[..|t| - 1] == "0" + s[..|s| - 1];
      ZeroLeads(s[..|s| - 1]);
    }
  }

  /** A number may carry a plus, or a minus where its type is signed; it has a digit, and lies in its type. */
  lemma IntReadsExactly(s: string, lo: int, hi: int, v: int)
    requires lo <= 0 <= hi
    ensures ParseInt(s, lo, hi) == Some(v) <==>
      && lo <= v <= hi && s != ""
      && if s[0] == '+' then s != "+" && ParseDigits(s[1..]) == Some(v)
         else if s[0] == '-' then lo < 0 && s != "-" && v <= 0 && ParseDigits(s[1..]) == Some(-v)
         else ParseDigits(s) == Some(v)
  {
    if s != "" && s[0] == '-' && lo >= 0 {
      DigitsReadExactly(s);
      assert !IsDigit(s[0]);
    }
    hide ParseDigits;
  }

  /** A decimal is digits with at most one point among them, on one side of which there is a digit. */
  lemma DecimalReadsExactly(w: string, f: string)
    requires '.' !in w
    ensures ParseUnsigned(w).Some? <==> w != "" && AllDigits(w)
    ensures ParseUnsigned(w + "." + f).Some? <==> AllDigits(w) && AllDigits(f) && (w != "" || f != "")
    ensures AllDigits(w) && AllDigits(f) && (w != "" || f != "") ==>
      && ParseDigits(w).Some?
      && ParseUnsigned(w + "." + f) == Some(Dec(false, ParseDigits(w).value, WithoutZeros(DigitsOf(f))))
  {
    DigitsReadExactly(w);
    IndexOfJoined(w, '.', f);
    var body := w + "." + f;
    assert body == w + ['.'] + f;
    assert IndexOf(w, '.') == |w| && w[..|w|] == w;
    hide IndexOf, ParseDigits, DigitsOf, WithoutZeros;
    assert body[..|w|] == w && body[|w| + 1..] == f;
  }

  /** Zeros after the fraction change nothing. */
  lemma {:induction false} ZeroTrails(ds: seq<nat>)
    ensures WithoutZeros(ds + [0]) == WithoutZeros(ds)
  {
    assert (ds + [0])[..|ds|] == ds;
  }

  lemma UnsignedHasNoSign(body: string)
    ensures ParseUnsigned(body).Some? ==> !ParseUnsigned(body).value.neg
  {
    hide ParseDigits, IndexOf, DigitsOf, WithoutZeros;
  }

  /** A sign turns a decimal over, and only the first counts. */
  lemma SignedReads(body: string)
    requires body != "" ==> body[0] != '+' && body[0] != '-'
    ensures ParseDecimal("+" + body) == ParseDecimal(body) == ParseUnsigned(body)
    ensures match ParseUnsigned(body)
            case Some(d) => ParseDecimal("-" + body) == Some(Dec(true, d.whole, d.frac))
            case None => ParseDecimal("-" + body).None?
  {
    UnsignedHasNoSign(body);
    hide ParseUnsigned;
    assert ("+" + body)[1..] == body && ("-" + body)[1..] == body;
  }
}
