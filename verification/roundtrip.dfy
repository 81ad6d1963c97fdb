/** Write-then-parse: the text `WriteConfig` produces for a configuration
    with the default key sets is read back by `ParseConfig` as the same
    configuration, provided its keys and string values survive the format
    (the format has no escaping). */
module ConfigRoundTrip {
  import opened Wrappers
  import opened GoText
  import opened GoConv
  import opened ConfigModel
  import opened ConfigParse
  import opened ConfigWrite

  /** A key whose `key=value` line is read back as that key: no `=` (the
      line is split at the first one), no newline, and no leading white
      space, `#` or `[` (the line would be trimmed, skipped or a header). */
  predicate WritableKey(k: string) {
    '=' !in k && '\n' !in k && (k == [] || (!IsSpace(k[0]) && k[0] != '#' && k[0] != '['))
  }

  /** A value text that is read back unchanged: no newline and no trailing
      white space (the line would be split or trimmed). */
  predicate WritableText(v: string) {
    '\n' !in v && (v == [] || !IsSpace(v[|v| - 1]))
  }

  /** Every entry of `m` can be written and read back with `show`. */
  predicate WritableMap<V>(m: map<string, V>, show: V -> string) {
    forall k :: k in m ==> WritableKey(k) && WritableText(show(m[k]))
  }

  predicate Writable(c: Config, showFloat: Float64 -> string) {
    WritableMap(c.bools, FormatBool) && WritableMap(c.strings, ShowString) &&
    WritableMap(c.ints, FormatInt) && WritableMap(c.floats, showFloat)
  }

  /** Every float the writer renders is accepted by the float parser. */
  predicate FloatsReadable(floats: map<string, Float64>, showFloat: Float64 -> string,
                           parseFloat: string -> Option<Float64>) {
    forall k :: k in floats ==> parseFloat(showFloat(floats[k])).Some?
  }

  /** The floats as the parser reads back their rendering. */
  function Reread(floats: map<string, Float64>, showFloat: Float64 -> string,
                  parseFloat: string -> Option<Float64>): (r: map<string, Float64>)
    requires FloatsReadable(floats, showFloat, parseFloat)
    ensures r.Keys == floats.Keys
  {
    map k | k in floats :: parseFloat(showFloat(floats[k])).value
  }

  /** `m` after the entries `ks` have been overwritten, in order, with their
      values in `c`. */
  function Overwrite<V>(m: map<string, V>, c: map<string, V>, ks: seq<string>): (r: map<string, V>)
    requires forall i :: 0 <= i < |ks| ==> ks[i] in c
    ensures forall k :: k in r <==> k in m || k in ks
    ensures forall k :: k in ks ==> r[k] == c[k]
    ensures forall k :: k in m && k !in ks ==> r[k] == m[k]
    decreases |ks|
  {
    if ks == [] then m else Overwrite(m[ks[0] := c[ks[0]]], c, ks[1..])
  }

  /** Overwriting every key of `m` with its value in `c` gives `c`. */
  lemma OverwriteEvery<V>(m: map<string, V>, c: map<string, V>, ks: seq<string>)
    requires m.Keys == c.Keys
    requires Enumerates(ks, c.Keys)
    ensures Overwrite(m, c, ks) == c
  {
    var r := Overwrite(m, c, ks);
    assert r.Keys == c.Keys;
  }

  /** A written entry line is read as exactly that key and value. */
  lemma EntryLineClassified(k: string, v: string)
    requires WritableKey(k) && WritableText(v)
    ensures Classify(EntryLine(k, v)) == Entry(k, v)
    ensures '\n' !in EntryLine(k, v)
    ensures EntryLine(k, v)[|EntryLine(k, v)| - 1] != '\r'
  {
    var line := EntryLine(k, v);
    EntryLineEnds(k, v);
    TrimSpaceOfTrimmed(line);
    SplitFirstOfJoin(k, '=', v);
    assert line == k + ['='] + v;
  }

  /** The first and last characters of a written entry line. */
  lemma EntryLineEnds(k: string, v: string)
    requires WritableKey(k) && WritableText(v)
    ensures var line := EntryLine(k, v);
      line != [] && line[0] != '#' && line[0] != '[' && !IsSpace(line[0])
      && !IsSpace(line[|line| - 1]) && line[|line| - 1] != '\r' && '\n' !in line
  {
    var line := EntryLine(k, v);
    assert line == k + ['='] + v;
    assert line[0] == if k == [] then '=' else k[0];
    assert line[|line| - 1] == if v == [] then '=' else v[|v| - 1];
  }

  /** A written entry line is handled as its key and value under the
      current section. */
  lemma StepEntry(st: ParserState, k: string, v: string, parseFloat: string -> Option<Float64>)
    requires WritableKey(k) && WritableText(v)
    ensures Step(st, EntryLine(k, v), parseFloat) == Store(st, k, v, parseFloat)
  {
    EntryLineClassified(k, v);
  }

  lemma {:induction false} RunBoolEntries(st: ParserState, c: map<string, bool>, ks: seq<string>,
                                          parseFloat: string -> Option<Float64>)
    requires st.section == "bool"
    requires forall i :: 0 <= i < |ks| ==> ks[i] in c && ks[i] in st.config.bools && WritableKey(ks[i])
    ensures Run(st, EntryLines(c, ks, FormatBool), parseFloat)
            == Ok(ParserState("bool", st.config.(bools := Overwrite(st.config.bools, c, ks))))
    decreases |ks|
  {
    if ks != [] {
      var k := ks[0];
      var lines := EntryLines(c, ks, FormatBool);
      assert lines == [EntryLine(k, FormatBool(c[k]))] + EntryLines(c, ks[1..], FormatBool);
      StepEntry(st, k, FormatBool(c[k]), parseFloat);
      var next := ParserState("bool", st.config.(bools := st.config.bools[k := c[k]]));
      assert Store(st, k, FormatBool(c[k]), parseFloat) == Ok(next);
      assert lines[1..] == EntryLines(c, ks[1..], FormatBool);
      RunBoolEntries(next, c, ks[1..], parseFloat);
    }
  }

  lemma {:induction false} RunStringEntries(st: ParserState, c: map<string, string>, ks: seq<string>,
                                            parseFloat: string -> Option<Float64>)
    requires st.section == "string"
    requires forall i :: 0 <= i < |ks| ==> ks[i] in c && ks[i] in st.config.strings && WritableKey(ks[i])
                                           && WritableText(c[ks[i]])
    ensures Run(st, EntryLines(c, ks, ShowString), parseFloat)
            == Ok(ParserState("string", st.config.(strings := Overwrite(st.config.strings, c, ks))))
    decreases |ks|
  {
    if ks != [] {
      var k := ks[0];
      var lines := EntryLines(c, ks, ShowString);
      assert lines == [EntryLine(k, c[k])] + EntryLines(c, ks[1..], ShowString);
      StepEntry(st, k, c[k], parseFloat);
      var next := ParserState("string", st.config.(strings := st.config.strings[k := c[k]]));
      assert Store(st, k, c[k], parseFloat) == Ok(next);
      assert lines[1..] == EntryLines(c, ks[1..], ShowString);
      RunStringEntries(next, c, ks[1..], parseFloat);
    }
  }

  lemma {:induction false} RunIntEntries(st: ParserState, c: map<string, Int64>, ks: seq<string>,
                                         parseFloat: string -> Option<Float64>)
    requires st.section == "int"
    requires forall i :: 0 <= i < |ks| ==> ks[i] in c && ks[i] in st.config.ints && WritableKey(ks[i])
    ensures Run(st, EntryLines(c, ks, FormatInt), parseFloat)
            == Ok(ParserState("int", st.config.(ints := Overwrite(st.config.ints, c, ks))))
    decreases |ks|
  {
    if ks != [] {
      var k := ks[0];
      var lines := EntryLines(c, ks, FormatInt);
      assert lines == [EntryLine(k, FormatInt(c[k]))] + EntryLines(c, ks[1..], FormatInt);
      StepEntry(st, k, FormatInt(c[k]), parseFloat);
      var next := ParserState("int", st.config.(ints := st.config.ints[k := c[k]]));
      assert Store(st, k, FormatInt(c[k]), parseFloat) == Ok(next);
      assert lines[1..] == EntryLines(c, ks[1..], FormatInt);
      RunIntEntries(next, c, ks[1..], parseFloat);
    }
  }

  lemma {:induction false} RunFloatEntries(st: ParserState, c: map<string, Float64>, ks: seq<string>,
                                           showFloat: Float64 -> string, parseFloat: string -> Option<Float64>)
    requires st.section == "float"
    requires FloatsReadable(c, showFloat, parseFloat)
    requires forall i :: 0 <= i < |ks| ==> ks[i] in c && ks[i] in st.config.floats && WritableKey(ks[i])
                                           && WritableText(showFloat(c[ks[i]]))
    ensures Run(st, EntryLines(c, ks, showFloat), parseFloat)
            == Ok(ParserState("float", st.config.(floats :=
                    Overwrite(st.config.floats, Reread(c, showFloat, parseFloat), ks))))
    decreases |ks|
  {
    if ks != [] {
      var k := ks[0];
      var lines := EntryLines(c, ks, showFloat);
      assert lines == [EntryLine(k, showFloat(c[k]))] + EntryLines(c, ks[1..], showFloat);
      var f := Reread(c, showFloat, parseFloat)[k];
      StepEntry(st, k, showFloat(c[k]), parseFloat);
      var next := ParserState("float", st.config.(floats := st.config.floats[k := f]));
      assert Store(st, k, showFloat(c[k]), parseFloat) == Ok(next);
      assert lines[1..] == EntryLines(c, ks[1..], showFloat);
      RunFloatEntries(next, c, ks[1..], showFloat, parseFloat);
    }
  }

  /** The header line of a written block opens that section. */
  lemma HeaderStep(st: ParserState, name: string, parseFloat: string -> Option<Float64>)
    ensures Step(st, "[" + name + "]", parseFloat) == Ok(ParserState(name, st.config))
  {
    var l := "[" + name + "]";
    assert !IsSpace(l[0]) && !IsSpace(l[|l| - 1]);
    TrimSpaceOfTrimmed(l);
    ClassifyHeader(l, name);
  }

  lemma RunBoolBlock(st: ParserState, c: map<string, bool>, ks: seq<string>, parseFloat: string -> Option<Float64>)
    requires st.config.bools.Keys == c.Keys && Enumerates(ks, c.Keys) && WritableMap(c, FormatBool)
    ensures Run(st, Block("bool", c, ks, FormatBool), parseFloat)
            == Ok(ParserState(if |c| == 0 then st.section else "bool", st.config.(bools := c)))
  {
    if |c| == 0 {
      assert st.config.bools == c;
    } else {
      var lines := Block("bool", c, ks, FormatBool);
      var inSection := ParserState("bool", st.config);
      HeaderStep(st, "bool", parseFloat);
      assert lines[1..] == EntryLines(c, ks, FormatBool);
      RunBoolEntries(inSection, c, ks, parseFloat);
      OverwriteEvery(st.config.bools, c, ks);
    }
  }

  lemma RunStringBlock(st: ParserState, c: map<string, string>, ks: seq<string>,
                       parseFloat: string -> Option<Float64>)
    requires st.config.strings.Keys == c.Keys && Enumerates(ks, c.Keys) && WritableMap(c, ShowString)
    ensures Run(st, Block("string", c, ks, ShowString), parseFloat)
            == Ok(ParserState(if |c| == 0 then st.section else "string", st.config.(strings := c)))
  {
    if |c| == 0 {
      assert st.config.strings == c;
    } else {
      var lines := Block("string", c, ks, ShowString);
      var inSection := ParserState("string", st.config);
      HeaderStep(st, "string", parseFloat);
      assert lines[1..] == EntryLines(c, ks, ShowString);
      RunStringEntries(inSection, c, ks, parseFloat);
      OverwriteEvery(st.config.strings, c, ks);
    }
  }

  lemma RunIntBlock(st: ParserState, c: map<string, Int64>, ks: seq<string>, parseFloat: string -> Option<Float64>)
    requires st.config.ints.Keys == c.Keys && Enumerates(ks, c.Keys) && WritableMap(c, FormatInt)
    ensures Run(st, Block("int", c, ks, FormatInt), parseFloat)
            == Ok(ParserState(if |c| == 0 then st.section else "int", st.config.(ints := c)))
  {
    if |c| == 0 {
      assert st.config.ints == c;
    } else {
      var lines := Block("int", c, ks, FormatInt);
      var inSection := ParserState("int", st.config);
      HeaderStep(st, "int", parseFloat);
      assert lines[1..] == EntryLines(c, ks, FormatInt);
      RunIntEntries(inSection, c, ks, parseFloat);
      OverwriteEvery(st.config.ints, c, ks);
    }
  }

  lemma RunFloatBlock(st: ParserState, c: map<string, Float64>, ks: seq<string>,
                      showFloat: Float64 -> string, parseFloat: string -> Option<Float64>)
    requires st.config.floats.Keys == c.Keys && Enumerates(ks, c.Keys) && WritableMap(c, showFloat)
    requires FloatsReadable(c, showFloat, parseFloat)
    ensures Run(st, Block("float", c, ks, showFloat), parseFloat)
            == Ok(ParserState(if |c| == 0 then st.section else "float",
                              st.config.(floats := Reread(c, showFloat, parseFloat))))
  {
    var back := Reread(c, showFloat, parseFloat);
    if |c| == 0 {
      assert st.config.floats == back;
    } else {
      var lines := Block("float", c, ks, showFloat);
      var inSection := ParserState("float", st.config);
      HeaderStep(st, "float", parseFloat);
      assert lines[1..] == EntryLines(c, ks, showFloat);
      RunFloatEntries(inSection, c, ks, showFloat, parseFloat);
      OverwriteEvery(st.config.floats, back, ks);
    }
  }

  /** Parsing the rendered lines from any state whose configuration has the
      key sets of `c` ends with `c`'s values (floats as read back). */
  lemma RunRender(st: ParserState, c: Config, o: Order, showFloat: Float64 -> string,
                  parseFloat: string -> Option<Float64>)
    requires SameKeys(st.config, c) && IsOrderOf(o, c) && Writable(c, showFloat)
    requires FloatsReadable(c.floats, showFloat, parseFloat)
    ensures Run(st, Render(c, o, showFloat), parseFloat).Ok?
    ensures Run(st, Render(c, o, showFloat), parseFloat).value.config
            == c.(floats := Reread(c.floats, showFloat, parseFloat))
  {
    var b1 := Block("bool", c.bools, o.bools, FormatBool);
    var b2 := Block("string", c.strings, o.strings, ShowString);
    var b3 := Block("int", c.ints, o.ints, FormatInt);
    var b4 := Block("float", c.floats, o.floats, showFloat);
    RunBoolBlock(st, c.bools, o.bools, parseFloat);
    var s1 := Run(st, b1, parseFloat).value;
    RunStringBlock(s1, c.strings, o.strings, parseFloat);
    var s2 := Run(s1, b2, parseFloat).value;
    RunIntBlock(s2, c.ints, o.ints, parseFloat);
    var s3 := Run(s2, b3, parseFloat).value;
    RunFloatBlock(s3, c.floats, o.floats, showFloat, parseFloat);
    RunAppend(st, b1, b2, parseFloat);
    RunAppend(st, b1 + b2, b3, parseFloat);
    RunAppend(st, b1 + b2 + b3, b4, parseFloat);
  }

  /** Lines that `ScanLines` gets back from the text `Unlines` makes of them. */
  predicate Scannable(lines: seq<string>) {
    forall i :: 0 <= i < |lines| ==> '\n' !in lines[i] && (lines[i] == [] || lines[i][|lines[i]| - 1] != '\r')
  }

  lemma BlockScannable<V>(name: string, m: map<string, V>, ks: seq<string>, show: V -> string)
    requires '\n' !in name
    requires forall i :: 0 <= i < |ks| ==> ks[i] in m
    requires WritableMap(m, show)
    ensures Scannable(Block(name, m, ks, show))
  {
    if |m| != 0 {
      var lines := EntryLines(m, ks, show);
      forall i | 0 <= i < |lines| ensures '\n' !in lines[i] && lines[i][|lines[i]| - 1] != '\r' {
        EntryLineClassified(ks[i], show(m[ks[i]]));
      }
      var h := "[" + name + "]";
      assert '\n' !in h && h[|h| - 1] == ']';
      assert Block(name, m, ks, show) == [h] + lines;
    }
  }

  lemma ScannableAppend(a: seq<string>, b: seq<string>)
    requires Scannable(a) && Scannable(b)
    ensures Scannable(a + b)
  {
    forall i | 0 <= i < |a + b|
      ensures '\n' !in (a + b)[i] && ((a + b)[i] == [] || (a + b)[i][|(a + b)[i]| - 1] != '\r')
    {
      if i < |a| {
        assert (a + b)[i] == a[i];
      } else {
        assert (a + b)[i] == b[i - |a|];
      }
    }
  }

  lemma RenderScannable(c: Config, o: Order, showFloat: Float64 -> string)
    requires IsOrderOf(o, c) && Writable(c, showFloat)
    ensures ScanLines(Unlines(Render(c, o, showFloat))) == Render(c, o, showFloat)
  {
    var b1 := Block("bool", c.bools, o.bools, FormatBool);
    var b2 := Block("string", c.strings, o.strings, ShowString);
    var b3 := Block("int", c.ints, o.ints, FormatInt);
    var b4 := Block("float", c.floats, o.floats, showFloat);
    BlockScannable("bool", c.bools, o.bools, FormatBool);
    BlockScannable("string", c.strings, o.strings, ShowString);
    BlockScannable("int", c.ints, o.ints, FormatInt);
    BlockScannable("float", c.floats, o.floats, showFloat);
    ScannableAppend(b1, b2);
    ScannableAppend(b1 + b2, b3);
    ScannableAppend(b1 + b2 + b3, b4);
    ScanLinesUnlines(Render(c, o, showFloat));
  }

  /** Round trip: the file written for a configuration with the default key
      sets parses back to it: bools, strings and ints exactly, floats as the
      float parser reads their rendering. */
  lemma RoundTrip(c: Config, o: Order, showFloat: Float64 -> string, parseFloat: string -> Option<Float64>)
    requires SameKeys(c, DefaultConfig())
    requires IsOrderOf(o, c)
    requires Writable(c, showFloat)
    requires FloatsReadable(c.floats, showFloat, parseFloat)
    ensures Parse(ScanLines(Unlines(Render(c, o, showFloat))), parseFloat)
            == Ok(c.(floats := Reread(c.floats, showFloat, parseFloat)))
  {
    RenderScannable(c, o, showFloat);
    RunRender(Initial(), c, o, showFloat, parseFloat);
  }

  lemma RereadExact(floats: map<string, Float64>, showFloat: Float64 -> string,
                    parseFloat: string -> Option<Float64>)
    requires forall k :: k in floats ==> parseFloat(showFloat(floats[k])) == Some(floats[k])
    ensures FloatsReadable(floats, showFloat, parseFloat)
    ensures Reread(floats, showFloat, parseFloat) == floats
  {
  }

  /** With a float rendering the float parser inverts, the round trip is exact. */
  lemma RoundTripExact(c: Config, o: Order, showFloat: Float64 -> string, parseFloat: string -> Option<Float64>)
    requires SameKeys(c, DefaultConfig())
    requires IsOrderOf(o, c)
    requires Writable(c, showFloat)
    requires forall k :: k in c.floats ==> parseFloat(showFloat(c.floats[k])) == Some(c.floats[k])
    ensures Parse(ScanLines(Unlines(Render(c, o, showFloat))), parseFloat) == Ok(c)
  {
    assert FloatsReadable(c.floats, showFloat, parseFloat);
    RereadExact(c.floats, showFloat, parseFloat);
    RoundTrip(c, o, showFloat, parseFloat);
  }

  /** `WriteConfig` followed by `ParseConfig` on the lines of the written text. */
  method WriteThenParse(c: Config, showFloat: Float64 -> string, parseFloat: string -> Option<Float64>)
    returns (r: Result<Config, ParseError>)
    requires SameKeys(c, DefaultConfig())
    requires Writable(c, showFloat)
    requires FloatsReadable(c.floats, showFloat, parseFloat)
    ensures r == Ok(c.(floats := Reread(c.floats, showFloat, parseFloat)))
  {
    var text, order := WriteConfig(c, showFloat);
    RoundTrip(c, order, showFloat, parseFloat);
    r := ParseConfig(ScanLines(text), parseFloat);
  }
}
