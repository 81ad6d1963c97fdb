/** Concrete files run through the model: the default configuration's own
    round trip, overriding defaults, and each kind of error. */
module ConfigScenarios {
  import opened Wrappers
  import opened GoText
  import opened GoConv
  import opened ConfigModel
  import opened ConfigParse
  import opened ConfigWrite
  import opened ConfigRoundTrip

  /** A header line `l` followed by an entry line `e` stores that one entry
      in the section the header names. */
  lemma HeaderThenEntry(st: ParserState, name: string, l: string, k: string, v: string, e: string,
                        parseFloat: string -> Option<Float64>)
    requires l == "[" + name + "]" && e == EntryLine(k, v)
    requires WritableKey(k) && WritableText(v)
    ensures Run(st, [l, e], parseFloat) == Store(ParserState(name, st.config), k, v, parseFloat)
  {
    var inSection := ParserState(name, st.config);
    HeaderStep(st, name, parseFloat);
    assert [l, e] == [l] + [e];
    RunCons(st, l, [e], parseFloat);
    EntryAlone(inSection, k, v, e, parseFloat);
  }

  /** Helper for `HeaderThenEntry`: a file of one written entry line stores
      that entry. */
  lemma EntryAlone(st: ParserState, k: string, v: string, e: string, parseFloat: string -> Option<Float64>)
    requires e == EntryLine(k, v) && WritableKey(k) && WritableText(v)
    ensures Run(st, [e], parseFloat) == Store(st, k, v, parseFloat)
  {
    StepEntry(st, k, v, parseFloat);
    assert [e] == [e] + [];
    RunCons(st, e, [], parseFloat);
  }

  /** Helper for the scenarios below: their literal lines, taken apart. */
  lemma ScenarioLines()
    ensures "[bool]" == "[" + "bool" + "]" && "[int]" == "[" + "int" + "]"
    ensures "[string]" == "[" + "string" + "]" && "[weight]" == "[" + "weight" + "]"
    ensures "[]" == "[" + "" + "]"
    ensures "debug=true" == EntryLine("debug", "true") && "port=9090" == EntryLine("port", "9090")
    ensures "kg=3" == EntryLine("kg", "3") && "port=1" == EntryLine("port", "1")
    ensures "bogus=1" == EntryLine("bogus", "1") && "port = 1" == EntryLine("port ", " 1")
    ensures "port=abc" == EntryLine("port", "abc") && "debug=maybe" == EntryLine("debug", "maybe")
    ensures "app_name=a=b" == EntryLine("app_name", "a=b")
  {
  }

  /** The keys and texts of those lines survive the line format. */
  lemma ScenarioWritable()
    ensures WritableKey("debug") && WritableKey("port") && WritableKey("kg")
    ensures WritableKey("bogus") && WritableKey("port ") && WritableKey("app_name")
    ensures WritableText("true") && WritableText("9090") && WritableText("3") && WritableText("1")
    ensures WritableText(" 1") && WritableText("abc") && WritableText("maybe") && WritableText("a=b")
  {
    ScenarioKeysWritable();
  }

  lemma ScenarioKeysWritable()
    ensures WritableKey("debug") && WritableKey("port") && WritableKey("kg")
    ensures WritableKey("bogus") && WritableKey("port ") && WritableKey("app_name")
  {
  }

  /** Which of those keys the default configuration has. */
  lemma ScenarioKeys()
    ensures "debug" in DefaultConfig().bools && "port" in DefaultConfig().ints
    ensures "app_name" in DefaultConfig().strings
    ensures "bogus" !in DefaultConfig().ints && "port " !in DefaultConfig().ints
    ensures SectionNamed("weight").None? && SectionNamed("").None?
  {
  }

  /** How the value texts of those lines convert. */
  lemma ScenarioValues()
    ensures ParseBool("true") == Some(true) && ParseBool("maybe") == None
    ensures Atoi("9090") == Some(9090) && Atoi("abc") == None
  {
    assert FormatInt(9090) == "9090";
    assert !IsDigit('a');
  }

  /** An empty file gives the default configuration. */
  lemma EmptyFileGivesDefault(parseFloat: string -> Option<Float64>)
    ensures Parse([], parseFloat) == Ok(DefaultConfig())
  {
  }

  /** `[bool]` / `debug=true` sets that one entry. */
  lemma EnableDebug(parseFloat: string -> Option<Float64>)
    ensures Run(Initial(), ["[bool]", "debug=true"], parseFloat)
            == Ok(ParserState("bool", DefaultConfig().(bools := DefaultConfig().bools["debug" := true])))
  {
    ScenarioLines();
    ScenarioWritable();
    ScenarioKeys();
    HeaderThenEntry(Initial(), "bool", "[bool]", "debug", "true", "debug=true", parseFloat);
  }

  /** `[int]` / `port=9090` sets that one entry, in whatever configuration. */
  lemma SetPort(st: ParserState, parseFloat: string -> Option<Float64>)
    requires "port" in st.config.ints
    ensures Run(st, ["[int]", "port=9090"], parseFloat)
            == Ok(ParserState("int", st.config.(ints := st.config.ints["port" := 9090])))
  {
    ScenarioValues();
    ScenarioLines();
    ScenarioWritable();
    HeaderThenEntry(st, "int", "[int]", "port", "9090", "port=9090", parseFloat);
  }

  /** `[bool]` / `debug=true` / `[int]` / `port=9090` overrides exactly those
      two entries. */
  lemma OverrideTwoDefaults(parseFloat: string -> Option<Float64>)
    ensures Parse(["[bool]", "debug=true", "[int]", "port=9090"], parseFloat)
            == Ok(DefaultConfig().(bools := DefaultConfig().bools["debug" := true],
                                   ints := DefaultConfig().ints["port" := 9090]))
  {
    var d := DefaultConfig();
    var c1 := d.(bools := d.bools["debug" := true]);
    var first := ["[bool]", "debug=true"];
    var second := ["[int]", "port=9090"];
    ScenarioKeys();
    EnableDebug(parseFloat);
    SetPort(ParserState("bool", c1), parseFloat);
    RunAppend(Initial(), first, second, parseFloat);
    JoinFourLines("[bool]", "debug=true", "[int]", "port=9090");
  }

  /** Helper for `OverrideTwoDefaults`: two two-line files joined. */
  lemma JoinFourLines(a: string, b: string, c: string, d: string)
    ensures [a, b] + [c, d] == [a, b, c, d]
  {
  }

  /** A header with white space around it is trimmed before it is read:
      `  [bool]<tab>` opens the bool section and changes nothing else. */
  lemma PaddedHeaderScenario(st: ParserState, parseFloat: string -> Option<Float64>)
    ensures Run(st, ["  [bool]\t"], parseFloat) == Ok(ParserState("bool", st.config))
  {
    var l := "  [bool]\t";
    PaddedHeaderTrims();
    HeaderOnlySwitchesSection(st, [], st, l, "bool", [], parseFloat);
    assert [] + [l] + [] == [l];
  }

  /** Helper for `PaddedHeaderScenario`: its line trims to `[bool]`. */
  lemma PaddedHeaderTrims()
    ensures TrimSpace("  [bool]\t") == "[" + "bool" + "]"
  {
    PaddedHeaderSplit();
    TrimSpacePadded("  ", "[bool]", "\t");
  }

  /** Helper for `PaddedHeaderTrims`: that line is padding, header, padding. */
  lemma PaddedHeaderSplit()
    ensures "  [bool]\t" == "  " + "[bool]" + "\t" && "[bool]" == "[" + "bool" + "]"
  {
  }

  /** A section other than the four is refused at its first entry. */
  lemma UnknownSectionScenario(parseFloat: string -> Option<Float64>)
    ensures Parse(["[weight]", "kg=3"], parseFloat) == Err(UnknownSection("weight"))
  {
    ScenarioLines();
    ScenarioWritable();
    ScenarioKeys();
    HeaderThenEntry(Initial(), "weight", "[weight]", "kg", "3", "kg=3", parseFloat);
  }

  /** `[]` opens the empty section, under which every entry is refused. */
  lemma EmptySectionScenario(parseFloat: string -> Option<Float64>)
    ensures Parse(["[]", "port=1"], parseFloat) == Err(UnknownSection(""))
  {
    ScenarioLines();
    ScenarioWritable();
    ScenarioKeys();
    HeaderThenEntry(Initial(), "", "[]", "port", "1", "port=1", parseFloat);
  }

  /** A key the default int map lacks is refused. */
  lemma UnknownKeyScenario(parseFloat: string -> Option<Float64>)
    ensures Parse(["[int]", "bogus=1"], parseFloat) == Err(UnknownKey(IntSection, "bogus"))
  {
    assert "bogus" !in DefaultConfig().ints;
    ScenarioLines();
    ScenarioWritable();
    ScenarioKeys();
    HeaderThenEntry(Initial(), "int", "[int]", "bogus", "1", "bogus=1", parseFloat);
  }

  /** Keys are not trimmed: `port = 1` names the key `"port "`. */
  lemma UntrimmedKeyScenario(parseFloat: string -> Option<Float64>)
    ensures Parse(["[int]", "port = 1"], parseFloat) == Err(UnknownKey(IntSection, "port "))
  {
    assert "port " !in DefaultConfig().ints;
    ScenarioLines();
    ScenarioWritable();
    ScenarioKeys();
    HeaderThenEntry(Initial(), "int", "[int]", "port ", " 1", "port = 1", parseFloat);
  }

  /** Values that do not convert are refused. */
  lemma InvalidIntScenario(parseFloat: string -> Option<Float64>)
    ensures Parse(["[int]", "port=abc"], parseFloat) == Err(InvalidValue(IntSection, "port", "abc"))
  {
    ScenarioValues();
    ScenarioLines();
    ScenarioWritable();
    ScenarioKeys();
    HeaderThenEntry(Initial(), "int", "[int]", "port", "abc", "port=abc", parseFloat);
  }

  /** A line with no `=` that is not a header is refused as it stands. */
  lemma MalformedLineScenario(parseFloat: string -> Option<Float64>)
    ensures Parse(["[int]", "port"], parseFloat) == Err(InvalidLine("port"))
  {
    var inInt := ParserState("int", DefaultConfig());
    ScenarioLines();
    HeaderStep(Initial(), "int", parseFloat);
    assert ["[int]", "port"] == ["[int]"] + ["port"];
    RunCons(Initial(), "[int]", ["port"], parseFloat);
    PortLineMalformed();
    assert ["port"] == ["port"] + [];
    RunCons(inInt, "port", [], parseFloat);
  }

  /** Helper for `MalformedLineScenario`: `port` is a malformed line. */
  lemma PortLineMalformed()
    ensures Classify("port") == Malformed("port")
  {
    assert !IsSpace('p') && !IsSpace('t');
    TrimSpaceOfTrimmed("port");
    assert FirstIndex("port", '=').None?;
  }

  lemma InvalidBoolScenario(parseFloat: string -> Option<Float64>)
    ensures Parse(["[bool]", "debug=maybe"], parseFloat) == Err(InvalidValue(BoolSection, "debug", "maybe"))
  {
    ScenarioValues();
    ScenarioLines();
    ScenarioWritable();
    ScenarioKeys();
    HeaderThenEntry(Initial(), "bool", "[bool]", "debug", "maybe", "debug=maybe", parseFloat);
  }

  /** The value is everything after the first `=`. */
  lemma ValueKeepsLaterEquals(parseFloat: string -> Option<Float64>)
    ensures Parse(["[string]", "app_name=a=b"], parseFloat)
            == Ok(DefaultConfig().(strings := DefaultConfig().strings["app_name" := "a=b"]))
  {
    ScenarioLines();
    ScenarioWritable();
    ScenarioKeys();
    HeaderThenEntry(Initial(), "string", "[string]", "app_name", "a=b", "app_name=a=b", parseFloat);
  }

  /** Text that ends in writable text is writable when the rest has no
      newline. */
  lemma WritableTextAppend(a: string, b: string)
    requires '\n' !in a && WritableText(b) && b != []
    ensures WritableText(a + b)
  {
    assert (a + b)[|a + b| - 1] == b[|b| - 1];
  }

  /** Helper for `ConnectionStringWritable`: the connection string is its
      prefix up to the last `;` followed by `db=mydb`. */
  lemma ConnectionStringSplit()
    ensures "host=localhost;user=user;password=pass;db=mydb"
            == "host=localhost;user=user;password=pass;" + "db=mydb"
  {
  }

  /** Helper for `ConnectionStringWritable`: that prefix has no newline. */
  lemma ConnectionPrefixNoNewline()
    ensures '\n' !in "host=localhost;user=user;password=pass;"
  {
    assert "host=localhost;user=user;password=pass;" == "host=localhost;" + "user=user;" + "password=pass;";
    assert '\n' !in "host=localhost;" && '\n' !in "user=user;" && '\n' !in "password=pass;";
  }

  /** The default connection string has no newline and no trailing space. */
  lemma ConnectionStringWritable()
    ensures WritableText("host=localhost;user=user;password=pass;db=mydb")
  {
    ConnectionStringSplit();
    ConnectionPrefixNoNewline();
    assert WritableText("db=mydb");
    WritableTextAppend("host=localhost;user=user;password=pass;", "db=mydb");
  }

  /** The key sets of the default configuration. */
  lemma DefaultKeySets()
    ensures DefaultConfig().bools.Keys == {"debug", "auto_restart"}
    ensures DefaultConfig().strings.Keys == {"app_name", "db_connection_string"}
    ensures DefaultConfig().ints.Keys == {"max_retries", "port"}
    ensures DefaultConfig().floats.Keys == {"version"}
  {
  }

  /** Each default key can be written and read back. */
  lemma DefaultKeysWritable()
    ensures WritableKey("debug") && WritableKey("auto_restart")
    ensures WritableKey("app_name") && WritableKey("db_connection_string")
    ensures WritableKey("max_retries") && WritableKey("port") && WritableKey("version")
  {
    ShortKeysWritable();
    LongKeysWritable();
    ConnectionKeyWritable();
  }

  /** Helpers for `DefaultKeysWritable`, a few keys at a time. */
  lemma ShortKeysWritable()
    ensures WritableKey("debug") && WritableKey("port") && WritableKey("version")
  {
  }

  lemma LongKeysWritable()
    ensures WritableKey("auto_restart") && WritableKey("app_name") && WritableKey("max_retries")
  {
  }

  lemma ConnectionKeyWritable()
    ensures WritableKey("db_connection_string")
  {
  }

  lemma DefaultBoolsWritable()
    ensures WritableMap(DefaultConfig().bools, FormatBool)
  {
    DefaultKeySets();
    DefaultKeysWritable();
    assert WritableText(FormatBool(false)) && WritableText(FormatBool(true));
  }

  lemma DefaultStringsWritable()
    ensures WritableMap(DefaultConfig().strings, ShowString)
  {
    DefaultKeySets();
    DefaultKeysWritable();
    assert WritableText("MyApp");
    ConnectionStringWritable();
  }

  lemma DefaultIntsWritable()
    ensures WritableMap(DefaultConfig().ints, FormatInt)
  {
    DefaultKeySets();
    DefaultKeysWritable();
  }

  /** The default configuration can be written and read back. */
  lemma DefaultIsWritable(showFloat: Float64 -> string)
    requires WritableText(showFloat(Float64(0x3FF0_0000_0000_0000)))
    ensures Writable(DefaultConfig(), showFloat)
  {
    DefaultBoolsWritable();
    DefaultStringsWritable();
    DefaultIntsWritable();
    DefaultKeySets();
    DefaultKeysWritable();
  }

  /** The one default float, as the parser reads back its rendering. */
  lemma DefaultVersionReread(showFloat: Float64 -> string, parseFloat: string -> Option<Float64>)
    requires parseFloat(showFloat(Float64(0x3FF0_0000_0000_0000))).Some?
    ensures FloatsReadable(DefaultConfig().floats, showFloat, parseFloat)
    ensures Reread(DefaultConfig().floats, showFloat, parseFloat)
            == map["version" := parseFloat(showFloat(Float64(0x3FF0_0000_0000_0000))).value]
  {
    assert DefaultConfig().floats.Keys == {"version"};
  }

  /** Writing `DefaultConfig()` and parsing the result gives it back, for any
      iteration order and any float rendering its parser accepts. */
  lemma DefaultRoundTrip(o: Order, showFloat: Float64 -> string, parseFloat: string -> Option<Float64>)
    requires IsOrderOf(o, DefaultConfig())
    requires WritableText(showFloat(Float64(0x3FF0_0000_0000_0000)))
    requires parseFloat(showFloat(Float64(0x3FF0_0000_0000_0000))).Some?
    ensures Parse(ScanLines(Unlines(Render(DefaultConfig(), o, showFloat))), parseFloat)
            == Ok(DefaultConfig().(floats := map["version" := parseFloat(showFloat(Float64(0x3FF0_0000_0000_0000))).value]))
  {
    var d := DefaultConfig();
    DefaultIsWritable(showFloat);
    DefaultVersionReread(showFloat, parseFloat);
    assert SameKeys(d, d);
    RoundTrip(d, o, showFloat, parseFloat);
  }
}
