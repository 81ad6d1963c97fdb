/** `ParseConfig` of parser.go: a line scanner whose state is the current
    section and a configuration seeded from `DefaultConfig()`.  `Step` and
    `Run` are the reference definition of one line and of a whole file; the
    method `ParseConfig` is the loop of the source, proved to compute `Parse`. */
module ConfigParse {
  import opened Wrappers
  import opened GoText
  import opened GoConv
  import opened ConfigModel

  /** The ways a parse fails; any of them discards the whole configuration. */
  datatype ParseError =
    | InvalidLine(line: string)                                  // a line with no `=`
    | UnknownSection(name: string)                               // an entry outside the four sections
    | UnknownKey(section: Section, key: string)                  // a key the default does not have
    | InvalidValue(section: Section, key: string, value: string) // a value that does not convert

  /** What a line is, once trimmed. */
  datatype LineKind =
    | Skip                                  // blank or a `#` comment
    | Header(name: string)                  // `[name]`
    | Entry(key: string, value: string)     // `key=value`, split at the first `=`
    | Malformed(line: string)               // anything else

  function Classify(raw: string): (k: LineKind)
    ensures k.Entry? ==> TrimSpace(raw) == k.key + "=" + k.value && '=' !in k.key
    ensures k.Malformed? ==> k.line == TrimSpace(raw) && k.line != [] && '=' !in k.line
  {
    var line := TrimSpace(raw);
    if line == [] || line[0] == '#' then Skip
    else if line[0] == '[' && line[|line| - 1] == ']' then Header(line[1..|line| - 1])
    else match SplitFirst(line, '=')
      case None => Malformed(line)
      case Some(kv) => Entry(kv.0, kv.1)
  }

  /** The scanner's state between two lines. */
  datatype ParserState = ParserState(section: string, config: Config)

  /** Where every parse starts: no section, the default configuration. */
  function Initial(): ParserState {
    ParserState("", DefaultConfig())
  }

  /** The conversion a section applies to the text of a value. */
  function Convert(sec: Section, text: string, parseFloat: string -> Option<Float64>): Option<Value> {
    match sec
    case BoolSection => (match ParseBool(text) case None => None case Some(b) => Some(BoolValue(b)))
    case StringSection => Some(StringValue(text))
    case IntSection => (match Atoi(text) case None => None case Some(n) => Some(IntValue(n)))
    case FloatSection => (match parseFloat(text) case None => None case Some(f) => Some(FloatValue(f)))
  }

  /** A conversion yields a value of its own section's type, and the string
      section takes any text as it is. */
  lemma ConvertTyped(sec: Section, text: string, parseFloat: string -> Option<Float64>)
    ensures Convert(sec, text, parseFloat).Some? ==> SectionOf(Convert(sec, text, parseFloat).value) == sec
    ensures sec == StringSection ==> Convert(sec, text, parseFloat) == Some(StringValue(text))
  {
  }

  /** The bool and int conversions read back the text the writer renders
      for a value of that section. */
  lemma ConvertReadsRendered(b: bool, n: Int64, parseFloat: string -> Option<Float64>)
    ensures Convert(BoolSection, FormatBool(b), parseFloat) == Some(BoolValue(b))
    ensures Convert(IntSection, FormatInt(n), parseFloat) == Some(IntValue(n))
  {
  }

  /** The `switch currentSection` of the source: check the key against the
      section's map, convert the value, overwrite that one entry. */
  function Store(st: ParserState, key: string, text: string, parseFloat: string -> Option<Float64>)
    : (r: Result<ParserState, ParseError>)
    ensures r.Ok? ==> r.value.section == st.section && SameKeys(st.config, r.value.config)
    ensures r.Ok? ==> SectionNamed(st.section).Some?
                      && UpdatesOnly(st.config, r.value.config, SectionNamed(st.section).value, key)
    ensures SectionNamed(st.section).None? ==> r == Err(UnknownSection(st.section))
    ensures SectionNamed(st.section).Some? ==>
      var sec := SectionNamed(st.section).value;
      if Get(st.config, sec, key).None? then r == Err(UnknownKey(sec, key))
      else if Convert(sec, text, parseFloat).None? then r == Err(InvalidValue(sec, key, text))
      else r.Ok? && r.value.section == st.section
           && UpdatesOnly(st.config, r.value.config, sec, key)
           && Get(r.value.config, sec, key) == Convert(sec, text, parseFloat)
  {
    var c := st.config;
    if st.section == "bool" then
      if key !in c.bools then Err(UnknownKey(BoolSection, key))
      else match ParseBool(text)
        case None => Err(InvalidValue(BoolSection, key, text))
        case Some(b) => Ok(st.(config := c.(bools := c.bools[key := b])))
    else if st.section == "string" then
      if key !in c.strings then Err(UnknownKey(StringSection, key))
      else Ok(st.(config := c.(strings := c.strings[key := text])))
    else if st.section == "int" then
      if key !in c.ints then Err(UnknownKey(IntSection, key))
      else match Atoi(text)
        case None => Err(InvalidValue(IntSection, key, text))
        case Some(n) => Ok(st.(config := c.(ints := c.ints[key := n])))
    else if st.section == "float" then
      if key !in c.floats then Err(UnknownKey(FloatSection, key))
      else match parseFloat(text)
        case None => Err(InvalidValue(FloatSection, key, text))
        case Some(f) => Ok(st.(config := c.(floats := c.floats[key := f])))
    else Err(UnknownSection(st.section))
  }

  /** One line of input. */
  function Step(st: ParserState, raw: string, parseFloat: string -> Option<Float64>)
    : (r: Result<ParserState, ParseError>)
    ensures r.Ok? ==> SameKeys(st.config, r.value.config)
    ensures r.Ok? && !Classify(raw).Entry? ==> r.value.config == st.config
    ensures r.Ok? && Classify(raw).Entry? ==>
      r.value.section == st.section && SectionNamed(st.section).Some?
      && UpdatesOnly(st.config, r.value.config, SectionNamed(st.section).value, Classify(raw).key)
  {
    match Classify(raw)
    case Skip => Ok(st)
    case Header(name) => Ok(st.(section := name))
    case Malformed(line) => Err(InvalidLine(line))
    case Entry(key, value) => Store(st, key, value, parseFloat)
  }

  /** The remaining lines, one step at a time, stopping at the first error. */
  function Run(st: ParserState, lines: seq<string>, parseFloat: string -> Option<Float64>)
    : (r: Result<ParserState, ParseError>)
    ensures r.Ok? ==> SameKeys(st.config, r.value.config)
    decreases |lines|
  {
    if lines == [] then Ok(st)
    else match Step(st, lines[0], parseFloat)
      case Err(e) => Err(e)
      case Ok(next) => Run(next, lines[1..], parseFloat)
  }

  /** The result of `ParseConfig` on the lines of a file: on success the
      configuration has exactly the key sets of `DefaultConfig()`. */
  function Parse(lines: seq<string>, parseFloat: string -> Option<Float64>): (r: Result<Config, ParseError>)
    ensures r.Ok? ==> SameKeys(r.value, DefaultConfig())
  {
    match Run(Initial(), lines, parseFloat)
    case Ok(s) => Ok(s.config)
    case Err(e) => Err(e)
  }

  /** `ParseConfig`: the scanning loop, overwriting entries of `config` in
      place and returning at the first error. */
  method ParseConfig(lines: seq<string>, parseFloat: string -> Option<Float64>)
    returns (r: Result<Config, ParseError>)
    ensures r == Parse(lines, parseFloat)
  {
    var config := DefaultConfig();
    var currentSection := "";
    var i := 0;
    while i < |lines|
      invariant 0 <= i <= |lines|
      invariant Run(Initial(), lines, parseFloat)
                == Run(ParserState(currentSection, config), lines[i..], parseFloat)
    {
      RunFirst(ParserState(currentSection, config), lines, i, parseFloat);
      StepByCases(ParserState(currentSection, config), lines[i], parseFloat);
      var line := TrimSpace(lines[i]);
      i := i + 1;
      if line == [] || line[0] == '#' {
        continue;
      }
      if line[0] == '[' && line[|line| - 1] == ']' {
        currentSection := line[1..|line| - 1];
        continue;
      }
      var split := SplitFirst(line, '=');
      if split.None? {
        return Err(InvalidLine(line));
      }
      var (key, value) := split.value;
      var stored := StoreEntry(currentSection, config, key, value, parseFloat);
      if stored.Err? {
        return Err(stored.error);
      }
      config := stored.value;
    }
    return Ok(config);
  }

  /** The `switch currentSection` of the loop: the entry `key` of the current
      section's map is overwritten with the converted `value`. */
  method StoreEntry(currentSection: string, config: Config, key: string, value: string,
                    parseFloat: string -> Option<Float64>)
    returns (r: Result<Config, ParseError>)
    ensures r.Ok? <==> Store(ParserState(currentSection, config), key, value, parseFloat).Ok?
    ensures r.Ok? ==> r.value == Store(ParserState(currentSection, config), key, value, parseFloat).value.config
    ensures r.Err? ==> r.error == Store(ParserState(currentSection, config), key, value, parseFloat).error
  {
    if currentSection == "bool" {
      if key !in config.bools {
        return Err(UnknownKey(BoolSection, key));
      }
      var b := ParseBool(value);
      if b.None? {
        return Err(InvalidValue(BoolSection, key, value));
      }
      r := Ok(config.(bools := config.bools[key := b.value]));
    } else if currentSection == "string" {
      if key !in config.strings {
        return Err(UnknownKey(StringSection, key));
      }
      r := Ok(config.(strings := config.strings[key := value]));
    } else if currentSection == "int" {
      if key !in config.ints {
        return Err(UnknownKey(IntSection, key));
      }
      var n := Atoi(value);
      if n.None? {
        return Err(InvalidValue(IntSection, key, value));
      }
      r := Ok(config.(ints := config.ints[key := n.value]));
    } else if currentSection == "float" {
      if key !in config.floats {
        return Err(UnknownKey(FloatSection, key));
      }
      var f := parseFloat(value);
      if f.None? {
        return Err(InvalidValue(FloatSection, key, value));
      }
      r := Ok(config.(floats := config.floats[key := f.value]));
    } else {
      r := Err(UnknownSection(currentSection));
    }
  }

  /** Running two pieces of input one after the other is running their
      concatenation; an error in the first piece is final. */
  lemma {:induction false} RunAppend(st: ParserState, a: seq<string>, b: seq<string>,
                                     parseFloat: string -> Option<Float64>)
    ensures Run(st, a + b, parseFloat)
            == match Run(st, a, parseFloat)
               case Ok(s) => Run(s, b, parseFloat)
               case Err(e) => Err(e)
    decreases |a|
  {
    if a == [] {
      assert a + b == b;
    } else {
      assert (a + b)[0] == a[0] && (a + b)[1..] == a[1..] + b;
      match Step(st, a[0], parseFloat)
      case Err(_) =>
      case Ok(next) => RunAppend(next, a[1..], b, parseFloat);
    }
  }

  /** Line `i` is handled before the lines after it. */
  lemma RunFirst(st: ParserState, lines: seq<string>, i: nat, parseFloat: string -> Option<Float64>)
    requires i < |lines|
    ensures Step(st, lines[i], parseFloat).Ok? ==>
              Run(st, lines[i..], parseFloat) == Run(Step(st, lines[i], parseFloat).value, lines[i + 1..], parseFloat)
    ensures Step(st, lines[i], parseFloat).Err? ==>
              Run(st, lines[i..], parseFloat) == Err(Step(st, lines[i], parseFloat).error)
  {
    assert lines[i..][0] == lines[i] && lines[i..][1..] == lines[i + 1..];
  }

  /** Helper for `ParseConfig`: `Step` by the tests the loop makes on the
      trimmed line, in the loop's order. */
  lemma StepByCases(st: ParserState, raw: string, parseFloat: string -> Option<Float64>)
    ensures var line := TrimSpace(raw);
      if line == [] || line[0] == '#' then Step(st, raw, parseFloat) == Ok(st)
      else if line[0] == '[' && line[|line| - 1] == ']' then
        Step(st, raw, parseFloat) == Ok(st.(section := line[1..|line| - 1]))
      else if SplitFirst(line, '=').None? then Step(st, raw, parseFloat) == Err(InvalidLine(line))
      else Step(st, raw, parseFloat)
           == Store(st, SplitFirst(line, '=').value.0, SplitFirst(line, '=').value.1, parseFloat)
  {
  }

  /** The first line of the input is handled before the rest. */
  lemma RunCons(st: ParserState, l: string, rest: seq<string>, parseFloat: string -> Option<Float64>)
    ensures Step(st, l, parseFloat).Ok? ==>
              Run(st, [l] + rest, parseFloat) == Run(Step(st, l, parseFloat).value, rest, parseFloat)
    ensures Step(st, l, parseFloat).Err? ==>
              Run(st, [l] + rest, parseFloat) == Err(Step(st, l, parseFloat).error)
  {
    assert ([l] + rest)[0] == l && ([l] + rest)[1..] == rest;
  }

  /** The input around one line `l`, split into what precedes and follows it. */
  lemma RunAround(st: ParserState, pre: seq<string>, s: ParserState, l: string, post: seq<string>,
                  parseFloat: string -> Option<Float64>)
    requires Run(st, pre, parseFloat) == Ok(s)
    ensures Run(st, pre + [l] + post, parseFloat)
            == match Step(s, l, parseFloat)
               case Ok(next) => Run(next, post, parseFloat)
               case Err(e) => Err(e)
  {
    assert pre + [l] + post == pre + ([l] + post);
    RunAppend(st, pre, [l] + post, parseFloat);
    assert ([l] + post)[0] == l && ([l] + post)[1..] == post;
  }

  /** A blank or comment line changes neither the section nor the
      configuration: the file parses as if it were not there. */
  lemma SkippedLineIsInert(st: ParserState, pre: seq<string>, l: string, post: seq<string>,
                           parseFloat: string -> Option<Float64>)
    requires TrimSpace(l) == [] || TrimSpace(l)[0] == '#'
    ensures Run(st, pre + [l] + post, parseFloat) == Run(st, pre + post, parseFloat)
  {
    RunAppend(st, pre, post, parseFloat);
    match Run(st, pre, parseFloat)
    case Err(_) =>
      assert pre + [l] + post == pre + ([l] + post);
      RunAppend(st, pre, [l] + post, parseFloat);
    case Ok(s) => RunAround(st, pre, s, l, post, parseFloat);
  }

  /** A line that trims to `[name]`, white space around it or not, is a
      header for `name`. */
  lemma ClassifyHeader(l: string, name: string)
    requires TrimSpace(l) == "[" + name + "]"
    ensures Classify(l) == Header(name)
  {
    var t := TrimSpace(l);
    assert t[0] == '[' && t[|t| - 1] == ']';
    assert t[1..|t| - 1] == name;
  }

  /** A header line only switches the current section to the name it
      holds; the configuration is unchanged. */
  lemma HeaderOnlySwitchesSection(st: ParserState, pre: seq<string>, s: ParserState, l: string, name: string,
                                  post: seq<string>, parseFloat: string -> Option<Float64>)
    requires Run(st, pre, parseFloat) == Ok(s)
    requires TrimSpace(l) == "[" + name + "]"
    ensures Run(st, pre + [l] + post, parseFloat)
            == Run(ParserState(name, s.config), post, parseFloat)
  {
    ClassifyHeader(l, name);
    assert Step(s, l, parseFloat) == Ok(ParserState(name, s.config));
    RunAround(st, pre, s, l, post, parseFloat);
  }

  /** The first failing line decides the outcome: nothing after it matters
      and no configuration is returned. */
  lemma ErrorAborts(st: ParserState, pre: seq<string>, s: ParserState, l: string, post: seq<string>,
                    parseFloat: string -> Option<Float64>)
    requires Run(st, pre, parseFloat) == Ok(s)
    requires Step(s, l, parseFloat).Err?
    ensures Run(st, pre + [l] + post, parseFloat) == Err(Step(s, l, parseFloat).error)
  {
    RunAround(st, pre, s, l, post, parseFloat);
  }

  /** A line that is not blank, a comment or a header and has no `=` fails. */
  lemma MalformedLineRejected(pre: seq<string>, s: ParserState, l: string, post: seq<string>,
                              parseFloat: string -> Option<Float64>)
    requires Run(Initial(), pre, parseFloat) == Ok(s)
    requires TrimSpace(l) != [] && TrimSpace(l)[0] != '#'
    requires !(TrimSpace(l)[0] == '[' && TrimSpace(l)[|TrimSpace(l)| - 1] == ']')
    requires '=' !in l
    ensures Parse(pre + [l] + post, parseFloat) == Err(InvalidLine(TrimSpace(l)))
  {
    var t := TrimSpace(l);
    assert forall c :: c in t ==> c in l;
    assert SplitFirst(t, '=').None?;
    assert Classify(l) == Malformed(t);
    RunAround(Initial(), pre, s, l, post, parseFloat);
  }

  /** Without a header line the section stays what it was. */
  lemma {:induction false} SectionUnchangedWithoutHeader(st: ParserState, lines: seq<string>,
                                                         parseFloat: string -> Option<Float64>)
    requires Run(st, lines, parseFloat).Ok?
    requires forall i :: 0 <= i < |lines| ==> !Classify(lines[i]).Header?
    ensures Run(st, lines, parseFloat).value.section == st.section
    decreases |lines|
  {
    if lines != [] {
      var next := Step(st, lines[0], parseFloat).value;
      assert next.section == st.section;
      SectionUnchangedWithoutHeader(next, lines[1..], parseFloat);
    }
  }

  /** An entry before any header, or under a header that is not one of the
      four sections (`[]` included), fails with "unknown section". */
  lemma EntryOutsideSectionRejected(pre: seq<string>, s: ParserState, l: string, post: seq<string>,
                                    parseFloat: string -> Option<Float64>)
    requires Run(Initial(), pre, parseFloat) == Ok(s)
    requires SectionNamed(s.section).None?
    requires Classify(l).Entry?
    ensures Parse(pre + [l] + post, parseFloat) == Err(UnknownSection(s.section))
  {
    RunAround(Initial(), pre, s, l, post, parseFloat);
  }

  lemma EntryBeforeHeaderRejected(pre: seq<string>, l: string, post: seq<string>,
                                  parseFloat: string -> Option<Float64>)
    requires Run(Initial(), pre, parseFloat).Ok?
    requires forall i :: 0 <= i < |pre| ==> !Classify(pre[i]).Header?
    requires Classify(l).Entry?
    ensures Parse(pre + [l] + post, parseFloat) == Err(UnknownSection(""))
  {
    SectionUnchangedWithoutHeader(Initial(), pre, parseFloat);
    EntryOutsideSectionRejected(pre, Run(Initial(), pre, parseFloat).value, l, post, parseFloat);
  }

  /** Under a known section, a key that `DefaultConfig()` does not have in
      that section fails with "unknown key", whatever came before. */
  lemma UnknownKeyRejected(pre: seq<string>, s: ParserState, l: string, post: seq<string>,
                           parseFloat: string -> Option<Float64>)
    requires Run(Initial(), pre, parseFloat) == Ok(s)
    requires SectionNamed(s.section).Some?
    requires Classify(l).Entry?
    requires Get(DefaultConfig(), SectionNamed(s.section).value, Classify(l).key).None?
    ensures Parse(pre + [l] + post, parseFloat)
            == Err(UnknownKey(SectionNamed(s.section).value, Classify(l).key))
  {
    SameKeysGet(DefaultConfig(), s.config, SectionNamed(s.section).value, Classify(l).key);
    RunAround(Initial(), pre, s, l, post, parseFloat);
  }

  /** A known key whose value text the section's conversion refuses fails
      with "invalid value". */
  lemma InvalidValueRejected(pre: seq<string>, s: ParserState, l: string, post: seq<string>,
                             parseFloat: string -> Option<Float64>)
    requires Run(Initial(), pre, parseFloat) == Ok(s)
    requires SectionNamed(s.section).Some?
    requires Classify(l).Entry?
    requires Get(DefaultConfig(), SectionNamed(s.section).value, Classify(l).key).Some?
    requires Convert(SectionNamed(s.section).value, Classify(l).value, parseFloat).None?
    ensures Parse(pre + [l] + post, parseFloat)
            == Err(InvalidValue(SectionNamed(s.section).value, Classify(l).key, Classify(l).value))
  {
    SameKeysGet(DefaultConfig(), s.config, SectionNamed(s.section).value, Classify(l).key);
    RunAround(Initial(), pre, s, l, post, parseFloat);
  }

  /** The line assigns `key` (in whatever section is current). */
  predicate Mentions(line: string, key: string) {
    Classify(line).Entry? && Classify(line).key == key
  }

  /** A key that no line assigns keeps its value in every section. */
  lemma {:induction false} UnmentionedKeyKeepsValue(st: ParserState, lines: seq<string>, key: string,
                                                    parseFloat: string -> Option<Float64>)
    requires Run(st, lines, parseFloat).Ok?
    requires forall i :: 0 <= i < |lines| ==> !Mentions(lines[i], key)
    ensures forall sec :: Get(Run(st, lines, parseFloat).value.config, sec, key) == Get(st.config, sec, key)
    decreases |lines|
  {
    if lines != [] {
      var next := Step(st, lines[0], parseFloat).value;
      assert forall sec :: Get(next.config, sec, key) == Get(st.config, sec, key);
      UnmentionedKeyKeepsValue(next, lines[1..], key, parseFloat);
    }
  }

  /** Default completeness: a key no line of the file assigns has its
      default value in the parsed configuration. */
  lemma UnmentionedKeyKeepsDefault(lines: seq<string>, key: string, parseFloat: string -> Option<Float64>)
    requires Parse(lines, parseFloat).Ok?
    requires forall i :: 0 <= i < |lines| ==> !Mentions(lines[i], key)
    ensures forall sec :: Get(Parse(lines, parseFloat).value, sec, key) == Get(DefaultConfig(), sec, key)
  {
    UnmentionedKeyKeepsValue(Initial(), lines, key, parseFloat);
  }

  /** The last line that assigns a key decides its value: an accepted
      `key=value` line followed only by lines that do not assign `key`. */
  lemma LastAssignmentWins(pre: seq<string>, s: ParserState, l: string, post: seq<string>,
                           parseFloat: string -> Option<Float64>)
    requires Run(Initial(), pre, parseFloat) == Ok(s)
    requires SectionNamed(s.section).Some?
    requires Classify(l).Entry?
    requires forall i :: 0 <= i < |post| ==> !Mentions(post[i], Classify(l).key)
    requires Parse(pre + [l] + post, parseFloat).Ok?
    ensures Get(Parse(pre + [l] + post, parseFloat).value, SectionNamed(s.section).value, Classify(l).key)
            == Convert(SectionNamed(s.section).value, Classify(l).value, parseFloat)
  {
    RunAround(Initial(), pre, s, l, post, parseFloat);
    var next := Step(s, l, parseFloat).value;
    UnmentionedKeyKeepsValue(next, post, Classify(l).key, parseFloat);
  }
}
