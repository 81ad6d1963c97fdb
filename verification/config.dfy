/** The `Config` record of parser.go: four independent maps from key to a
    typed value, the hard-coded default configuration that seeds every parse
    and fixes the permitted keys, and the vocabulary used to state what a
    parse may change. */
module ConfigModel {
  import opened Wrappers
  import opened GoConv

  /** `Config`: one map per section. */
  datatype Config = Config(
    bools: map<string, bool>,
    strings: map<string, string>,
    ints: map<string, Int64>,
    floats: map<string, Float64>)

  /** `DefaultConfig()`: the initial values and, through its key sets, the
      only keys a configuration file may set. */
  function DefaultConfig(): Config {
    Config(
      map["debug" := false, "auto_restart" := true],
      map["app_name" := "MyApp",
          "db_connection_string" := "host=localhost;user=user;password=pass;db=mydb"],
      map["max_retries" := 3, "port" := 8080],
      map["version" := Float64(0x3FF0_0000_0000_0000)])  // 1.0
  }

  /** The value each default key starts with. */
  lemma DefaultValues()
    ensures Get(DefaultConfig(), BoolSection, "debug") == Some(BoolValue(false))
    ensures Get(DefaultConfig(), BoolSection, "auto_restart") == Some(BoolValue(true))
    ensures Get(DefaultConfig(), StringSection, "app_name") == Some(StringValue("MyApp"))
    ensures Get(DefaultConfig(), StringSection, "db_connection_string")
            == Some(StringValue("host=localhost;user=user;password=pass;db=mydb"))
    ensures Get(DefaultConfig(), IntSection, "max_retries") == Some(IntValue(3))
    ensures Get(DefaultConfig(), IntSection, "port") == Some(IntValue(8080))
    ensures Get(DefaultConfig(), FloatSection, "version") == Some(FloatValue(Float64(0x3FF0_0000_0000_0000)))
  {
  }

  /** The four sections a configuration file may open. */
  datatype Section = BoolSection | StringSection | IntSection | FloatSection

  /** The name written between brackets in a section header; the header
      written for a section opens that section again. */
  function SectionName(sec: Section): (name: string)
    ensures SectionNamed(name) == Some(sec)
  {
    match sec
    case BoolSection => "bool"
    case StringSection => "string"
    case IntSection => "int"
    case FloatSection => "float"
  }

  /** The section a header names, if it names one of the four. */
  function SectionNamed(name: string): (r: Option<Section>)
    ensures r.Some? <==> name in {"bool", "string", "int", "float"}
  {
    if name == "bool" then Some(BoolSection)
    else if name == "string" then Some(StringSection)
    else if name == "int" then Some(IntSection)
    else if name == "float" then Some(FloatSection)
    else None
  }

  /** A typed value of some section. */
  datatype Value = BoolValue(b: bool) | StringValue(s: string) | IntValue(i: Int64) | FloatValue(f: Float64)

  /** The section whose map holds values of `v`'s type. */
  function SectionOf(v: Value): Section {
    match v
    case BoolValue(_) => BoolSection
    case StringValue(_) => StringSection
    case IntValue(_) => IntSection
    case FloatValue(_) => FloatSection
  }

  /** The entry `key` of section `sec`, if the section's map has that key. */
  function Get(c: Config, sec: Section, key: string): Option<Value> {
    match sec
    case BoolSection => if key in c.bools then Some(BoolValue(c.bools[key])) else None
    case StringSection => if key in c.strings then Some(StringValue(c.strings[key])) else None
    case IntSection => if key in c.ints then Some(IntValue(c.ints[key])) else None
    case FloatSection => if key in c.floats then Some(FloatValue(c.floats[key])) else None
  }

  /** Both configurations have the same key set in every section. */
  predicate SameKeys(a: Config, b: Config) {
    a.bools.Keys == b.bools.Keys && a.strings.Keys == b.strings.Keys &&
    a.ints.Keys == b.ints.Keys && a.floats.Keys == b.floats.Keys
  }

  /** `b` is `a` with at most the entry `key` of section `sec` changed. */
  ghost predicate UpdatesOnly(a: Config, b: Config, sec: Section, key: string) {
    SameKeys(a, b) &&
    forall s: Section, k: string :: (s != sec || k != key) ==> Get(b, s, k) == Get(a, s, k)
  }

  /** Configurations with the same key sets have an entry for the same keys. */
  lemma SameKeysGet(a: Config, b: Config, sec: Section, key: string)
    requires SameKeys(a, b)
    ensures Get(a, sec, key).None? <==> Get(b, sec, key).None?
  {
  }
}
