# cfgparser: the sectioned `key=value` configuration codec, in Dafny

This is a model of `parser.go` from the Go package `cfgparser`, with proofs about it. The package reads and writes a configuration file of four typed sections:

```
[bool]
debug=true
[string]
app_name=MyApp
[int]
port=8080
[float]
version=1.000000
```

A `Config` holds four maps from key to value: bool, string, `int` and `float64`. `DefaultConfig()` seeds every parse. Its key sets are also the only keys a file may set.

**Parsing.** `ParseConfig` scans the file line by line. For each line it:

1. trims ASCII white space;
2. skips blank lines and `#` comments;
3. switches the current section on a `[name]` line;
4. otherwise splits the line at the first `=`;
5. rejects the line unless the current section is one of the four and the key is in that section's default map;
6. converts the value and overwrites that one entry.

The first failure aborts the parse with no configuration.

**Writing.** `WriteConfig` writes the four maps in the fixed order bool, string, int, float. An empty map writes nothing. A non-empty map writes its header, then one `key=value` line per entry, in Go's unspecified map order.

Modules, in dependency order:

- `Wrappers`: the `Option` and `Result` types.
- `GoText`: the parts of Go's `strings` and `bufio` that the codec uses:
  - `TrimSpace`, with ASCII white space only;
  - the first-separator split of `SplitN(line, "=", 2)`;
  - the line splitting of `bufio.ScanLines`;
  - the newline-terminated text the writer produces (`Unlines`).
- `GoConv`: `strconv.ParseBool`, `strconv.Atoi` for a 64-bit `int`, and the `%v` and `%d` renderings. A `float64` is kept as its 64-bit pattern (`Float64`).
- `ConfigModel`: `Config`, `DefaultConfig`, and the `Section` / `Get` / `UpdatesOnly` terms the contracts use.
- `ConfigParse`: the parser.
  - `Step`, `Run` and `Parse` are the reference definition: one line, a sequence of lines, a file.
  - `ParseConfig` is the source's loop as a `method` with a `while` loop. It is proved to return `Parse`.
  - The lemmas state the per-line behaviour and the error cases.
- `ConfigWrite`: the writer.
  - `Render` gives the written lines for a given iteration order.
  - `WriteSection` and `WriteConfig` are the source's loops. The key picked at each step is arbitrary (`:|`), and a ghost out-parameter records the order taken. They are proved to write `Unlines(Render(...))` for an order that lists each key exactly once.
- `ConfigRoundTrip`: writing a configuration and parsing the text back gives the configuration again.
- `ConfigScenarios`: concrete files run through the model:
  - the default configuration's own round trip;
  - overriding two defaults;
  - a padded header line;
  - at least one file for each kind of error: invalid line, unknown section, unknown key and invalid value.

The float conversions are parameters of type `string -> Option<Float64>` (`strconv.ParseFloat(value, 64)`) and `Float64 -> string` (`%f`). Every statement about floats holds for any such functions. Where the round trip needs more, it asks only that the parser accepts what the formatter writes, or that it inverts it.

## Model

| member | source | states |
|---|---|---|
| ConfigModel.SectionName | parser.go:69-104 | The header name of each of the four sections selects that section again. |
| ConfigModel.SectionNamed | parser.go:69-104 | A section name selects a section exactly when it is `bool`, `string`, `int` or `float`. Any other name, the empty one included, falls to the default branch. |
| ConfigModel.DefaultValues | parser.go:11-29 | Each default key starts with the value of the literal: `debug` false, `auto_restart` true, `app_name` `MyApp`, the connection string, `max_retries` 3, `port` 8080, and `version` 1.0 (bit pattern `0x3FF0000000000000`). |
| ConfigScenarios.DefaultKeySets | parser.go:11-29 | The default key sets are `{debug, auto_restart}`, `{app_name, db_connection_string}`, `{max_retries, port}` and `{version}`. |
| ConfigScenarios.DefaultIsWritable | parser.go:11-29 | Every default key and value can be written and read back, given a float rendering with no newline or trailing space. |
| GoText.TrimSpace | parser.go:51 | The result is the infix of the line that starts after the leading white space. Everything cut off on either side is white space, and a non-empty result neither starts nor ends with white space. |
| GoText.TrimSpaceEmpty | parser.go:51-52 | A line trims to `""` exactly when it is all white space. |
| GoText.TrimSpaceOfTrimmed | parser.go:51 | A line that neither starts nor ends with white space is left unchanged. |
| GoText.TrimSpacePadded | parser.go:51 | Trimming a text padded with white space on either side gives back the text, when the text neither starts nor ends with white space. |
| GoText.SplitFirst | parser.go:61-67 | The split fails exactly when there is no `=`. Otherwise the line is key + `=` + value, and the key holds no `=`. |
| GoText.SplitFirstOfJoin | parser.go:61-67 | Splitting `k=v` gives back `(k, v)` whenever `k` has no `=`, whatever `v` holds. |
| GoText.ScanLines | parser.go:47-50 | No scanned line contains a newline. |
| GoText.Unlines | parser.go:124-151 | The writer's text is empty exactly when there are no lines, and a non-empty text ends with a newline. |
| GoText.ScanLinesUnlines | parser.go:47-50 | Scanning the text written from some lines gives those lines back, when none holds a newline or ends with a carriage return. |
| GoConv.ParseBool | parser.go:74-77 | An accepted text has one to five characters, and its first character alone decides the value: `1`, `t` or `T` give true. |
| GoConv.ParseBoolAccepts | parser.go:74-77 | Exactly the twelve spellings `1 t T TRUE true True 0 f F FALSE false False` are accepted; any other text is an error. |
| GoConv.FormatBool | parser.go:126 | `%v` of a bool is read back by `ParseBool` as the same bool. |
| GoConv.Atoi | parser.go:88-91 | An accepted text is a sign or a digit followed by digits only. A `-` sign gives a value at most 0. Plain digits within range are accepted, as their decimal value. |
| GoConv.AtoiValue | parser.go:88-91 | An accepted text is non-empty, and a sign is followed by at least one digit. Plain digits, `+` digits and `-` digits give their signed decimal value, and are rejected when that value is outside the 64-bit range. |
| GoConv.FormatInt | parser.go:142 | `%d` of an int is read back by `Atoi` as the same int. The text ends in a digit and holds no newline. |
| ConfigParse.Classify | parser.go:51-67 | An entry line is, once trimmed, key + `=` + value with no `=` in the key. A malformed line is non-empty and has no `=`. |
| ConfigParse.ClassifyHeader | parser.go:51-59 | A line that trims to `[name]`, with or without white space around it, is a header for `name`. |
| ConfigParse.ConvertTyped | parser.go:74-100 | A conversion that succeeds yields a value of its own section's type. The string section takes any text unchanged. |
| ConfigParse.ConvertReadsRendered | parser.go:74-92 | The bool and int conversions read back what `%v` and `%d` write. |
| ConfigParse.Store | parser.go:69-104 | An unknown section gives "unknown section". A key missing from the section's map gives "unknown key". A value the section does not convert gives "invalid value". Otherwise exactly that entry is set to the converted value, the section stays, and the key sets are unchanged. |
| ConfigParse.StoreEntry | parser.go:69-104 | The `switch currentSection` of the loop returns the error or the configuration `Store` gives. |
| ConfigParse.Step | parser.go:50-104 | A line keeps the key sets. A line that is not an entry leaves the configuration as it was. An accepted entry keeps the section and changes only its own key. |
| ConfigParse.Run | parser.go:49-105 | A run that succeeds keeps the key sets of the state it started from. |
| ConfigParse.Parse | parser.go:45-111 | On success, each map has exactly the key set of `DefaultConfig()`. |
| ConfigParse.ParseConfig | parser.go:45-111 | The scanning loop returns exactly `Parse` of the lines: the same configuration, or the same first error. |
| ConfigParse.RunAppend | parser.go:49-105 | Parsing two pieces in turn is parsing their concatenation, and an error in the first piece is final. |
| ConfigParse.SkippedLineIsInert | parser.go:51-54 | A blank or `#` line can be removed from any file without changing the outcome. |
| ConfigParse.HeaderOnlySwitchesSection | parser.go:51-59 | After a line that trims to `[name]`, anywhere in a file, the section is `name` and the configuration is unchanged. |
| ConfigParse.ErrorAborts | parser.go:61-104 | The first failing line decides the result: that error, whatever follows. |
| ConfigParse.MalformedLineRejected | parser.go:61-64 | A non-blank, non-comment, non-header line without `=` fails with "invalid line" and the trimmed line. |
| ConfigParse.SectionUnchangedWithoutHeader | parser.go:48-59 | Without a header line the current section stays what it was. |
| ConfigParse.EntryOutsideSectionRejected | parser.go:102-103 | An entry under a name other than the four (`[]` included) fails with "unknown section". |
| ConfigParse.EntryBeforeHeaderRejected | parser.go:48 | An entry before any header fails with "unknown section" for the empty name. |
| ConfigParse.UnknownKeyRejected | parser.go:70-96 | Under a known section, a key the default lacks in that section fails with "unknown key". |
| ConfigParse.InvalidValueRejected | parser.go:74-100 | A known key whose value the section does not convert fails with "invalid value". |
| ConfigParse.UnmentionedKeyKeepsValue | parser.go:78-101 | A key that no line assigns keeps its value in every section. |
| ConfigParse.UnmentionedKeyKeepsDefault | parser.go:45-111 | A key the file never assigns has its default value after a successful parse. |
| ConfigParse.LastAssignmentWins | parser.go:78-101 | The last line assigning a key decides its value: that line's converted value. |
| ConfigWrite.EntryLines | parser.go:125-128 | The entry lines are, index by index, `key=value` for the keys in iteration order. |
| ConfigWrite.Block | parser.go:123-129 | A block is empty exactly when its map is. Otherwise it starts with the section header and has one more line than the order has keys. |
| ConfigWrite.Render | parser.go:123-153 | Nothing is written exactly when all four maps are empty. |
| ConfigWrite.WriteSection | parser.go:123-129 | One block's output is `Unlines(Block(...))` for an order that lists each key exactly once. |
| ConfigWrite.WriteConfig | parser.go:123-153 | The written text is `Unlines(Render(c, order))` for some iteration order of each of the four maps. |
| ConfigWrite.EnumerationLength | parser.go:125 | An iteration order has as many keys as the map. |
| ConfigWrite.BlockShape | parser.go:123-129 | A block is empty exactly when its map is. Otherwise it is the header followed by one `key=value` line per entry: every entry appears, and there are no other lines. |
| ConfigWrite.BlockEntries | parser.go:123-129 | A block of a non-empty map is its header followed by its entry lines. |
| ConfigWrite.EntryLinesCover | parser.go:125-128 | Every entry's line is among the entry lines. |
| ConfigWrite.HeadersOfBlock | parser.go:123-124 | The only header in a block is its own, present exactly when the map is non-empty. |
| ConfigWrite.RenderHeaders | parser.go:123-153 | The headers are those of the non-empty maps, in the order bool, string, int, float. |
| ConfigWrite.RenderLength | parser.go:123-153 | The output has one line per header and one per entry, and no others. |
| ConfigRoundTrip.Reread | parser.go:97-101 | Reading back the rendered floats keeps the float key set. |
| ConfigRoundTrip.EntryLineClassified | parser.go:61-67 | A written `key=value` line is read as exactly that key and value. |
| ConfigRoundTrip.RunRender | parser.go:123-153 | Parsing the rendered lines from a state with the same key sets gives back every bool, string and int value, and every float as reread. |
| ConfigRoundTrip.RoundTrip | parser.go:45-153 | Writing a configuration with the default key sets and parsing the text gives back every bool, string and int value, and every float as its rendering is reread. |
| ConfigRoundTrip.RoundTripExact | parser.go:45-153 | With a float parser that inverts the float rendering, the round trip gives back the configuration exactly. |
| ConfigRoundTrip.WriteThenParse | parser.go:45-153 | `WriteConfig` followed by `ParseConfig` on the scanned text returns the configuration, floats reread. |
| ConfigScenarios.EmptyFileGivesDefault | parser.go:45-111 | An empty file parses to `DefaultConfig()`. |
| ConfigScenarios.OverrideTwoDefaults | parser.go:45-92 | `[bool] debug=true [int] port=9090` changes exactly those two entries of the default. |
| ConfigScenarios.PaddedHeaderScenario | parser.go:51-59 | The line `  [bool]<tab>` is trimmed first, so it opens the bool section and changes nothing else. |
| ConfigScenarios.MalformedLineScenario | parser.go:61-64 | `[int] port` fails with "invalid line" for `port`. |
| ConfigScenarios.UnknownSectionScenario | parser.go:102-103 | `[weight] kg=3` fails with "unknown section" for `weight`. |
| ConfigScenarios.EmptySectionScenario | parser.go:56-59 | `[] port=1` fails with "unknown section" for the empty name. |
| ConfigScenarios.UnknownKeyScenario | parser.go:84-87 | `[int] bogus=1` fails with "unknown key". |
| ConfigScenarios.UntrimmedKeyScenario | parser.go:66-67 | `[int] port = 1` fails with "unknown key" for the untrimmed key `"port "`. |
| ConfigScenarios.InvalidIntScenario | parser.go:88-91 | `[int] port=abc` fails with "invalid value". |
| ConfigScenarios.InvalidBoolScenario | parser.go:74-77 | `[bool] debug=maybe` fails with "invalid value". |
| ConfigScenarios.ValueKeepsLaterEquals | parser.go:61-67 | `app_name=a=b` sets `app_name` to `a=b`: only the first `=` splits. |
| ConfigScenarios.DefaultRoundTrip | parser.go:11-29 | Writing `DefaultConfig()` in any iteration order and parsing it back gives the default again, with `version` as reread. |

## Left out

- I/O: opening, creating and closing files, `bufio.Scanner` errors, the scanner's token-size limit, and `bufio.Writer.Flush` with its error (parser.go:39-43, 107-109, 115-121, 155).
  - The parser takes the lines of the file, and `ScanLines` models how a text becomes lines.
  - The writer returns the text it would write.
- `ConfigRoundTrip.RoundTrip`: floats are not converted. `strconv.ParseFloat` and `%f` are parameters, so the float round trip holds only as far as the supplied parser reads back what the formatter writes. Floating-point numerics are out of scope.
- `GoText.TrimSpace`: only the six ASCII white-space characters are trimmed, not Go's full Unicode table.
- Go strings are byte sequences; the model's strings are sequences of characters. Every delimiter the format uses (`[`, `]`, `=`, `#`, newline, carriage return) is ASCII, so splitting and trimming treat them alike; byte-level details of non-ASCII text are not modelled.
- Error messages are modelled by their kind and the offending section, key, value or line, not their text.
- Go's `int` is taken to be 64 bits wide (`Int64`). `Atoi` is not modelled for 32-bit platforms.
- `Config` is a value (a datatype of four maps), not a reference to a shared struct. `ParseConfig` mutates a configuration only it holds and returns it at the end. `DefaultConfig()` builds a new one on every call, so no aliasing is observable.
- `example/main.go` is not part of this model. It prints, exits on errors, and calls functions that `parser.go` does not define.
- The round-trip conditions (`WritableKey`, `WritableText`) suffice for this line format, as proved (they are not proved necessary), and are more general than requiring values without surrounding white space:
  - keys must have no `=`, no newline, and no leading white space, `#` or `[`;
  - value texts must have no newline and no trailing white space;
  - a value may start with white space, because it follows the `=`.
