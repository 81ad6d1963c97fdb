/** `WriteConfig` of parser.go: up to four section blocks in the fixed order
    bool, string, int, float, each a header followed by one `key=value` line
    per entry, in the map's (unspecified) iteration order.  `Render` is the
    reference definition for a given iteration order; the methods are the
    loops of the source, proved to emit `Render`'s lines for some order. */
module ConfigWrite {
  import opened GoText
  import opened GoConv
  import opened ConfigModel

  /** `ks` lists every key of `keys` exactly once: one iteration order. */
  predicate Enumerates(ks: seq<string>, keys: set<string>) {
    (forall i, j :: 0 <= i < j < |ks| ==> ks[i] != ks[j]) &&
    (forall i :: 0 <= i < |ks| ==> ks[i] in keys) &&
    (forall k :: k in keys ==> k in ks)
  }

  /** The order in which each of the four maps happened to be iterated. */
  datatype Order = Order(bools: seq<string>, strings: seq<string>, ints: seq<string>, floats: seq<string>)

  predicate IsOrderOf(o: Order, c: Config) {
    Enumerates(o.bools, c.bools.Keys) && Enumerates(o.strings, c.strings.Keys) &&
    Enumerates(o.ints, c.ints.Keys) && Enumerates(o.floats, c.floats.Keys)
  }

  /** The `fmt.Sprintf("%s=...", key, value)` line of one entry. */
  function EntryLine(key: string, text: string): string {
    key + "=" + text
  }

  /** The entry lines of `m` in the order `ks`. */
  function EntryLines<V>(m: map<string, V>, ks: seq<string>, show: V -> string): (lines: seq<string>)
    requires forall i :: 0 <= i < |ks| ==> ks[i] in m
    ensures |lines| == |ks|
    ensures forall i :: 0 <= i < |ks| ==> lines[i] == EntryLine(ks[i], show(m[ks[i]]))
  {
    if ks == [] then [] else [EntryLine(ks[0], show(m[ks[0]]))] + EntryLines(m, ks[1..], show)
  }

  /** One section block: nothing for an empty map, otherwise the header and
      the entry lines. */
  function Block<V>(name: string, m: map<string, V>, ks: seq<string>, show: V -> string): (b: seq<string>)
    requires forall i :: 0 <= i < |ks| ==> ks[i] in m
    ensures b == [] <==> |m| == 0
    ensures b != [] ==> |b| == |ks| + 1 && b[0] == "[" + name + "]"
  {
    if |m| == 0 then [] else ["[" + name + "]"] + EntryLines(m, ks, show)
  }

  function ShowString(s: string): string {
    s
  }

  /** The lines `WriteConfig` writes for configuration `c` when its maps are
      iterated in order `o`; floats are rendered by `showFloat` (`%f`). */
  function Render(c: Config, o: Order, showFloat: Float64 -> string): (lines: seq<string>)
    requires IsOrderOf(o, c)
    ensures lines == [] <==> |c.bools| == 0 && |c.strings| == 0 && |c.ints| == 0 && |c.floats| == 0
  {
    Block("bool", c.bools, o.bools, FormatBool)
    + Block("string", c.strings, o.strings, ShowString)
    + Block("int", c.ints, o.ints, FormatInt)
    + Block("float", c.floats, o.floats, showFloat)
  }

  /** One `if len(m) != 0 { ...; for key, value := range m { ... } }` block
      of the source.  The map is iterated in an order the method chooses;
      the ghost `order` records it. */
  method WriteSection<V>(name: string, m: map<string, V>, show: V -> string)
    returns (out: string, ghost order: seq<string>)
    ensures Enumerates(order, m.Keys)
    ensures out == Unlines(Block(name, m, order, show))
  {
    out := [];
    order := [];
    if |m| == 0 {
      return;
    }
    out := "[" + name + "]" + "\n";
    var rest := m.Keys;
    while rest != {}
      invariant rest <= m.Keys
      invariant forall i :: 0 <= i < |order| ==> order[i] in m.Keys - rest
      invariant forall k :: k in m.Keys - rest ==> k in order
      invariant forall i, j :: 0 <= i < j < |order| ==> order[i] != order[j]
      invariant out == Unlines(["[" + name + "]"] + EntryLines(m, order, show))
      decreases rest
    {
      var key :| key in rest;
      var line := EntryLine(key, show(m[key]));
      UnlinesOneMore("[" + name + "]", m, order, key, show);
      out := out + line + "\n";
      order := order + [key];
      rest := rest - {key};
    }
  }

  lemma UnlinesOneMore<V>(header: string, m: map<string, V>, ks: seq<string>, key: string, show: V -> string)
    requires forall i :: 0 <= i < |ks| ==> ks[i] in m
    requires key in m
    ensures Unlines([header] + EntryLines(m, ks + [key], show))
            == Unlines([header] + EntryLines(m, ks, show)) + EntryLine(key, show(m[key])) + "\n"
  {
    var line := EntryLine(key, show(m[key]));
    var done := [header] + EntryLines(m, ks, show);
    UnlinesAppend(done, [line]);
    assert Unlines([line]) == line + "\n" + Unlines([]);
    assert EntryLines(m, ks + [key], show) == EntryLines(m, ks, show) + [line];
    assert done + [line] == [header] + EntryLines(m, ks + [key], show);
  }

  /** `WriteConfig`: the text written to the file, for the iteration order
      `order` the four loops happened to take. */
  method WriteConfig(c: Config, showFloat: Float64 -> string) returns (out: string, ghost order: Order)
    ensures IsOrderOf(order, c)
    ensures out == Unlines(Render(c, order, showFloat))
  {
    var bools, ob := WriteSection("bool", c.bools, FormatBool);
    var strings, os := WriteSection("string", c.strings, ShowString);
    var ints, oi := WriteSection("int", c.ints, FormatInt);
    var floats, of := WriteSection("float", c.floats, showFloat);
    out := bools + strings + ints + floats;
    order := Order(ob, os, oi, of);
    var b1 := Block("bool", c.bools, ob, FormatBool);
    var b2 := Block("string", c.strings, os, ShowString);
    var b3 := Block("int", c.ints, oi, FormatInt);
    var b4 := Block("float", c.floats, of, showFloat);
    UnlinesAppend(b1, b2);
    UnlinesAppend(b1 + b2, b3);
    UnlinesAppend(b1 + b2 + b3, b4);
  }

  /** An order of a key set lists as many keys as the set has. */
  lemma {:induction false} EnumerationLength(ks: seq<string>, keys: set<string>)
    requires Enumerates(ks, keys)
    ensures |ks| == |keys|
    decreases |ks|
  {
    if ks == [] {
      assert forall k :: k in keys ==> k in ks;
      assert keys == {};
    } else {
      var rest := keys - {ks[0]};
      assert forall i :: 0 <= i < |ks[1..]| ==> ks[1..][i] == ks[i + 1];
      assert forall k :: k in rest ==> k in ks[1..] by {
        forall k | k in rest ensures k in ks[1..] {
          var i :| 0 <= i < |ks| && ks[i] == k;
          assert i != 0;
          assert ks[1..][i - 1] == k;
        }
      }
      EnumerationLength(ks[1..], rest);
    }
  }

  /** A block is empty exactly when its map is; otherwise it is the header
      followed by one `key=value` line per entry of the map and no other. */
  lemma BlockShape<V>(name: string, m: map<string, V>, ks: seq<string>, show: V -> string)
    requires Enumerates(ks, m.Keys)
    ensures Block(name, m, ks, show) == [] <==> |m| == 0
    ensures |m| != 0 ==>
      var b := Block(name, m, ks, show);
      |b| == |m| + 1 && b[0] == "[" + name + "]"
      && (forall i :: 1 <= i < |b| ==> b[i] == EntryLine(ks[i - 1], show(m[ks[i - 1]])))
      && (forall k :: k in m ==> EntryLine(k, show(m[k])) in b[1..])
  {
    EnumerationLength(ks, m.Keys);
    assert |m.Keys| == |m|;
    if |m| != 0 {
      BlockEntries(name, m, ks, show);
      EntryLinesCover(m, ks, show);
    }
  }

  /** A block of a non-empty map is its header followed by its entry lines. */
  lemma BlockEntries<V>(name: string, m: map<string, V>, ks: seq<string>, show: V -> string)
    requires |m| != 0
    requires forall i :: 0 <= i < |ks| ==> ks[i] in m
    ensures var b := Block(name, m, ks, show);
      |b| == |ks| + 1 && b[0] == "[" + name + "]" && b[1..] == EntryLines(m, ks, show)
      && (forall i :: 1 <= i < |b| ==> b[i] == EntryLine(ks[i - 1], show(m[ks[i - 1]])))
  {
    var lines := EntryLines(m, ks, show);
    var b := Block(name, m, ks, show);
    assert b == ["[" + name + "]"] + lines;
    assert forall i :: 1 <= i < |b| ==> b[i] == lines[i - 1];
  }

  /** Every entry of `m` has its line among the entry lines of an order of
      its keys. */
  lemma EntryLinesCover<V>(m: map<string, V>, ks: seq<string>, show: V -> string)
    requires Enumerates(ks, m.Keys)
    ensures forall k :: k in m ==> EntryLine(k, show(m[k])) in EntryLines(m, ks, show)
  {
    var lines := EntryLines(m, ks, show);
    forall k | k in m ensures EntryLine(k, show(m[k])) in lines {
      var i :| 0 <= i < |ks| && ks[i] == k;
      assert lines[i] == EntryLine(k, show(m[k]));
    }
  }

  /** The lines that hold no `=`: every entry line holds one, so these are
      the section headers. */
  function Headers(lines: seq<string>): seq<string> {
    if lines == [] then []
    else (if '=' !in lines[0] then [lines[0]] else []) + Headers(lines[1..])
  }

  lemma {:induction false} HeadersAppend(a: seq<string>, b: seq<string>)
    ensures Headers(a + b) == Headers(a) + Headers(b)
  {
    if a == [] {
      assert a + b == b;
    } else {
      assert (a + b)[0] == a[0] && (a + b)[1..] == a[1..] + b;
      HeadersAppend(a[1..], b);
    }
  }

  lemma {:induction false} HeadersOfEntries<V>(m: map<string, V>, ks: seq<string>, show: V -> string)
    requires forall i :: 0 <= i < |ks| ==> ks[i] in m
    ensures Headers(EntryLines(m, ks, show)) == []
  {
    if ks != [] {
      var lines := EntryLines(m, ks, show);
      assert lines[0][|ks[0]|] == '=';
      assert lines[1..] == EntryLines(m, ks[1..], show);
      HeadersOfEntries(m, ks[1..], show);
    }
  }

  /** The header a block starts with, or nothing for an empty map. */
  function HeaderIfAny<V>(name: string, m: map<string, V>): seq<string> {
    if |m| == 0 then [] else ["[" + name + "]"]
  }

  lemma HeadersOfBlock<V>(name: string, m: map<string, V>, ks: seq<string>, show: V -> string)
    requires '=' !in name
    requires forall i :: 0 <= i < |ks| ==> ks[i] in m
    ensures Headers(Block(name, m, ks, show)) == HeaderIfAny(name, m)
  {
    if |m| != 0 {
      var h := "[" + name + "]";
      assert '=' !in h;
      HeadersAppend([h], EntryLines(m, ks, show));
      HeadersOfEntries(m, ks, show);
      assert Headers([h]) == [h] + Headers([]);
    }
  }

  /** The headers that appear are those of the non-empty maps, in the
      order bool, string, int, float. */
  lemma RenderHeaders(c: Config, o: Order, showFloat: Float64 -> string)
    requires IsOrderOf(o, c)
    ensures Headers(Render(c, o, showFloat))
            == HeaderIfAny("bool", c.bools) + HeaderIfAny("string", c.strings)
               + HeaderIfAny("int", c.ints) + HeaderIfAny("float", c.floats)
  {
    var b1 := Block("bool", c.bools, o.bools, FormatBool);
    var b2 := Block("string", c.strings, o.strings, ShowString);
    var b3 := Block("int", c.ints, o.ints, FormatInt);
    var b4 := Block("float", c.floats, o.floats, showFloat);
    HeadersOfBlock("bool", c.bools, o.bools, FormatBool);
    HeadersOfBlock("string", c.strings, o.strings, ShowString);
    HeadersOfBlock("int", c.ints, o.ints, FormatInt);
    HeadersOfBlock("float", c.floats, o.floats, showFloat);
    HeadersAppend(b1, b2);
    HeadersAppend(b1 + b2, b3);
    HeadersAppend(b1 + b2 + b3, b4);
  }

  /** A non-empty map contributes its header and one line per entry, and
      there are no other lines. */
  lemma RenderLength(c: Config, o: Order, showFloat: Float64 -> string)
    requires IsOrderOf(o, c)
    ensures |Render(c, o, showFloat)|
            == |HeaderIfAny("bool", c.bools)| + |c.bools| + |HeaderIfAny("string", c.strings)| + |c.strings|
               + |HeaderIfAny("int", c.ints)| + |c.ints| + |HeaderIfAny("float", c.floats)| + |c.floats|
  {
    BlockShape("bool", c.bools, o.bools, FormatBool);
    BlockShape("string", c.strings, o.strings, ShowString);
    BlockShape("int", c.ints, o.ints, FormatInt);
    BlockShape("float", c.floats, o.floats, showFloat);
  }
}
