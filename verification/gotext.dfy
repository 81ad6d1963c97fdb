/** The parts of Go's `strings` and `bufio` packages that the configuration
    codec relies on: `TrimSpace` (ASCII white space only), the first-separator
    split of `SplitN(s, sep, 2)`, and the line splitting of `bufio.ScanLines`
    together with the newline-terminated output the writer produces. */
module GoText {
  import opened Wrappers

  /** The ASCII characters that `strings.TrimSpace` removes. */
  predicate IsSpace(c: char) {
    c == ' ' || c == '\t' || c == '\n' || c == '\r' || c == '\U{0B}' || c == '\U{0C}'
  }

  /** The number of white-space characters `s` starts with. */
  function LeadingSpaces(s: string): (n: nat)
    ensures n <= |s|
    ensures forall i :: 0 <= i < n ==> IsSpace(s[i])
    ensures n < |s| ==> !IsSpace(s[n])
  {
    if s != [] && IsSpace(s[0]) then 1 + LeadingSpaces(s[1..]) else 0
  }

  /** The length of `s` without the white space it ends with. */
  function TrailingStart(s: string): (n: nat)
    ensures n <= |s|
    ensures forall i :: n <= i < |s| ==> IsSpace(s[i])
    ensures 0 < n ==> !IsSpace(s[n - 1])
  {
    if s != [] && IsSpace(s[|s| - 1]) then TrailingStart(s[..|s| - 1]) else |s|
  }

  /** `strings.TrimSpace`: the longest infix of `s` that neither starts nor
      ends with white space; everything cut off on either side is white space. */
  function TrimSpace(s: string): (r: string)
    ensures var i := LeadingSpaces(s);
              i + |r| <= |s| && r == s[i..i + |r|]
              && (forall j :: 0 <= j < i ==> IsSpace(s[j]))
              && (forall j :: i + |r| <= j < |s| ==> IsSpace(s[j]))
    ensures r != [] ==> !IsSpace(r[0]) && !IsSpace(r[|r| - 1])
  {
    var i := LeadingSpaces(s);
    var rest := s[i..];
    var n := TrailingStart(rest);
    assert forall j :: i + n <= j < |s| ==> s[j] == rest[j - i];
    rest[..n]
  }

  /** Trimming leaves nothing exactly when `s` is all white space. */
  lemma TrimSpaceEmpty(s: string)
    ensures TrimSpace(s) == [] <==> forall j :: 0 <= j < |s| ==> IsSpace(s[j])
  {
    var r := TrimSpace(s);
    var i := LeadingSpaces(s);
    if r != [] {
      assert r[0] == s[i];
    }
  }

  /** Text that neither starts nor ends with white space is left alone. */
  lemma TrimSpaceOfTrimmed(s: string)
    requires s == [] || (!IsSpace(s[0]) && !IsSpace(s[|s| - 1]))
    ensures TrimSpace(s) == s
  {
    assert LeadingSpaces(s) == 0;
    assert s[0..] == s;
    assert TrailingStart(s) == |s|;
  }

  /** Trimming takes off exactly the white space padding either side of a
      text that neither starts nor ends with white space. */
  lemma TrimSpacePadded(a: string, t: string, b: string)
    requires forall j :: 0 <= j < |a| ==> IsSpace(a[j])
    requires forall j :: 0 <= j < |b| ==> IsSpace(b[j])
    requires t != [] && !IsSpace(t[0]) && !IsSpace(t[|t| - 1])
    ensures TrimSpace(a + t + b) == t
  {
    var s := a + t + b;
    var i := LeadingSpaces(s);
    var r := TrimSpace(s);
    assert s[|a|] == t[0];
    assert forall j :: 0 <= j < |a| ==> s[j] == a[j];
    assert i == |a|;
    var e := i + |r|;
    assert r[|r| - 1] == s[e - 1];
    assert s[|a| + |t| - 1] == t[|t| - 1];
    assert forall j :: |a| + |t| <= j < |s| ==> s[j] == b[j - |a| - |t|];
    assert e == |a| + |t|;
    assert s[|a|..|a| + |t|] == t;
  }

  /** The index of the first occurrence of `c` in `s`, if there is one. */
  function FirstIndex(s: string, c: char): (r: Option<nat>)
    ensures r.None? <==> c !in s
    ensures r.Some? ==> r.value < |s| && s[r.value] == c && c !in s[..r.value]
  {
    if s == [] then None
    else if s[0] == c then Some(0)
    else match FirstIndex(s[1..], c)
      case None => None
      case Some(i) =>
        assert s[..i + 1] == [s[0]] + s[1..][..i];
        Some(i + 1)
  }

  /** The first `c` of `a + [c] + b` is the one after `a` when `a` has none. */
  lemma FirstIndexOfJoin(a: string, c: char, b: string)
    requires c !in a
    ensures FirstIndex(a + [c] + b, c) == Some(|a|)
  {
    var s := a + [c] + b;
    assert s[|a|] == c;
    assert s[..|a|] == a;
  }

  /** `strings.SplitN(s, string(sep), 2)`: the text before and after the
      first `sep`, or nothing when `s` has no `sep`. */
  function SplitFirst(s: string, sep: char): (r: Option<(string, string)>)
    ensures r.None? <==> sep !in s
    ensures r.Some? ==> s == r.value.0 + [sep] + r.value.1 && sep !in r.value.0
  {
    match FirstIndex(s, sep)
    case None => None
    case Some(i) =>
      assert s == s[..i] + [sep] + s[i + 1..];
      Some((s[..i], s[i + 1..]))
  }

  /** Splitting a joined pair at the first separator gives the pair back when
      the left part has no separator, whatever the right part holds. */
  lemma SplitFirstOfJoin(k: string, sep: char, v: string)
    requires sep !in k
    ensures SplitFirst(k + [sep] + v, sep) == Some((k, v))
  {
    var s := k + [sep] + v;
    FirstIndexOfJoin(k, sep, v);
    assert s[..|k|] == k;
    assert s[|k| + 1..] == v;
  }

  /** `bufio.dropCR`: one trailing carriage return is removed. */
  function DropCR(s: string): string {
    if s != [] && s[|s| - 1] == '\r' then s[..|s| - 1] else s
  }

  /** `bufio.ScanLines` applied until the end of `text`: lines end at each
      newline, a final line without newline still counts, and each line loses
      one trailing carriage return. */
  function ScanLines(text: string): (lines: seq<string>)
    ensures forall i :: 0 <= i < |lines| ==> '\n' !in lines[i]
    decreases |text|
  {
    if text == [] then []
    else match FirstIndex(text, '\n')
      case None => [DropCR(text)]
      case Some(i) => [DropCR(text[..i])] + ScanLines(text[i + 1..])
  }

  /** The text a writer produces by emitting each line followed by a newline. */
  function Unlines(lines: seq<string>): (text: string)
    ensures text == [] <==> lines == []
    ensures text != [] ==> text[|text| - 1] == '\n'
  {
    if lines == [] then [] else lines[0] + "\n" + Unlines(lines[1..])
  }

  lemma {:induction false} UnlinesAppend(a: seq<string>, b: seq<string>)
    ensures Unlines(a + b) == Unlines(a) + Unlines(b)
  {
    if a != [] {
      assert (a + b)[1..] == a[1..] + b;
      UnlinesAppend(a[1..], b);
    } else {
      assert a + b == b;
    }
  }

  /** Scanning the text written from `lines` gives `lines` back, provided no
      line holds a newline or ends with a carriage return. */
  lemma {:induction false} ScanLinesUnlines(lines: seq<string>)
    requires forall i :: 0 <= i < |lines| ==> '\n' !in lines[i]
    requires forall i :: 0 <= i < |lines| ==> lines[i] == [] || lines[i][|lines[i]| - 1] != '\r'
    ensures ScanLines(Unlines(lines)) == lines
  {
    if lines != [] {
      var text := Unlines(lines);
      var l := lines[0];
      var rest := Unlines(lines[1..]);
      assert text == l + ['\n'] + rest;
      FirstIndexOfJoin(l, '\n', rest);
      assert text[..|l|] == l;
      assert text[|l| + 1..] == rest;
      ScanLinesUnlines(lines[1..]);
    }
  }
}
