/** A reader for the block mappings the operator writes: one or two levels of plain keys with
    double-quoted scalars (sections 7.3.1 and 8.2.2 of YAML 1.2.2). It stands for the YAML library
    that internal/pkg/teleport/configmap.go calls. */
module Yaml {
  import opened Prelude
  import opened Values

  datatype Node = Null | Scalar(text: string) | Block(fields: map<string, string>)

  type Document = map<string, Node>

  /** One line of a document; a line without a value opens a block. */
  datatype Line = Line(indented: bool, key: string, value: Option<string>)

  predicate KeyChar(c: char) {
    'a' <= c <= 'z' || 'A' <= c <= 'Z' || '0' <= c <= '9' || c == '-'
  }

  predicate IsKey(s: string) {
    s != [] && forall i :: 0 <= i < |s| ==> KeyChar(s[i])
  }

  /** Index of the first colon, or the length. */
  function Colon(s: string): (i: nat)
    ensures i <= |s|
    ensures i < |s| ==> s[i] == ':'
    ensures forall j :: 0 <= j < i ==> s[j] != ':'
  {
    if s == [] || s[0] == ':' then 0 else 1 + Colon(s[1..])
  }

  function ParseScalar(s: string): Option<string> {
    if |s| >= 3 && s[0] == ' ' && s[1] == '\"' && s[|s| - 1] == '\"' && Safe(s[2..|s| - 1])
    then Some(s[2..|s| - 1])
    else None
  }

  function ParseLine(s: string): Option<Line> {
    var indented := INDENT <= s;
    var body := if indented then s[|INDENT|..] else s;
    var colon := Colon(body);
    if colon == |body| || !IsKey(body[..colon]) then None
    else
      var rest := body[colon + 1..];
      if rest == "" then Some(Line(indented, body[..colon], None))
      else
        var value :- ParseScalar(rest);
        Some(Line(indented, body[..colon], Some(value)))
  }

  function ParseLines(texts: seq<string>): Option<seq<Line>> {
    if texts == [] then Some([])
    else
      var line :- ParseLine(texts[0]);
      var rest :- ParseLines(texts[1..]);
      Some([line] + rest)
  }

  /** Adds the lines to `root`; `open` is the block that indented lines belong to. A repeated key,
      an indented line outside a block and a third level are errors. */
  function Build(lines: seq<Line>, root: Document, open: Option<string>): Option<Document>
    requires open.Some? ==> open.value in root && !root[open.value].Scalar?
  {
    if lines == [] then Some(root)
    else
      var line := lines[0];
      if !line.indented then
        if line.key in root then None
        else if line.value.Some? then Build(lines[1..], root[line.key := Scalar(line.value.value)], None)
        else Build(lines[1..], root[line.key := Null], Some(line.key))
      else if open.None? || line.value.None? then None
      else
        var fields := if root[open.value].Block? then root[open.value].fields else map[];
        if line.key in fields then None
        else Build(lines[1..], root[open.value := Block(fields[line.key := line.value.value])], open)
  }

  function ParseDocument(text: string): Option<Document> {
    var texts := Split(text, '\n');
    var lines :- ParseLines(if texts[|texts| - 1] == "" then texts[..|texts| - 1] else texts);
    Build(lines, map[], None)
  }

  // --- Writing lines and reading them back -------------------------------------------------

  predicate WellFormed(line: Line) {
    IsKey(line.key) && (line.value.Some? ==> Safe(line.value.value))
  }

  function LineText(line: Line): string {
    (if line.indented then INDENT else "") + line.key + ":" + ScalarText(line.value)
  }

  function Text(lines: seq<Line>): string {
    if lines == [] then "" else LineText(lines[0]) + "\n" + Text(lines[1..])
  }

  lemma {:induction false} ColonAfterKey(key: string, rest: string)
    requires forall i :: 0 <= i < |key| ==> KeyChar(key[i])
    ensures Colon(key + ":" + rest) == |key|
  {
    var s := key + ":" + rest;
    assert s[|key|] == ':';
    assert forall i :: 0 <= i < |key| ==> s[i] == key[i];
  }

  function ScalarText(value: Option<string>): string {
    if value.Some? then " \"" + value.value + "\"" else ""
  }

  lemma ParseOfScalarText(value: string)
    requires Safe(value)
    ensures ParseScalar(ScalarText(Some(value))) == Some(value)
  {
    var tail := ScalarText(Some(value));
    assert tail[2..|tail| - 1] == value;
  }

  lemma SingleLine(line: Line)
    requires WellFormed(line)
    ensures '\n' !in LineText(line)
  {
    assert '\n' !in line.key && '\n' !in ScalarText(line.value);
    assert '\n' !in (if line.indented then INDENT else "");
  }

  lemma BodyOfLineText(line: Line)
    requires WellFormed(line)
    ensures var body := line.key + (":" + ScalarText(line.value));
            Colon(body) == |line.key| < |body|
            && body[..|line.key|] == line.key && body[|line.key| + 1..] == ScalarText(line.value)
  {
    assert line.key + (":" + ScalarText(line.value)) == line.key + ":" + ScalarText(line.value);
    ColonAfterKey(line.key, ScalarText(line.value));
  }

  lemma IndentOfLineText(line: Line)
    requires WellFormed(line)
    ensures var body := line.key + (":" + ScalarText(line.value));
            var s := LineText(line);
            (INDENT <= s <==> line.indented) && (if line.indented then s[|INDENT|..] else s) == body
  {
    var body := line.key + (":" + ScalarText(line.value));
    var s := LineText(line);
    assert s == (if line.indented then INDENT else "") + body;
    if !line.indented {
      assert s == body && s[0] == line.key[0] && KeyChar(line.key[0]);
      assert INDENT[0] == ' ';
    }
  }

  lemma ParseOfLineText(line: Line)
    requires WellFormed(line)
    ensures ParseLine(LineText(line)) == Some(line)
  {
    IndentOfLineText(line);
    BodyOfLineText(line);
    if line.value.Some? {
      ParseOfScalarText(line.value.value);
    }
  }

  lemma SplitFirstLine(line: Line, rest: string)
    requires WellFormed(line)
    ensures Split(LineText(line) + "\n" + rest, '\n') == [LineText(line)] + Split(rest, '\n')
  {
    SingleLine(line);
    SplitAt(LineText(line), '\n', rest);
  }

  lemma ParseLinesStep(line: Line, texts: seq<string>)
    requires WellFormed(line)
    ensures ParseLines([LineText(line)] + texts) ==
            (match ParseLines(texts) case None => None case Some(rest) => Some([line] + rest))
  {
    ParseOfLineText(line);
    assert ([LineText(line)] + texts)[1..] == texts;
  }

  /** The text splits into lines that parse to `lines`, and ends with a line break. */
  predicate ReadsAs(text: string, lines: seq<Line>) {
    var texts := Split(text, '\n');
    texts[|texts| - 1] == "" && ParseLines(texts[..|texts| - 1]) == Some(lines)
  }

  lemma ReadsAsStep(line: Line, text: string, lines: seq<Line>)
    requires WellFormed(line) && ReadsAs(text, lines)
    ensures ReadsAs(LineText(line) + "\n" + text, [line] + lines)
  {
    var rest := Split(text, '\n');
    SplitFirstLine(line, text);
    var texts := [LineText(line)] + rest;
    assert texts[..|texts| - 1] == [LineText(line)] + rest[..|rest| - 1];
    ParseLinesStep(line, rest[..|rest| - 1]);
  }

  lemma {:induction false} TextReadsAs(lines: seq<Line>)
    requires forall i :: 0 <= i < |lines| ==> WellFormed(lines[i])
    ensures ReadsAs(Text(lines), lines)
  {
    if lines != [] {
      TextReadsAs(lines[1..]);
      ReadsAsStep(lines[0], Text(lines[1..]), lines[1..]);
      assert [lines[0]] + lines[1..] == lines;
    }
  }

  /** Well-formed lines are read back as they were written. */
  lemma ParseOfText(lines: seq<Line>)
    requires forall i :: 0 <= i < |lines| ==> WellFormed(lines[i])
    ensures ParseDocument(Text(lines)) == Build(lines, map[], None)
  {
    TextReadsAs(lines);
  }

  lemma {:induction false} TextConcat(a: seq<Line>, b: seq<Line>)
    ensures Text(a + b) == Text(a) + Text(b)
  {
    if a == [] {
      assert a + b == b;
    } else {
      TextConcat(a[1..], b);
      assert (a + b)[0] == a[0] && (a + b)[1..] == a[1..] + b;
      ConcatAssociates(LineText(a[0]) + "\n", Text(a[1..]), Text(b));
    }
  }

  // --- What a parsed document can hold ------------------------------------------------------

  predicate SafeNode(n: Node) {
    match n
    case Null => true
    case Scalar(text) => Safe(text)
    case Block(fields) => forall k :: k in fields ==> Safe(fields[k])
  }

  lemma {:induction false} ParseLinesSafe(texts: seq<string>)
    ensures ParseLines(texts).Some? ==>
              forall l :: l in ParseLines(texts).value && l.value.Some? ==> Safe(l.value.value)
  {
    if texts != [] {
      ParseLinesSafe(texts[1..]);
    }
  }

  lemma {:induction false} BuildSafe(lines: seq<Line>, root: Document, open: Option<string>)
    requires open.Some? ==> open.value in root && !root[open.value].Scalar?
    requires forall l :: l in lines && l.value.Some? ==> Safe(l.value.value)
    requires forall k :: k in root ==> SafeNode(root[k])
    ensures Build(lines, root, open).Some? ==>
              forall k :: k in Build(lines, root, open).value ==> SafeNode(Build(lines, root, open).value[k])
  {
    if lines != [] {
      var line := lines[0];
      assert line in lines;
      assert forall l :: l in lines[1..] ==> l in lines;
      if !line.indented {
        if line.key !in root {
          if line.value.Some? {
            BuildSafe(lines[1..], root[line.key := Scalar(line.value.value)], None);
          } else {
            BuildSafe(lines[1..], root[line.key := Null], Some(line.key));
          }
        }
      } else if open.Some? && line.value.Some? {
        assert SafeNode(root[open.value]);
        var fields := if root[open.value].Block? then root[open.value].fields else map[];
        if line.key !in fields {
          BuildSafe(lines[1..], root[open.value := Block(fields[line.key := line.value.value])], open);
        }
      }
    }
  }

  /** Every string a parsed document holds can be written back between quotes unchanged. */
  lemma ParsedIsSafe(text: string)
    ensures ParseDocument(text).Some? ==>
              forall k :: k in ParseDocument(text).value ==> SafeNode(ParseDocument(text).value[k])
  {
    var texts := Split(text, '\n');
    var used := if texts[|texts| - 1] == "" then texts[..|texts| - 1] else texts;
    ParseLinesSafe(used);
    if ParseLines(used).Some? {
      BuildSafe(ParseLines(used).value, map[], None);
    }
  }
}
