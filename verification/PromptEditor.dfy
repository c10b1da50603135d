/** The prompt editor's text form and its document form: what a text is rendered to, and what is read
    back from a document.
  */
module PromptEditor {
  import opened Strings

  // ---------------------------------------------------------------- variable tokens

  predicate IsWord(c: char) {
    'a' <= c <= 'z' || 'A' <= c <= 'Z' || '0' <= c <= '9' || c == '_' || c == '.' || c == '-'
  }

  /** How far the run of word characters from `i` goes. */
  function RunEnd(text: string, i: nat): (n: nat)
    requires i <= |text|
    ensures i <= n <= |text| && (forall k :: i <= k < n ==> IsWord(text[k])) && (n < |text| ==> !IsWord(text[n]))
    decreases |text| - i
  {
    if i < |text| && IsWord(text[i]) then RunEnd(text, i + 1) else i
  }

  /** A token `{{name}}` stands at `i`; the pattern can match in one way only. */
  predicate TokenAt(text: string, i: nat) {
    i + 2 <= |text| && text[i..i + 2] == "{{"
    && var n := RunEnd(text, i + 2);
       i + 2 < n && n + 2 <= |text| && text[n..n + 2] == "}}"
  }

  function NameAt(text: string, i: nat): string
    requires TokenAt(text, i)
  {
    text[i + 2..RunEnd(text, i + 2)]
  }

  function TokenEnd(text: string, i: nat): (n: nat)
    requires TokenAt(text, i)
    ensures i < n <= |text| && text[i..n] == "{{" + NameAt(text, i) + "}}"
  {
    RunEnd(text, i + 2) + 2
  }

  /** `exec` with the global flag: the first token at `i` or later, or the end of the text. */
  function NextToken(text: string, i: nat): (n: nat)
    requires i <= |text|
    ensures i <= n <= |text| && (n < |text| ==> TokenAt(text, n)) && forall k :: i <= k < n ==> !TokenAt(text, k)
    decreases |text| - i
  {
    if i == |text| || TokenAt(text, i) then i else NextToken(text, i + 1)
  }

  datatype Piece = Gap(text: string) | Token(name: string)
  {
    function Source(): string {
      if Gap? then text else "{{" + name + "}}"
    }
  }

  /** The matches and the gaps between them, from position `i`. */
  function Pieces(text: string, i: nat): seq<Piece>
    requires i <= |text|
    decreases |text| - i
  {
    var n := NextToken(text, i);
    (if n > i then [Gap(text[i..n])] else [])
    + (if n < |text| then [Token(NameAt(text, n))] + Pieces(text, TokenEnd(text, n)) else [])
  }

  function Sources(pieces: seq<Piece>): string {
    if pieces == [] then "" else pieces[0].Source() + Sources(pieces[1..])
  }

  function Names(pieces: seq<Piece>): seq<string> {
    if pieces == [] then []
    else (if pieces[0].Token? then [pieces[0].name] else []) + Names(pieces[1..])
  }

  /** Every name once, where it occurs first. */
  function FirstOccurrences(names: seq<string>): seq<string> {
    if names == [] then []
    else
      var before, last := FirstOccurrences(names[..|names| - 1]), names[|names| - 1];
      if last in before then before else before + [last]
  }

  lemma {:induction false} NamesAppend(a: seq<Piece>, b: seq<Piece>)
    ensures Names(a + b) == Names(a) + Names(b)
  {
    if a == [] {
      assert a + b == b;
    } else {
      assert (a + b)[1..] == a[1..] + b;
      NamesAppend(a[1..], b);
    }
  }

  lemma {:induction false} SourcesAppend(a: seq<Piece>, b: seq<Piece>)
    ensures Sources(a + b) == Sources(a) + Sources(b)
  {
    if a == [] {
      assert a + b == b;
    } else {
      assert (a + b)[1..] == a[1..] + b;
      SourcesAppend(a[1..], b);
    }
  }

  lemma SourcesOne(piece: Piece)
    ensures Sources([piece]) == piece.Source()
  {
    assert [piece][1..] == [];
  }

  lemma Spliced(text: string, i: nat, n: nat, m: nat)
    requires i <= n <= m <= |text|
    ensures text[i..n] + (text[n..m] + text[m..]) == text[i..]
  {
  }

  /** Matches and gaps partition the text. */
  lemma {:induction false} PiecesPartition(text: string, i: nat)
    requires i <= |text|
    ensures Sources(Pieces(text, i)) == text[i..]
    decreases |text| - i
  {
    var n := NextToken(text, i);
    var head := if n > i then [Gap(text[i..n])] else [];
    SourcesOne(Gap(text[i..n]));
    if n < |text| {
      var m := TokenEnd(text, n);
      PiecesPartition(text, m);
      SourcesOne(Token(NameAt(text, n)));
      SourcesAppend([Token(NameAt(text, n))], Pieces(text, m));
      SourcesAppend(head, [Token(NameAt(text, n))] + Pieces(text, m));
      Spliced(text, i, n, m);
    } else {
      SourcesAppend(head, []);
    }
  }

  lemma TokenInside(text: string, i: nat, n: nat, k: nat)
    requires i <= n <= |text| && TokenAt(text[i..n], k)
    ensures TokenAt(text, i + k)
  {
    var part := text[i..n];
    var m := RunEnd(part, k + 2);
    assert forall j :: 0 <= j < |part| ==> part[j] == text[i + j];
    RunIs(text, i + k + 2, i + m);
    assert text[i + k..i + k + 2] == part[k..k + 2] && text[i + m..i + m + 2] == part[m..m + 2];
  }

  lemma {:induction false} RunIs(text: string, i: nat, n: nat)
    requires i <= n < |text| && (forall k :: i <= k < n ==> IsWord(text[k])) && !IsWord(text[n])
    ensures RunEnd(text, i) == n
  {
  }

  /** A piece is a token of a word, or a gap that holds no token. */
  predicate PieceOk(piece: Piece) {
    match piece
    case Gap(text) => text != "" && forall k :: 0 <= k < |text| ==> !TokenAt(text, k)
    case Token(name) => name != "" && forall k :: 0 <= k < |name| ==> IsWord(name[k])
  }

  /** The pieces of a text are gaps without tokens, never two in a row, and tokens. */
  lemma {:induction false} PiecesAreTokensAndGaps(text: string, i: nat)
    requires i <= |text|
    ensures forall p :: 0 <= p < |Pieces(text, i)| ==> PieceOk(Pieces(text, i)[p])
    ensures forall p :: 0 < p < |Pieces(text, i)| ==> Pieces(text, i)[p - 1].Token? || Pieces(text, i)[p].Token?
    decreases |text| - i
  {
    var n := NextToken(text, i);
    forall k | 0 <= k < n - i
      ensures !TokenAt(text[i..n], k)
    {
      if TokenAt(text[i..n], k) { TokenInside(text, i, n, k); }
    }
    if n < |text| {
      PiecesAreTokensAndGaps(text, TokenEnd(text, n));
    }
  }

  // ---------------------------------------------------------------- references

  /** The names of the tokens from position `i`. */
  function References(text: string, i: nat): seq<string>
    requires i <= |text|
    decreases |text| - i
  {
    var n := NextToken(text, i);
    if n < |text| then [NameAt(text, n)] + References(text, TokenEnd(text, n)) else []
  }

  /** They are the names of the variable tags the text is rendered with. */
  lemma {:induction false} ReferencesAreNames(text: string, i: nat)
    requires i <= |text|
    ensures References(text, i) == Names(Pieces(text, i))
    decreases |text| - i
  {
    var n := NextToken(text, i);
    var head := if n > i then [Gap(text[i..n])] else [];
    assert Names(head) == [] by { if n > i { assert head[1..] == []; } }
    if n < |text| {
      var rest := Pieces(text, TokenEnd(text, n));
      ReferencesAreNames(text, TokenEnd(text, n));
      NamesAppend(head, [Token(NameAt(text, n))] + rest);
      assert ([Token(NameAt(text, n))] + rest)[1..] == rest;
    } else {
      NamesAppend(head, []);
    }
  }

  lemma FirstOccurrencesPush(names: seq<string>, name: string)
    ensures FirstOccurrences(names + [name])
            == if name in FirstOccurrences(names) then FirstOccurrences(names) else FirstOccurrences(names) + [name]
  {
    assert (names + [name])[..|names|] == names;
  }

  /** `parseVariableReferences` */
  method ParseVariableReferences(text: string) returns (matches: seq<string>)
    ensures matches == FirstOccurrences(References(text, 0))
  {
    matches := [];
    var i, n := 0, NextToken(text, 0);
    ghost var seen: seq<string> := [];
    while n < |text|
      invariant i <= |text| && n == NextToken(text, i)
      invariant References(text, 0) == seen + References(text, i)
      invariant matches == FirstOccurrences(seen)
      decreases |text| - i
    {
      var name := NameAt(text, n);
      if name !in matches {
        matches := matches + [name];
      }
      FirstOccurrencesPush(seen, name);
      TakeReference(text, i, seen);
      seen := seen + [name];
      i := TokenEnd(text, n);
      n := NextToken(text, i);
    }
    assert seen + [] == seen;
  }

  lemma TakeReference(text: string, i: nat, seen: seq<string>)
    requires i <= |text| && NextToken(text, i) < |text|
    ensures var n := NextToken(text, i);
            seen + References(text, i) == seen + [NameAt(text, n)] + References(text, TokenEnd(text, n))
  {
    var n := NextToken(text, i);
    var rest := References(text, TokenEnd(text, n));
    assert seen + ([NameAt(text, n)] + rest) == seen + [NameAt(text, n)] + rest;
  }

  function FirstIndex(names: seq<string>, name: string): (k: nat)
    ensures k <= |names| && name !in names[..k] && (k < |names| ==> names[k] == name)
  {
    if names == [] || names[0] == name then 0
    else
      var k := FirstIndex(names[1..], name);
      assert names[..k + 1] == [names[0]] + names[1..][..k];
      k + 1
  }

  lemma FirstIndexStays(names: seq<string>, last: string, name: string)
    requires name in names
    ensures FirstIndex(names + [last], name) == FirstIndex(names, name) < |names|
  {
    var k := FirstIndex(names, name);
    assert names[..|names|] == names && (names + [last])[..k] == names[..k];
    FirstIndexIs(names + [last], name, k);
  }

  lemma NewNameIsLast(names: seq<string>, last: string)
    requires last !in names
    ensures FirstIndex(names + [last], last) == |names|
  {
    assert (names + [last])[..|names|] == names;
    FirstIndexIs(names + [last], last, |names|);
  }

  lemma {:induction false} FirstIndexIs(names: seq<string>, name: string, k: nat)
    requires k < |names| && names[k] == name && name !in names[..k]
    ensures FirstIndex(names, name) == k
  {
    if k > 0 {
      assert names[0] == names[..k][0] && forall x :: x in names[1..][..k - 1] ==> x in names[..k];
      FirstIndexIs(names[1..], name, k - 1);
    }
  }

  /** First occurrences: every name once, in the order in which the names first occur. */
  lemma {:induction false} FirstOccurrencesAreFirst(names: seq<string>)
    ensures var r := FirstOccurrences(names);
            && (forall name :: name in r <==> name in names)
            && (forall i, j :: 0 <= i < j < |r| ==> FirstIndex(names, r[i]) < FirstIndex(names, r[j]))
  {
    if names != [] {
      var n := |names| - 1;
      var front, last := names[..n], names[n];
      FirstOccurrencesAreFirst(front);
      assert names == front + [last];
      var r, before := FirstOccurrences(names), FirstOccurrences(front);
      forall i, j | 0 <= i < j < |r|
        ensures FirstIndex(names, r[i]) < FirstIndex(names, r[j])
      {
        FirstIndexStays(front, last, r[i]);
        if j < |before| { FirstIndexStays(front, last, r[j]); } else { NewNameIsLast(front, last); }
      }
    }
  }

  /** The scanning loop of `textToHtml`. */
  method Split(text: string) returns (pieces: seq<Piece>)
    ensures pieces == Pieces(text, 0)
  {
    pieces := [];
    var lastIndex, n := 0, NextToken(text, 0);
    while n < |text|
      invariant lastIndex <= |text| && n == NextToken(text, lastIndex)
      invariant Pieces(text, 0) == pieces + Pieces(text, lastIndex)
      decreases |text| - lastIndex
    {
      TakePieces(text, lastIndex, pieces);
      if n > lastIndex {
        pieces := pieces + [Gap(text[lastIndex..n])];
      }
      pieces := pieces + [Token(NameAt(text, n))];
      lastIndex := TokenEnd(text, n);
      n := NextToken(text, lastIndex);
    }
    LastPieces(text, lastIndex, pieces);
    if lastIndex < |text| {
      pieces := pieces + [Gap(text[lastIndex..])];
    }
  }

  lemma LastPieces(text: string, i: nat, taken: seq<Piece>)
    requires i <= |text| && NextToken(text, i) == |text|
    ensures taken + Pieces(text, i) == if i < |text| then taken + [Gap(text[i..])] else taken
  {
    assert text[i..|text|] == text[i..];
  }

  lemma TakePieces(text: string, i: nat, taken: seq<Piece>)
    requires i <= |text| && NextToken(text, i) < |text|
    ensures var n := NextToken(text, i);
            var head := if n > i then taken + [Gap(text[i..n])] else taken;
            taken + Pieces(text, i) == head + [Token(NameAt(text, n))] + Pieces(text, TokenEnd(text, n))
  {
    var n := NextToken(text, i);
    var head, rest := if n > i then [Gap(text[i..n])] else [], Pieces(text, TokenEnd(text, n));
    var token := [Token(NameAt(text, n))];
    assert taken + (head + (token + rest)) == taken + head + token + rest;
    assert n == i ==> taken + head == taken;
  }

  // ---------------------------------------------------------------- documents

  /** A text node, an element (with its `data-variable`, empty for none), or anything else. */
  datatype Node = Text(data: string) | Element(tag: string, variable: string, children: seq<Node>) | Other

  const ZERO_WIDTH := '\U{200B}'
  const LINE_BREAK := Element("BR", "", [])
  const BLOCK_ELEMENTS := {"DIV", "P", "H1", "H2", "H3", "H4", "H5", "H6", "LI", "PRE"}

  /** The text without zero-width spaces. */
  function Visible(s: string): string {
    if s == "" then "" else (if s[0] == ZERO_WIDTH then "" else [s[0]]) + Visible(s[1..])
  }

  /** The text read so far, and one more node. */
  function Appended(sofar: string, node: Node): string
    decreases node, 0
  {
    match node
    case Text(data) => sofar + Visible(data)
    case Other => sofar
    case Element(tag, variable, children) =>
      if variable != "" then sofar + "{{" + variable + "}}"
      else if tag == "BR" then sofar + "\n"
      else
        var block := tag in BLOCK_ELEMENTS;
        var start := if block && sofar != "" && !EndsLine(sofar) then sofar + "\n" else sofar;
        var inner := Read("", children);
        if inner == "" && block then start + "\n" else start + inner
  }

  function Read(sofar: string, nodes: seq<Node>): string
    decreases nodes, 1
  {
    if nodes == [] then sofar
    else Appended(Read(sofar, nodes[..|nodes| - 1]), nodes[|nodes| - 1])
  }

  function Joined(parts: seq<string>): string {
    if parts == [] then "" else Joined(parts[..|parts| - 1]) + parts[|parts| - 1]
  }

  ghost predicate PartsOf(parts: seq<string>, text: string) {
    && Joined(parts) == text
    && (forall i :: 0 <= i < |parts| ==> parts[i] != "")
  }

  lemma PartsPush(parts: seq<string>, text: string, more: string)
    requires PartsOf(parts, text)
    ensures PartsOf(if more == "" then parts else parts + [more], text + more)
  {
    if more == "" {
      assert text + more == text;
    } else {
      assert (parts + [more])[..|parts|] == parts;
    }
  }

  /** Whether there are parts, and whether the last one ends a line, shows in the text. */
  lemma LastPart(parts: seq<string>, text: string)
    requires PartsOf(parts, text)
    ensures parts == [] <==> text == ""
    ensures parts != [] ==> parts[|parts| - 1][|parts[|parts| - 1]| - 1] == text[|text| - 1]
  {
  }

  /** `appendText` */
  method AppendText(parts: seq<string>, more: string, ghost sofar: string) returns (r: seq<string>)
    requires PartsOf(parts, sofar)
    ensures PartsOf(r, sofar + more)
  {
    PartsPush(parts, sofar, more);
    r := if more == "" then parts else parts + [more];
  }

  predicate EndsLine(s: string) {
    s != "" && s[|s| - 1] == '\n'
  }

  /** The line break that a block element starts with, unless it is first or on a fresh line. */
  method StartBlock(parts: seq<string>, block: bool, ghost sofar: string) returns (r: seq<string>)
    requires PartsOf(parts, sofar)
    ensures PartsOf(r, if block && sofar != "" && !EndsLine(sofar) then sofar + "\n" else sofar)
  {
    LastPart(parts, sofar);
    r := parts;
    if block && parts != [] && !EndsLine(parts[|parts| - 1]) {
      r := AppendText(parts, "\n", sofar);
    }
  }

  /** What `htmlToText` does with one child node. */
  method ReadNode(parts: seq<string>, node: Node, ghost sofar: string) returns (r: seq<string>)
    requires PartsOf(parts, sofar)
    ensures PartsOf(r, Appended(sofar, node))
    decreases node, 0
  {
    match node {
      case Other =>
        r := parts;
      case Text(data) =>
        r := AppendText(parts, Visible(data), sofar);
      case Element(tag, variable, children) =>
        if variable != "" {
          assert sofar + "{{" + variable + "}}" == sofar + ("{{" + variable + "}}");
          r := AppendText(parts, "{{" + variable + "}}", sofar);
        } else if tag == "BR" {
          r := AppendText(parts, "\n", sofar);
        } else {
          var block := tag in BLOCK_ELEMENTS;
          ghost var start := if block && sofar != "" && !EndsLine(sofar) then sofar + "\n" else sofar;
          r := StartBlock(parts, block, sofar);
          var childText := HtmlToText(children);
          if childText == "" && block {
            r := AppendText(r, "\n", start);
          } else {
            r := AppendText(r, childText, start);
          }
        }
    }
  }

  /** `htmlToText` */
  method HtmlToText(nodes: seq<Node>) returns (r: string)
    ensures r == Read("", nodes)
    decreases nodes, 1
  {
    var parts: seq<string> := [];
    for i := 0 to |nodes|
      invariant PartsOf(parts, Read("", nodes[..i]))
    {
      assert nodes[..i + 1][..i] == nodes[..i];
      parts := ReadNode(parts, nodes[i], Read("", nodes[..i]));
    }
    assert nodes[..|nodes|] == nodes;
    r := Joined(parts);
  }

  // ---------------------------------------------------------------- escaping

  function Replaced(s: string, c: char, escape: string): string {
    if s == "" then "" else (if s[0] == c then escape else [s[0]]) + Replaced(s[1..], c, escape)
  }

  /** `escapeHtml`: one global replacement after the other. */
  function EscapeHtml(text: string): string {
    Replaced(Replaced(Replaced(Replaced(Replaced(Replaced(text, '&', "&amp;"), '<', "&lt;"), '>', "&gt;"),
                               '"', "&quot;"), '\'', "&#x27;"), '\n', "<br>")
  }

  function EscapeChar(c: char): string {
    match c
    case '&' => "&amp;"
    case '<' => "&lt;"
    case '>' => "&gt;"
    case '"' => "&quot;"
    case '\'' => "&#x27;"
    case '\n' => "<br>"
    case _ => [c]
  }

  function EscapeEach(text: string): string {
    if text == "" then "" else EscapeChar(text[0]) + EscapeEach(text[1..])
  }

  lemma {:induction false} ReplacedAppend(a: string, b: string, c: char, escape: string)
    ensures Replaced(a + b, c, escape) == Replaced(a, c, escape) + Replaced(b, c, escape)
  {
    if a == "" {
      assert a + b == b;
    } else {
      assert (a + b)[1..] == a[1..] + b;
      ReplacedAppend(a[1..], b, c, escape);
    }
  }

  lemma {:induction false} ReplacedAbsent(s: string, c: char, escape: string)
    requires c !in s
    ensures Replaced(s, c, escape) == s
  {
    if s != "" { ReplacedAbsent(s[1..], c, escape); }
  }

  /** The first `n` replacements, in the order in which the editor makes them. */
  function Escaped(text: string, n: nat): string
    requires n <= 6
  {
    if n == 0 then text
    else Replaced(Escaped(text, n - 1), SPECIAL[n - 1], EscapeChar(SPECIAL[n - 1]))
  }

  const SPECIAL := "&<>\"'\n"

  lemma {:induction false} EscapedAppend(a: string, b: string, n: nat)
    requires n <= 6
    ensures Escaped(a + b, n) == Escaped(a, n) + Escaped(b, n)
  {
    if n > 0 {
      EscapedAppend(a, b, n - 1);
      ReplacedAppend(Escaped(a, n - 1), Escaped(b, n - 1), SPECIAL[n - 1], EscapeChar(SPECIAL[n - 1]));
    }
  }

  /** A character is replaced once, when its turn comes, and what replaces it is left alone. */
  lemma {:induction false} EscapedChar(c: char, n: nat)
    requires n <= 6
    ensures Escaped([c], n) == if c in SPECIAL[..n] then EscapeChar(c) else [c]
  {
    if n > 0 {
      EscapedChar(c, n - 1);
      var special := SPECIAL[n - 1];
      assert SPECIAL[..n] == SPECIAL[..n - 1] + [special];
      if c in SPECIAL[..n - 1] {
        LaterNotIn(c, n - 1);
        ReplacedAbsent(EscapeChar(c), special, EscapeChar(special));
      } else if c == special {
        assert [c][1..] == "" && Replaced([c][1..], c, EscapeChar(c)) == "";
        assert EscapeChar(c) + "" == EscapeChar(c);
      } else {
        ReplacedAbsent([c], special, EscapeChar(special));
      }
    }
  }

  lemma LaterNotIn(c: char, n: nat)
    requires n < 6 && c in SPECIAL[..n]
    ensures SPECIAL[n] !in EscapeChar(c)
  {
    assert SPECIAL == ['&', '<', '>', '"', '\'', '\n'];
  }

  /** The six replacements, in their order, escape every character once. */
  lemma {:induction false} EscapingIsPerCharacter(text: string)
    ensures EscapeHtml(text) == EscapeEach(text)
  {
    EscapeHtmlIsEscaped(text);
    EscapedEach(text);
  }

  lemma EscapeHtmlIsEscaped(text: string)
    ensures EscapeHtml(text) == Escaped(text, 6)
  {
    assert SPECIAL == ['&', '<', '>', '"', '\'', '\n'];
    var one := Escaped(text, 1);
    assert one == Replaced(text, '&', "&amp;") by { assert Escaped(text, 0) == text; }
    var two := Escaped(text, 2);
    assert two == Replaced(one, '<', "&lt;");
    var three := Escaped(text, 3);
    assert three == Replaced(two, '>', "&gt;");
    var four := Escaped(text, 4);
    assert four == Replaced(three, '"', "&quot;");
    var five := Escaped(text, 5);
    assert five == Replaced(four, '\'', "&#x27;");
    assert Escaped(text, 6) == Replaced(five, '\n', "<br>");
  }

  lemma EscapedOne(c: char)
    ensures Escaped([c], 6) == EscapeChar(c)
  {
    EscapedChar(c, 6);
    assert SPECIAL[..6] == SPECIAL == ['&', '<', '>', '"', '\'', '\n'];
  }

  lemma {:induction false} EscapedEach(text: string)
    ensures Escaped(text, 6) == EscapeEach(text)
  {
    if text == "" {
      EscapedEmpty(6);
    } else {
      assert text == [text[0]] + text[1..];
      EscapedAppend([text[0]], text[1..], 6);
      EscapedEach(text[1..]);
      EscapedOne(text[0]);
    }
  }

  lemma {:induction false} EscapedEmpty(n: nat)
    requires n <= 6
    ensures Escaped("", n) == ""
  {
    if n > 0 { EscapedEmpty(n - 1); }
  }

  /** Names of variables need no escaping, so the attribute carries the name itself. */
  lemma {:induction false} WordsAreNotEscaped(name: string)
    requires forall k :: 0 <= k < |name| ==> IsWord(name[k])
    ensures EscapeHtml(name) == name
  {
    EscapingIsPerCharacter(name);
    WordsStay(name);
  }

  lemma {:induction false} WordsStay(name: string)
    requires forall k :: 0 <= k < |name| ==> IsWord(name[k])
    ensures EscapeEach(name) == name
  {
    if name != "" { WordsStay(name[1..]); }
  }

  // ---------------------------------------------------------------- rendering

  /** Nodes after nodes; adjacent text is one text node. */
  function Concatenated(a: seq<Node>, b: seq<Node>): seq<Node> {
    if a != [] && b != [] && a[|a| - 1].Text? && b[0].Text? then
      a[..|a| - 1] + [Text(a[|a| - 1].data + b[0].data)] + b[1..]
    else a + b
  }

  function WithChar(c: char, nodes: seq<Node>): seq<Node> {
    Concatenated([Text([c])], nodes)
  }

  /** The document of escaped text: character references stand for their characters. */
  function Markup(html: string): seq<Node> {
    if html == "" then []
    else if "<br>" <= html then [LINE_BREAK] + Markup(html[4..])
    else if "&amp;" <= html then WithChar('&', Markup(html[5..]))
    else if "&lt;" <= html then WithChar('<', Markup(html[4..]))
    else if "&gt;" <= html then WithChar('>', Markup(html[4..]))
    else if "&quot;" <= html then WithChar('"', Markup(html[6..]))
    else if "&#x27;" <= html then WithChar('\'', Markup(html[6..]))
    else WithChar(html[0], Markup(html[1..]))
  }

  /** The document a plain text means: its lines, with line breaks between them. */
  function Lines(text: string): seq<Node> {
    if text == "" then []
    else if text[0] == '\n' then [LINE_BREAK] + Lines(text[1..])
    else WithChar(text[0], Lines(text[1..]))
  }

  /** Escaped text is read as the text it came from. */
  lemma {:induction false} EscapedTextIsRead(text: string)
    ensures Markup(EscapeHtml(text)) == Lines(text)
  {
    EscapingIsPerCharacter(text);
    MarkupOfEach(text);
  }

  lemma {:induction false} MarkupOfEach(text: string)
    ensures Markup(EscapeEach(text)) == Lines(text)
  {
    if text != "" {
      MarkupOfEach(text[1..]);
      MarkupOfOne(text[0], EscapeEach(text[1..]));
    }
  }

  predicate IsEscape(s: string) {
    s == "<br>" || s == "&amp;" || s == "&lt;" || s == "&gt;" || s == "&quot;" || s == "&#x27;"
  }

  /** An escape is recognised, whatever follows it. */
  lemma Recognised(escape: string, rest: string)
    requires IsEscape(escape)
    ensures (escape + rest)[|escape|..] == rest && escape <= escape + rest
    ensures forall other :: IsEscape(other) && other != escape ==> !(other <= escape + rest)
  {
    var html := escape + rest;
    forall other | IsEscape(other) && other != escape
      ensures !(other <= html)
    {
      assert other[0] != html[0] || other[1] != html[1];
    }
  }

  lemma PlainChar(c: char, rest: string)
    requires c != '<' && c != '&'
    ensures ([c] + rest)[1..] == rest
    ensures forall other :: IsEscape(other) ==> !(other <= [c] + rest)
  {
    var html := [c] + rest;
    forall other | IsEscape(other)
      ensures !(other <= html)
    {
      assert other[0] != html[0];
    }
  }

  lemma MarkupOfSpecial(c: char, rest: string)
    requires c in SPECIAL
    ensures Markup(EscapeChar(c) + rest) == if c == '\n' then [LINE_BREAK] + Markup(rest) else WithChar(c, Markup(rest))
  {
    assert SPECIAL == ['&', '<', '>', '"', '\'', '\n'];
    assert IsEscape("<br>") && IsEscape("&amp;") && IsEscape("&lt;") && IsEscape("&gt;") && IsEscape("&quot;") && IsEscape("&#x27;");
    Recognised(EscapeChar(c), rest);
  }

  lemma MarkupOfPlain(c: char, rest: string)
    requires c !in SPECIAL
    ensures EscapeChar(c) == [c] && Markup([c] + rest) == WithChar(c, Markup(rest))
  {
    assert SPECIAL == ['&', '<', '>', '"', '\'', '\n'];
    assert IsEscape("<br>") && IsEscape("&amp;") && IsEscape("&lt;") && IsEscape("&gt;") && IsEscape("&quot;") && IsEscape("&#x27;");
    PlainChar(c, rest);
  }

  lemma MarkupOfOne(c: char, rest: string)
    ensures Markup(EscapeChar(c) + rest) == if c == '\n' then [LINE_BREAK] + Markup(rest) else WithChar(c, Markup(rest))
  {
    if c in SPECIAL { MarkupOfSpecial(c, rest); } else { MarkupOfPlain(c, rest); }
  }

  /** What is known of a variable: its name and its label, either possibly empty. */
  type Variables = map<string, (string, string)>

  /** The tag of a variable between two zero-width spaces; what it shows depends on the variable. */
  function Tag(name: string, variables: Variables): seq<Node> {
    var shown := if name in variables && variables[name].0 != "" then variables[name].0 else name;
    var note := if name in variables then variables[name].1 else "";
    [Text([ZERO_WIDTH]),
     Element("SPAN", name, [Element("SPAN", "", [Text("{x}")]), Element("SPAN", "", Markup(EscapeHtml(shown)))]
                           + (if note == "" then [] else [Element("SPAN", "", Markup(EscapeHtml(note)))])),
     Text([ZERO_WIDTH])]
  }

  function NodesOf(piece: Piece, variables: Variables): seq<Node> {
    if piece.Gap? then Markup(EscapeHtml(piece.text)) else Tag(piece.name, variables)
  }

  /** The document that `textToHtml` describes. */
  function Document(pieces: seq<Piece>, variables: Variables): seq<Node> {
    if pieces == [] then [] else Concatenated(NodesOf(pieces[0], variables), Document(pieces[1..], variables))
  }

  // ---------------------------------------------------------------- reading back

  lemma {:induction false} VisibleAppend(a: string, b: string)
    ensures Visible(a + b) == Visible(a) + Visible(b)
  {
    if a == "" {
      assert a + b == b;
    } else {
      assert (a + b)[1..] == a[1..] + b;
      VisibleAppend(a[1..], b);
    }
  }

  lemma {:induction false} VisibleAlready(s: string)
    ensures |Visible(s)| <= |s|
    ensures Visible(s) == s <==> ZERO_WIDTH !in s
  {
    if s != "" { VisibleAlready(s[1..]); }
  }

  lemma {:induction false} ReadAppend(sofar: string, a: seq<Node>, b: seq<Node>)
    ensures Read(sofar, a + b) == Read(Read(sofar, a), b)
  {
    if b == [] {
      assert a + b == a;
    } else {
      var n := |b| - 1;
      assert (a + b)[..|a| + n] == a + b[..n];
      ReadAppend(sofar, a, b[..n]);
    }
  }

  lemma ReadOne(sofar: string, node: Node)
    ensures Read(sofar, [node]) == Appended(sofar, node)
  {
    assert [node][..0] == [];
  }

  lemma ReadTwoTexts(sofar: string, x: string, y: string)
    ensures Appended(sofar, Text(x + y)) == Appended(Appended(sofar, Text(x)), Text(y))
  {
    VisibleAppend(x, y);
    Regroup(sofar, Visible(x), Visible(y));
  }

  lemma ReadMergedText(sofar: string, front: seq<Node>, x: string, y: string, back: seq<Node>)
    ensures Read(sofar, front + [Text(x + y)] + back) == Read(Read(sofar, front + [Text(x)]), [Text(y)] + back)
  {
    var before := Read(sofar, front);
    ReadAppend(sofar, front + [Text(x + y)], back);
    ReadAppend(sofar, front, [Text(x + y)]);
    ReadAppend(sofar, front, [Text(x)]);
    ReadAppend(Read(sofar, front + [Text(x)]), [Text(y)], back);
    ReadOne(before, Text(x + y));
    ReadOne(before, Text(x));
    ReadOne(Appended(before, Text(x)), Text(y));
    ReadTwoTexts(before, x, y);
  }

  /** Where text nodes are split does not matter. */
  lemma ReadConcatenated(sofar: string, a: seq<Node>, b: seq<Node>)
    ensures Read(sofar, Concatenated(a, b)) == Read(Read(sofar, a), b)
  {
    if a != [] && b != [] && a[|a| - 1].Text? && b[0].Text? {
      assert a == a[..|a| - 1] + [Text(a[|a| - 1].data)] && b == [Text(b[0].data)] + b[1..];
      ReadMergedText(sofar, a[..|a| - 1], a[|a| - 1].data, b[0].data, b[1..]);
    } else {
      ReadAppend(sofar, a, b);
    }
  }

  lemma VisiblePush(c: char, text: string)
    ensures Visible([c] + text) == Visible([c]) + Visible(text)
    ensures Visible([c]) == if c == ZERO_WIDTH then "" else [c]
  {
    VisibleAppend([c], text);
    assert [c][1..] == "";
  }

  /** The first character of a text, read before the rest. */
  lemma ReadFirst(sofar: string, c: char, nodes: seq<Node>)
    ensures Read(sofar, if c == '\n' then [LINE_BREAK] + nodes else WithChar(c, nodes)) == Read(sofar + Visible([c]), nodes)
  {
    VisiblePush(c, "");
    if c == '\n' {
      ReadAppend(sofar, [LINE_BREAK], nodes);
      ReadOne(sofar, LINE_BREAK);
    } else {
      ReadConcatenated(sofar, [Text([c])], nodes);
      ReadOne(sofar, Text([c]));
    }
  }

  lemma {:induction false} ReadLines(sofar: string, text: string)
    ensures Read(sofar, Lines(text)) == sofar + Visible(text)
    decreases |text|
  {
    if text != "" {
      var c, rest := text[0], text[1..];
      ReadFirst(sofar, c, Lines(rest));
      ReadLines(sofar + Visible([c]), rest);
      assert text == [c] + rest;
      VisiblePush(c, rest);
      Regroup(sofar, Visible([c]), Visible(rest));
    }
  }

  lemma ReadTag(sofar: string, name: string, variables: Variables)
    requires name != ""
    ensures Read(sofar, Tag(name, variables)) == sofar + "{{" + name + "}}"
  {
    var tag := Tag(name, variables);
    assert tag == [tag[0]] + [tag[1]] + [tag[2]];
    ReadAppend(sofar, [tag[0]] + [tag[1]], [tag[2]]);
    ReadAppend(sofar, [tag[0]], [tag[1]]);
    ReadOne(sofar, tag[0]);
    ReadOne(sofar, tag[1]);
    ReadOne(sofar + "{{" + name + "}}", tag[2]);
    assert [ZERO_WIDTH][1..] == "" && Visible([ZERO_WIDTH]) == "" by { assert Visible("") == ""; }
    assert sofar + "" == sofar;
  }

  lemma WordsAreVisible(name: string)
    requires forall k :: 0 <= k < |name| ==> IsWord(name[k])
    ensures Visible("{{" + name + "}}") == "{{" + name + "}}"
  {
    VisibleAlready(name);
    VisibleAlready("{{");
    VisibleAlready("}}");
    VisibleAppend("{{", name);
    VisibleAppend("{{" + name, "}}");
  }

  lemma ReadPiece(sofar: string, piece: Piece, variables: Variables)
    requires PieceOk(piece)
    ensures Read(sofar, NodesOf(piece, variables)) == sofar + Visible(piece.Source())
  {
    if piece.Gap? {
      EscapedTextIsRead(piece.text);
      ReadLines(sofar, piece.text);
    } else {
      ReadTag(sofar, piece.name, variables);
      WordsAreVisible(piece.name);
      Regroup(sofar, "{{", piece.name);
      Regroup(sofar, "{{" + piece.name, "}}");
    }
  }

  lemma {:induction false} ReadDocument(sofar: string, pieces: seq<Piece>, variables: Variables)
    requires forall p :: 0 <= p < |pieces| ==> PieceOk(pieces[p])
    ensures Read(sofar, Document(pieces, variables)) == sofar + Visible(Sources(pieces))
    decreases |pieces|
  {
    if pieces == [] {
      assert sofar + "" == sofar;
    } else {
      var source, rest := pieces[0].Source(), pieces[1..];
      ReadConcatenated(sofar, NodesOf(pieces[0], variables), Document(rest, variables));
      ReadPiece(sofar, pieces[0], variables);
      ReadDocument(sofar + Visible(source), rest, variables);
      VisibleAppend(source, Sources(rest));
      Regroup(sofar, Visible(source), Visible(Sources(rest)));
    }
  }

  /** For every text and every variable map, reading back the document of a text gives the text
      without its zero-width spaces: the text itself exactly if it has none. */
  lemma TextSurvives(text: string, variables: Variables)
    ensures Read("", Document(Pieces(text, 0), variables)) == Visible(text)
    ensures Read("", Document(Pieces(text, 0), variables)) == text <==> ZERO_WIDTH !in text
  {
    PiecesPartition(text, 0);
    PiecesAreTokensAndGaps(text, 0);
    ReadDocument("", Pieces(text, 0), variables);
    VisibleAlready(text);
    assert text[0..] == text;
  }
}
