/** Caret positions and the text that is read from the same document: a position is an index into the
    text, as long as no block element adds a line break.
  */
module CaretText {
  import opened Options
  import opened PromptEditor
  import opened Caret

  // ---------------------------------------------------------------- lengths

  /** The line breaks that block elements add to the text, which are no caret positions. */
  function LinesAdded(sofar: string, node: Node): nat
    decreases node, 0
  {
    if !node.Element? || node.variable != "" || node.tag == "BR" then 0
    else
      var block := node.tag in BLOCK_ELEMENTS;
      (if block && sofar != "" && !EndsLine(sofar) then 1 else 0)
      + (if block && Read("", node.children) == "" then 1 else 0)
      + AllLinesAdded("", node.children)
  }

  function AllLinesAdded(sofar: string, nodes: seq<Node>): nat
    decreases nodes, 1
  {
    if nodes == [] then 0
    else
      var n := |nodes| - 1;
      AllLinesAdded(sofar, nodes[..n]) + LinesAdded(Read(sofar, nodes[..n]), nodes[n])
  }

  /** The text of any document is as long as it has caret positions and added line breaks. */
  lemma {:induction false} TextTakesWidth(sofar: string, nodes: seq<Node>)
    ensures |Read(sofar, nodes)| == |sofar| + WidthOf(nodes) + AllLinesAdded(sofar, nodes)
    decreases nodes, 1
  {
    if nodes != [] {
      var n := |nodes| - 1;
      TextTakesWidth(sofar, nodes[..n]);
      NodeTakesWidth(Read(sofar, nodes[..n]), nodes[n]);
    }
  }

  lemma {:induction false} NodeTakesWidth(sofar: string, node: Node)
    ensures |Appended(sofar, node)| == |sofar| + Width(node) + LinesAdded(sofar, node)
    decreases node, 0
  {
    if node.Element? && node.variable == "" && node.tag != "BR" { TextTakesWidth("", node.children); }
  }

  // ---------------------------------------------------------------- documents without blocks

  predicate Inline(node: Node)
    decreases node, 0
  {
    node.Element? && node.variable == "" && node.tag != "BR" ==> node.tag !in BLOCK_ELEMENTS && AllInline(node.children)
  }

  predicate AllInline(nodes: seq<Node>)
    decreases nodes, 1
  {
    nodes == [] || (AllInline(nodes[..|nodes| - 1]) && Inline(nodes[|nodes| - 1]))
  }

  lemma {:induction false} InlineAddsNoLines(sofar: string, nodes: seq<Node>)
    requires AllInline(nodes)
    ensures AllLinesAdded(sofar, nodes) == 0
    decreases nodes, 1
  {
    if nodes != [] {
      var n := |nodes| - 1;
      InlineAddsNoLines(sofar, nodes[..n]);
      if nodes[n].Element? && nodes[n].variable == "" && nodes[n].tag != "BR" { InlineAddsNoLines("", nodes[n].children); }
    }
  }

  /** What inline nodes add to the text does not depend on what was read before. */
  lemma InlineAppends(sofar: string, node: Node)
    requires Inline(node)
    ensures Appended(sofar, node) == sofar + Appended("", node)
  {
  }

  lemma {:induction false} InlineReads(sofar: string, nodes: seq<Node>)
    requires AllInline(nodes)
    ensures Read(sofar, nodes) == sofar + Read("", nodes)
  {
    if nodes != [] {
      var n := |nodes| - 1;
      InlineReads(sofar, nodes[..n]);
      InlineAppends(Read(sofar, nodes[..n]), nodes[n]);
      InlineAppends(Read("", nodes[..n]), nodes[n]);
      assert sofar + Read("", nodes[..n]) + Appended("", nodes[n]) == sofar + (Read("", nodes[..n]) + Appended("", nodes[n]));
    }
  }

  lemma {:induction false} InlineAt(nodes: seq<Node>, k: nat)
    requires AllInline(nodes) && k < |nodes|
    ensures Inline(nodes[k]) && AllInline(nodes[..k]) && AllInline(nodes[k + 1..])
  {
    var n := |nodes| - 1;
    if k < n {
      InlineAt(nodes[..n], k);
      assert nodes[..n][..k] == nodes[..k];
      assert nodes[k + 1..][..n - k - 1] == nodes[..n][k + 1..];
    } else {
      assert nodes[k + 1..] == [];
    }
  }

  // ---------------------------------------------------------------- the text before the caret

  /** The path leads to a text node, through elements the traversal goes into. */
  predicate PlainAt(nodes: seq<Node>, path: Path)
    decreases |path|
  {
    && path != [] && path[0] < |nodes|
    && var node := nodes[path[0]];
       if |path| == 1 then node.Text?
       else node.Element? && node.variable == "" && node.tag != "BR" && PlainAt(node.children, path[1..])
  }

  lemma {:induction false} PlainIsText(nodes: seq<Node>, path: Path)
    requires PlainAt(nodes, path)
    ensures TextAt(nodes, path)
    decreases |path|
  {
    if |path| > 1 { PlainIsText(nodes[path[0]].children, path[1..]); }
  }

  function PlainData(nodes: seq<Node>, path: Path): string
    requires PlainAt(nodes, path)
    decreases |path|
  {
    if |path| == 1 then nodes[path[0]].data else PlainData(nodes[path[0]].children, path[1..])
  }

  /** The document up to the caret: what comes after it is gone. */
  function Cut(nodes: seq<Node>, path: Path, offset: nat): seq<Node>
    requires PlainAt(nodes, path) && offset <= |PlainData(nodes, path)|
    decreases |path|
  {
    var node := nodes[path[0]];
    nodes[..path[0]]
    + [if |path| == 1 then Text(node.data[..offset]) else node.(children := Cut(node.children, path[1..], offset))]
  }

  lemma {:induction false} CutIsInline(nodes: seq<Node>, path: Path, offset: nat)
    requires PlainAt(nodes, path) && offset <= |PlainData(nodes, path)| && AllInline(nodes)
    ensures AllInline(Cut(nodes, path, offset))
    decreases |path|
  {
    InlineAt(nodes, path[0]);
    if |path| > 1 { CutIsInline(nodes[path[0]].children, path[1..], offset); }
    var cut := Cut(nodes, path, offset);
    assert cut[..|cut| - 1] == nodes[..path[0]];
  }

  lemma VisiblePrefix(data: string, n: nat)
    requires n <= |data|
    ensures Visible(data[..n]) <= Visible(data) && |Visible(data[..n])| <= n
  {
    VisibleAppend(data[..n], data[n..]);
    assert data[..n] + data[n..] == data;
    VisibleAlready(data[..n]);
  }

  /** The text before the caret starts the whole text. */
  lemma {:induction false} CutReadsPrefix(nodes: seq<Node>, path: Path, offset: nat)
    requires PlainAt(nodes, path) && offset <= |PlainData(nodes, path)| && AllInline(nodes)
    ensures Read("", Cut(nodes, path, offset)) <= Read("", nodes)
    decreases |path|
  {
    var k := path[0];
    InlineAt(nodes, k);
    if |path| == 1 {
      VisiblePrefix(nodes[k].data, offset);
      LongerAt(nodes, k, Text(nodes[k].data[..offset]));
    } else {
      var cut := Cut(nodes[k].children, path[1..], offset);
      CutIsInline(nodes[k].children, path[1..], offset);
      CutReadsPrefix(nodes[k].children, path[1..], offset);
      SameShell(nodes[k], cut);
      LongerAt(nodes, k, nodes[k].(children := cut));
    }
  }

  lemma SameShell(node: Node, cut: seq<Node>)
    requires node.Element? && node.variable == "" && node.tag != "BR" && Inline(node)
    requires AllInline(cut) && Read("", cut) <= Read("", node.children)
    ensures Inline(node.(children := cut)) && Appended("", node.(children := cut)) <= Appended("", node)
  {
  }

  lemma LongerAt(nodes: seq<Node>, k: nat, piece: Node)
    requires k < |nodes| && AllInline(nodes) && Inline(piece) && Appended("", piece) <= Appended("", nodes[k])
    ensures Read("", nodes[..k] + [piece]) <= Read("", nodes)
  {
    InlineAt(nodes, k);
    LongerRead(nodes[..k], piece, nodes[k], nodes[k + 1..]);
    assert nodes == nodes[..k] + [nodes[k]] + nodes[k + 1..];
  }

  lemma LongerRead(front: seq<Node>, piece: Node, node: Node, rest: seq<Node>)
    requires Inline(piece) && Inline(node) && AllInline(rest) && Appended("", piece) <= Appended("", node)
    ensures Read("", front + [piece]) <= Read("", front + [node] + rest)
  {
    var before := Read("", front);
    ReadAppend("", front, [piece]);
    ReadAppend("", front, [node]);
    ReadOne(before, piece);
    ReadOne(before, node);
    InlineAppends(before, piece);
    InlineAppends(before, node);
    ReadAppend("", front + [node], rest);
    InlineReads(before + Appended("", node), rest);
  }

  /** Where the traversal finds a caret in a text node: at the length of the text before it, and as many
      positions further as there are zero-width spaces before it in its node. */
  lemma {:induction false} SoughtInText(nodes: seq<Node>, parent: Path, path: Path, offset: nat)
    requires PlainAt(nodes, path) && offset <= |PlainData(nodes, path)| && AllInline(nodes)
    ensures SeekIn(nodes, parent, Range(parent + path, offset))
            == Some(|Read("", Cut(nodes, path, offset))| + (offset - |Visible(PlainData(nodes, path)[..offset])|))
    decreases |path|
  {
    var k := path[0];
    InlineAt(nodes, k);
    PathJoins(parent, path);
    if |path| == 1 {
      SoughtInLeaf(nodes, parent, Range(parent + path, offset), k, offset);
    } else {
      var cut := Cut(nodes[k].children, path[1..], offset);
      CutIsInline(nodes[k].children, path[1..], offset);
      SoughtInText(nodes[k].children, parent + [k], path[1..], offset);
      SoughtInElement(nodes, parent, Range(parent + path, offset), k, cut, offset - |Visible(PlainData(nodes, path)[..offset])|);
    }
  }

  lemma PathJoins(parent: Path, path: Path)
    requires path != []
    ensures parent + [path[0]] + path[1..] == parent + path && parent + [path[0]] <= parent + path
    ensures parent + path == parent + [path[0]] <==> |path| == 1
  {
  }

  lemma SoughtInLeaf(nodes: seq<Node>, parent: Path, caret: Range, k: nat, offset: nat)
    requires k < |nodes| && nodes[k].Text? && offset <= |nodes[k].data| && AllInline(nodes[..k])
    requires caret == Range(parent + [k], offset)
    ensures SeekIn(nodes, parent, caret)
            == Some(|Read("", nodes[..k] + [Text(nodes[k].data[..offset])])| + (offset - |Visible(nodes[k].data[..offset])|))
  {
    var shown := Visible(nodes[k].data[..offset]);
    SoughtFromFront(nodes, parent, caret, k, Text(nodes[k].data[..offset]), offset - |shown|);
  }

  lemma SoughtInElement(nodes: seq<Node>, parent: Path, caret: Range, k: nat, cut: seq<Node>, gap: int)
    requires k < |nodes| && nodes[k].Element? && nodes[k].variable == "" && nodes[k].tag != "BR" && Inline(nodes[k])
    requires parent + [k] <= caret.start != parent + [k] && AllInline(nodes[..k]) && AllInline(cut)
    requires SeekIn(nodes[k].children, parent + [k], caret) == Some(|Read("", cut)| + gap)
    ensures SeekIn(nodes, parent, caret) == Some(|Read("", nodes[..k] + [nodes[k].(children := cut)])| + gap)
  {
    SoughtInside(nodes[k], cut, parent + [k], caret);
    SoughtFromFront(nodes, parent, caret, k, nodes[k].(children := cut), gap);
  }

  lemma SoughtFromFront(nodes: seq<Node>, parent: Path, caret: Range, k: nat, piece: Node, gap: int)
    requires k < |nodes| && parent + [k] <= caret.start && AllInline(nodes[..k]) && Inline(piece)
    requires Seek(nodes[k], parent + [k], caret) == Some(|Appended("", piece)| + gap)
    ensures SeekIn(nodes, parent, caret) == Some(|Read("", nodes[..k] + [piece])| + gap)
  {
    SeekInChild(nodes, parent, caret, k);
    WidthBefore(nodes[..k], piece);
  }

  lemma SoughtInside(node: Node, cut: seq<Node>, path: Path, caret: Range)
    requires node.Element? && node.variable == "" && node.tag != "BR" && path != caret.start && AllInline(cut)
    requires Inline(node) && SeekIn(node.children, path, caret).Some?
    ensures Seek(node, path, caret) == SeekIn(node.children, path, caret)
    ensures Appended("", node.(children := cut)) == Read("", cut)
  {
  }

  lemma WidthBefore(front: seq<Node>, piece: Node)
    requires AllInline(front) && Inline(piece)
    ensures |Read("", front + [piece])| == WidthOf(front) + |Appended("", piece)|
  {
    TextTakesWidth("", front);
    InlineAddsNoLines("", front);
    ReadAppend("", front, [piece]);
    ReadOne(Read("", front), piece);
    InlineAppends(Read("", front), piece);
  }

  /** A caret in a text node reads back as the length of the text before it, which is the text up to that
      index, if and only if no zero-width space stands before it in its node. */
  lemma PositionIndexesText(editor: seq<Node>, path: Path, offset: nat)
    requires PlainAt(editor, path) && offset <= |PlainData(editor, path)| && AllInline(editor)
    ensures var text, before := Read("", editor), Read("", Cut(editor, path, offset));
            && before <= text
            && (Position(editor, Range(path, offset)) == |before| <==> ZERO_WIDTH !in PlainData(editor, path)[..offset])
  {
    SoughtInText(editor, [], path, offset);
    assert [] + path == path;
    CutReadsPrefix(editor, path, offset);
    VisibleAlready(PlainData(editor, path)[..offset]);
    VisibleShorter(PlainData(editor, path)[..offset]);
  }

  lemma {:induction false} VisibleShorter(s: string)
    ensures |Visible(s)| == |s| <==> ZERO_WIDTH !in s
  {
    VisibleAlready(s);
    if |Visible(s)| == |s| && s != "" {
      VisibleAlready(s[1..]);
      VisibleShorter(s[1..]);
    }
  }

  /** Placing the caret at a position of a text node splits the text there, if no zero-width space stands
      before it in its node. */
  lemma CaretSplitsText(editor: seq<Node>, target: nat)
    requires AllInline(editor) && PlaceIn(editor, [], 0, target).Some?
    requires PlainAt(editor, PlaceIn(editor, [], 0, target).value.start)
    ensures var r := PlaceIn(editor, [], 0, target).value;
            && 0 <= r.offset <= |PlainData(editor, r.start)|
            && (ZERO_WIDTH !in PlainData(editor, r.start)[..r.offset]
                ==> target <= |Read("", editor)|
                    && Read("", Cut(editor, r.start, r.offset)) == Read("", editor)[..target])
  {
    var r := PlaceIn(editor, [], 0, target).value;
    CaretRoundTrip(editor, target);
    PlainIsText(editor, r.start);
    PlacedAtLeaf(editor, [], 0, target);
    assert r.start[0..] == r.start;
    PlainIsData(editor, r.start);
    PositionIndexesText(editor, r.start, r.offset);
  }

  lemma {:induction false} PlainIsData(nodes: seq<Node>, path: Path)
    requires PlainAt(nodes, path) && TextAt(nodes, path)
    ensures PlainData(nodes, path) == DataAt(nodes, path)
    decreases |path|
  {
    if |path| > 1 {
      PlainIsText(nodes[path[0]].children, path[1..]);
      PlainIsData(nodes[path[0]].children, path[1..]);
    }
  }

  /** A caret outside the editor, or at no node the traversal meets, reads back as the end of the text. */
  lemma CaretOutside(editor: seq<Node>, caret: Range)
    requires AllInline(editor) && caret.start != [] && SeekIn(editor, [], caret) == None
    ensures Position(editor, caret) == |Read("", editor)|
  {
    TextTakesWidth("", editor);
    InlineAddsNoLines("", editor);
  }

  // ---------------------------------------------------------------- rendered documents

  /** What a text is rendered to: text nodes, line breaks and variable tags. */
  predicate Flat(node: Node) {
    node.Text? || node == LINE_BREAK || (node.Element? && node.variable != "")
  }

  predicate AllFlat(nodes: seq<Node>) {
    forall k :: 0 <= k < |nodes| ==> Flat(nodes[k])
  }

  lemma {:induction false} FlatIsInline(nodes: seq<Node>)
    requires AllFlat(nodes)
    ensures AllInline(nodes)
  {
    if nodes != [] { FlatIsInline(nodes[..|nodes| - 1]); }
  }

  lemma {:induction false} MarkupIsFlat(html: string)
    ensures AllFlat(Markup(html))
  {
    if html != "" {
      if "<br>" <= html { MarkupIsFlat(html[4..]); }
      else if "&amp;" <= html { MarkupIsFlat(html[5..]); }
      else if "&lt;" <= html || "&gt;" <= html { MarkupIsFlat(html[4..]); }
      else if "&quot;" <= html || "&#x27;" <= html { MarkupIsFlat(html[6..]); }
      else { MarkupIsFlat(html[1..]); }
    }
  }

  lemma {:induction false} DocumentIsFlat(pieces: seq<Piece>, variables: Variables)
    requires forall p :: 0 <= p < |pieces| ==> PieceOk(pieces[p])
    ensures AllFlat(Document(pieces, variables))
  {
    if pieces != [] {
      PieceIsFlat(pieces[0], variables);
      DocumentIsFlat(pieces[1..], variables);
      JoinedFlat(NodesOf(pieces[0], variables), Document(pieces[1..], variables));
    }
  }

  lemma PieceIsFlat(piece: Piece, variables: Variables)
    requires PieceOk(piece)
    ensures AllFlat(NodesOf(piece, variables))
  {
    if piece.Gap? { MarkupIsFlat(EscapeHtml(piece.text)); }
  }

  lemma JoinedFlat(a: seq<Node>, b: seq<Node>)
    requires AllFlat(a) && AllFlat(b)
    ensures AllFlat(Concatenated(a, b))
  {
  }

  /** The document a text is rendered to has a caret position for every visible character, and no more. */
  lemma DocumentWidth(text: string, variables: Variables)
    ensures WidthOf(Document(Pieces(text, 0), variables)) == |Visible(text)|
    ensures AllInline(Document(Pieces(text, 0), variables))
  {
    PiecesAreTokensAndGaps(text, 0);
    DocumentIsFlat(Pieces(text, 0), variables);
    FlatIsInline(Document(Pieces(text, 0), variables));
    TextSurvives(text, variables);
    TextTakesWidth("", Document(Pieces(text, 0), variables));
    InlineAddsNoLines("", Document(Pieces(text, 0), variables));
  }

  // ---------------------------------------------------------------- variable tags in a document

  lemma PieceTags(piece: Piece, variables: Variables)
    ensures TagsBetweenTexts(NodesOf(piece, variables))
  {
    if piece.Gap? { MarkupHasNoTags(EscapeHtml(piece.text)); }
  }

  /** Every tag stands between two text nodes, in which the caret can stand before and behind it. */
  predicate TagsBetweenTexts(nodes: seq<Node>) {
    forall k :: 0 <= k < |nodes| && nodes[k].Element? && nodes[k].variable != "" ==>
      0 < k < |nodes| - 1 && nodes[k - 1].Text? && nodes[k + 1].Text?
  }

  lemma JoinedBetween(a: seq<Node>, b: seq<Node>)
    requires TagsBetweenTexts(a) && TagsBetweenTexts(b)
    ensures TagsBetweenTexts(Concatenated(a, b))
  {
  }

  lemma {:induction false} MarkupHasNoTags(html: string)
    ensures forall k :: 0 <= k < |Markup(html)| ==> Markup(html)[k].Text? || Markup(html)[k] == LINE_BREAK
  {
    if html != "" {
      if "<br>" <= html { MarkupHasNoTags(html[4..]); }
      else if "&amp;" <= html { MarkupHasNoTags(html[5..]); }
      else if "&lt;" <= html || "&gt;" <= html { MarkupHasNoTags(html[4..]); }
      else if "&quot;" <= html || "&#x27;" <= html { MarkupHasNoTags(html[6..]); }
      else { MarkupHasNoTags(html[1..]); }
    }
  }

  lemma {:induction false} DocumentTags(pieces: seq<Piece>, variables: Variables)
    ensures TagsBetweenTexts(Document(pieces, variables))
  {
    if pieces != [] {
      PieceTags(pieces[0], variables);
      DocumentTags(pieces[1..], variables);
      JoinedBetween(NodesOf(pieces[0], variables), Document(pieces[1..], variables));
    }
  }

  /** What a tag shows to the reader: the known name of its variable, or else the name in the text, and the
      note on it, if there is one. */
  lemma TagShows(name: string, variables: Variables)
    ensures var tag := Tag(name, variables);
            && |tag| == 3 && tag[0] == tag[2] == Text([ZERO_WIDTH])
            && tag[1].Element? && tag[1].variable == name && |tag[1].children| >= 2
            && tag[1].children[1] == Element("SPAN", "", Lines(if name in variables && variables[name].0 != "" then variables[name].0 else name))
            && (if name in variables && variables[name].1 != "" then
                  |tag[1].children| == 3 && tag[1].children[2] == Element("SPAN", "", Lines(variables[name].1))
                else |tag[1].children| == 2)
  {
    EscapedTextIsRead(if name in variables && variables[name].0 != "" then variables[name].0 else name);
    if name in variables { EscapedTextIsRead(variables[name].1); }
  }

  /** A caret inside a tag reads back as the position before it. */
  lemma CaretInTag(editor: seq<Node>, k: nat, caret: Range)
    requires k < |editor| && editor[k].Element? && editor[k].variable != "" && [k] <= caret.start
    ensures Position(editor, caret) == WidthOf(editor[..k])
  {
    assert [] + [k] == [k];
    SeekInChild(editor, [], caret, k);
  }

  // ---------------------------------------------------------------- blocks and names

  /** Paragraphs, headings, list items and preformatted text stand on lines of their own. */
  lemma BlocksBreakLines(sofar: string, tag: string, children: seq<Node>)
    requires tag in {"DIV", "P", "H1", "H2", "H3", "H4", "H5", "H6", "LI", "PRE"} && sofar != ""
    ensures var text := Appended(sofar, Element(tag, "", children));
            text == (if EndsLine(sofar) then sofar else sofar + "\n") + (if Read("", children) == "" then "\n" else Read("", children))
  {
  }

  /** A name in double braces is a reference exactly if it is made of letters, digits, underscores, dots and
      hyphens, at least one of them. */
  lemma NamesOfAllKinds(name: string)
    ensures References("{{" + name + "}}", 0) == [name]
            <==> name != "" && forall i :: 0 <= i < |name| ==>
                   'a' <= name[i] <= 'z' || 'A' <= name[i] <= 'Z' || '0' <= name[i] <= '9' || name[i] in {'_', '.', '-'}
  {
    var text := "{{" + name + "}}";
    if References(text, 0) == [name] { SoleIsWord(text, name); }
    if name != "" && forall i :: 0 <= i < |name| ==> IsWord(name[i]) {
      WordInBraces(text, name);
      SoleToken(text);
    }
  }

  lemma SoleIsWord(text: string, name: string)
    requires References(text, 0) == [name]
    ensures name != "" && forall i :: 0 <= i < |name| ==> IsWord(name[i])
  {
    var n := NextToken(text, 0);
    assert References(text, 0)[0] == NameAt(text, n);
  }

  lemma WordInBraces(text: string, name: string)
    requires text == "{{" + name + "}}" && name != "" && forall i :: 0 <= i < |name| ==> IsWord(name[i])
    ensures TokenAt(text, 0) && NameAt(text, 0) == name && RunEnd(text, 2) + 2 == |text|
  {
    var n := 2 + |name|;
    assert text[0..2] == "{{" && text[n..n + 2] == "}}" && text[2..n] == name;
    RunIs(text, 2, n);
  }

  lemma SoleToken(text: string)
    requires TokenAt(text, 0) && RunEnd(text, 2) + 2 == |text|
    ensures References(text, 0) == [NameAt(text, 0)]
  {
    assert NextToken(text, 0) == 0;
  }
}
