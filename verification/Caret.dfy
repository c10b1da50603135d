/** The caret of the prompt editor: placing it at a text position in a document tree, and reading the
    position back.

    Nodes are named by their path of child indices from the editor element, which is the empty path.
  */
module Caret {
  import opened Options
  import opened PromptEditor

  type Path = seq<nat>

  /** A collapsed range: a node and an offset in it, of characters in a text node, of children in an
      element. */
  datatype Range = Range(start: Path, offset: int)

  /** How many text positions a node takes. */
  function Width(node: Node): nat
    decreases node, 0
  {
    match node
    case Text(data) => |Visible(data)|
    case Other => 0
    case Element(tag, variable, children) =>
      if variable != "" then |variable| + 4
      else if tag == "BR" then 1
      else WidthOf(children)
  }

  function WidthOf(nodes: seq<Node>): nat
    decreases nodes, 1
  {
    if nodes == [] then 0 else WidthOf(nodes[..|nodes| - 1]) + Width(nodes[|nodes| - 1])
  }

  // ---------------------------------------------------------------- placing

  /** Where the traversal of `setCursorPosition` stops in a node, `passed` positions after the start;
      a variable or a line break is left behind, so its parent holds the range. */
  function Place(node: Node, path: Path, passed: int, target: int): Option<Range>
    requires path != []
    decreases node, 0
  {
    match node
    case Text(data) => if passed + |Visible(data)| >= target then Some(Range(path, target - passed)) else None
    case Other => None
    case Element(tag, variable, children) =>
      if variable != "" || tag == "BR" then
        if passed + Width(node) >= target then Some(Range(path[..|path| - 1], path[|path| - 1] + 1)) else None
      else PlaceIn(children, path, passed, target)
  }

  function PlaceIn(nodes: seq<Node>, parent: Path, passed: int, target: int): Option<Range>
    decreases nodes, 1
  {
    if nodes == [] then None
    else
      var n := |nodes| - 1;
      var before := PlaceIn(nodes[..n], parent, passed, target);
      if before.Some? then before else Place(nodes[n], parent + [n], passed + WidthOf(nodes[..n]), target)
  }

  /** `traverse` of `setCursorPosition`, with its captured counter. */
  class Placer {
    var currentPos: int

    constructor ()
      ensures currentPos == 0
    {
      currentPos := 0;
    }

    method Traverse(node: Node, path: Path, target: int) returns (r: Option<Range>)
      requires path != []
      modifies this
      ensures r == Place(node, path, old(currentPos), target)
      ensures r.None? ==> currentPos == old(currentPos) + Width(node)
      decreases node, 0
    {
      match node {
        case Text(data) =>
          var textLength := |Visible(data)|;
          if currentPos + textLength >= target {
            return Some(Range(path, target - currentPos));
          }
          currentPos := currentPos + textLength;
          r := None;
        case Other =>
          r := None;
        case Element(tag, variable, children) =>
          if variable != "" {
            var variableLength := |variable| + 4;
            if currentPos + variableLength >= target {
              return Some(Range(path[..|path| - 1], path[|path| - 1] + 1));
            }
            currentPos := currentPos + variableLength;
            return None;
          }
          if tag == "BR" {
            if currentPos + 1 >= target {
              return Some(Range(path[..|path| - 1], path[|path| - 1] + 1));
            }
            currentPos := currentPos + 1;
            return None;
          }
          r := TraverseAll(children, path, target);
      }
    }

    method TraverseAll(nodes: seq<Node>, parent: Path, target: int) returns (r: Option<Range>)
      modifies this
      ensures r == PlaceIn(nodes, parent, old(currentPos), target)
      ensures r.None? ==> currentPos == old(currentPos) + WidthOf(nodes)
      decreases nodes, 1
    {
      ghost var start := currentPos;
      for i := 0 to |nodes|
        invariant PlaceIn(nodes[..i], parent, start, target) == None
        invariant currentPos == start + WidthOf(nodes[..i])
      {
        assert nodes[..i + 1][..i] == nodes[..i];
        r := Traverse(nodes[i], parent + [i], target);
        if r.Some? {
          PlacedEarly(nodes, i + 1, parent, start, target);
          return;
        }
      }
      assert nodes[..|nodes|] == nodes;
      r := None;
    }
  }

  lemma {:induction false} PlacedEarly(nodes: seq<Node>, n: nat, parent: Path, passed: int, target: int)
    requires n <= |nodes| && PlaceIn(nodes[..n], parent, passed, target).Some?
    ensures PlaceIn(nodes, parent, passed, target) == PlaceIn(nodes[..n], parent, passed, target)
    decreases |nodes|
  {
    if n == |nodes| {
      assert nodes[..n] == nodes;
    } else {
      var front := nodes[..|nodes| - 1];
      assert front[..n] == nodes[..n];
      PlacedEarly(front, n, parent, passed, target);
    }
  }

  /** `setCursorPosition`: the new range, if a place was found. */
  method SetCursorPosition(editor: seq<Node>, target: int) returns (r: Option<Range>)
    ensures r == PlaceIn(editor, [], 0, target)
  {
    var placer := new Placer();
    r := placer.TraverseAll(editor, [], target);
  }

  // ---------------------------------------------------------------- reading

  /** What the traversal of `getCursorPosition` finds in a node: the positions before the caret, or
      that the caret is not there. */
  function Seek(node: Node, path: Path, caret: Range): Option<int>
    decreases node, 0
  {
    if path == caret.start then Some(if node.Text? then caret.offset else 0)
    else
      match node
      case Text(_) => None
      case Other => None
      case Element(tag, variable, children) =>
        if variable != "" then (if path <= caret.start then Some(0) else None)
        else if tag == "BR" then None
        else SeekIn(children, path, caret)
  }

  function SeekIn(nodes: seq<Node>, parent: Path, caret: Range): Option<int>
    decreases nodes, 1
  {
    if nodes == [] then None
    else
      var n := |nodes| - 1;
      var before := SeekIn(nodes[..n], parent, caret);
      if before.Some? then before
      else
        var found := Seek(nodes[n], parent + [n], caret);
        if found.Some? then Some(WidthOf(nodes[..n]) + found.value) else None
  }

  /** `traverse` of `getCursorPosition`, with its captured counter. */
  class Reader {
    var pos: int

    constructor ()
      ensures pos == 0
    {
      pos := 0;
    }

    method Traverse(node: Node, path: Path, caret: Range) returns (found: bool)
      modifies this
      ensures var r := Seek(node, path, caret);
              && found == r.Some?
              && pos == old(pos) + (if found then r.value else Width(node))
      decreases node, 0
    {
      if path == caret.start {
        if node.Text? {
          pos := pos + caret.offset;
        }
        return true;
      }
      match node {
        case Text(data) =>
          pos := pos + |Visible(data)|;
          found := false;
        case Other =>
          found := false;
        case Element(tag, variable, children) =>
          if variable != "" {
            if path <= caret.start {
              return true;
            }
            pos := pos + |variable| + 4;
            return false;
          }
          if tag == "BR" {
            pos := pos + 1;
            return false;
          }
          found := TraverseAll(children, path, caret);
      }
    }

    method TraverseAll(nodes: seq<Node>, parent: Path, caret: Range) returns (found: bool)
      modifies this
      ensures var r := SeekIn(nodes, parent, caret);
              && found == r.Some?
              && pos == old(pos) + (if found then r.value else WidthOf(nodes))
      decreases nodes, 1
    {
      ghost var start := pos;
      for i := 0 to |nodes|
        invariant SeekIn(nodes[..i], parent, caret) == None
        invariant pos == start + WidthOf(nodes[..i])
      {
        assert nodes[..i + 1][..i] == nodes[..i];
        found := Traverse(nodes[i], parent + [i], caret);
        if found {
          FoundEarly(nodes, i + 1, parent, caret);
          return;
        }
      }
      assert nodes[..|nodes|] == nodes;
      found := false;
    }
  }

  lemma {:induction false} FoundEarly(nodes: seq<Node>, n: nat, parent: Path, caret: Range)
    requires n <= |nodes| && SeekIn(nodes[..n], parent, caret).Some?
    ensures SeekIn(nodes, parent, caret) == SeekIn(nodes[..n], parent, caret)
    decreases |nodes|
  {
    if n == |nodes| {
      assert nodes[..n] == nodes;
    } else {
      var front := nodes[..|nodes| - 1];
      assert front[..n] == nodes[..n];
      FoundEarly(front, n, parent, caret);
    }
  }

  /** The position read back; a caret outside the editor reads as the end of its text. */
  function Position(editor: seq<Node>, caret: Range): int {
    if caret.start == [] then 0
    else
      var found := SeekIn(editor, [], caret);
      if found.Some? then found.value else WidthOf(editor)
  }

  /** `getCursorPosition` with a selection in or outside the editor. */
  method GetCursorPosition(editor: seq<Node>, caret: Range) returns (pos: int)
    ensures pos == Position(editor, caret)
  {
    if caret.start == [] {
      return 0;
    }
    var reader := new Reader();
    var _ := reader.TraverseAll(editor, [], caret);
    pos := reader.pos;
  }

  // ---------------------------------------------------------------- the round trip

  /** The path leads to a text node, through plain elements. */
  predicate TextAt(nodes: seq<Node>, path: Path)
    decreases |path|
  {
    && path != [] && path[0] < |nodes|
    && var node := nodes[path[0]];
       if |path| == 1 then node.Text? else node.Element? && TextAt(node.children, path[1..])
  }

  function DataAt(nodes: seq<Node>, path: Path): string
    requires TextAt(nodes, path)
    decreases |path|
  {
    var node := nodes[path[0]];
    if |path| == 1 then node.data else DataAt(node.children, path[1..])
  }

  /** The path leads to an element; the number of its children. */
  function ChildrenAt(nodes: seq<Node>, path: Path): Option<nat>
    decreases |path|
  {
    if path == [] then Some(|nodes|)
    else if path[0] < |nodes| && nodes[path[0]].Element? then ChildrenAt(nodes[path[0]].children, path[1..])
    else None
  }

  /** The text positions before the node at the path. */
  function Before(nodes: seq<Node>, path: Path): nat
    decreases |path|
  {
    if path == [] || path[0] >= |nodes| then 0
    else
      WidthOf(nodes[..path[0]])
      + (if |path| > 1 && nodes[path[0]].Element? then Before(nodes[path[0]].children, path[1..]) else 0)
  }

  /** A leaf at which the traversal may stop. */
  predicate Stops(node: Node)
    decreases node, 0
  {
    node.Text? || (node.Element? && (node.variable != "" || node.tag == "BR" || AnyStops(node.children)))
  }

  predicate AnyStops(nodes: seq<Node>)
    decreases nodes, 1
  {
    nodes != [] && (AnyStops(nodes[..|nodes| - 1]) || Stops(nodes[|nodes| - 1]))
  }

  /** What a range found among `nodes`, children of `parent`, is like: in a text node it stands exactly
      `target` positions in, and is read as that; on an element it is read as the element's start. */
  ghost predicate WellPlaced(nodes: seq<Node>, parent: Path, passed: int, target: int, range: Range) {
    && parent <= range.start
    && var path := range.start[|parent|..];
       if TextAt(nodes, path) then
         && 0 <= range.offset <= |Visible(DataAt(nodes, path))|
         && passed + Before(nodes, path) + range.offset == target
         && SeekIn(nodes, parent, range) == Some(Before(nodes, path) + range.offset)
       else
         && ChildrenAt(nodes, path).Some? && 1 <= range.offset <= ChildrenAt(nodes, path).value
         && (path != [] ==> SeekIn(nodes, parent, range) == Some(Before(nodes, path)))
         && passed + Before(nodes, path) <= target
         && (passed + Before(nodes, path) == target <==> target == 0)
  }

  lemma {:induction false} SeekElsewhere(node: Node, path: Path, caret: Range)
    requires !(path <= caret.start)
    ensures Seek(node, path, caret) == None
    decreases node, 0
  {
    if node.Element? && node.variable == "" && node.tag != "BR" {
      forall n: nat | n < |node.children|
        ensures !(path + [n] <= caret.start)
      {
        if path + [n] <= caret.start { RestPath(path, n, caret.start); }
      }
      SeekNowhere(node.children, path, caret, |node.children|);
      assert node.children[..|node.children|] == node.children;
    }
  }

  lemma {:induction false} SeekNowhere(nodes: seq<Node>, parent: Path, caret: Range, n: nat)
    requires n <= |nodes| && forall k :: 0 <= k < n ==> !(parent + [k] <= caret.start)
    ensures SeekIn(nodes[..n], parent, caret) == None
    decreases nodes, 1, n
  {
    if n > 0 {
      assert nodes[..n][..n - 1] == nodes[..n - 1];
      SeekNowhere(nodes, parent, caret, n - 1);
      SeekElsewhere(nodes[n - 1], parent + [n - 1], caret);
    }
  }

  /** A range inside child `n` is sought there. */
  lemma {:induction false} SeekInChild(nodes: seq<Node>, parent: Path, caret: Range, n: nat)
    requires n < |nodes| && parent + [n] <= caret.start && Seek(nodes[n], parent + [n], caret).Some?
    ensures SeekIn(nodes, parent, caret) == Some(WidthOf(nodes[..n]) + Seek(nodes[n], parent + [n], caret).value)
  {
    forall k | 0 <= k < n
      ensures !(parent + [k] <= caret.start)
    {
      assert (parent + [k])[|parent|] != (parent + [n])[|parent|];
    }
    SeekNowhere(nodes, parent, caret, n);
    assert nodes[..n + 1][..n] == nodes[..n];
    FoundEarly(nodes, n + 1, parent, caret);
  }

  lemma RestPath(parent: Path, n: nat, start: Path)
    requires parent + [n] <= start
    ensures parent <= start
    ensures var path := start[|parent|..];
            path != [] && path[0] == n && path[1..] == start[|parent| + 1..]
  {
    assert start[..|parent|] == (parent + [n])[..|parent|];
    assert start[|parent|] == (parent + [n])[|parent|];
  }

  /** Positions passed before a traversal goes on: fewer than wanted, or none at all. */
  predicate Underway(passed: int, target: int) {
    0 <= passed && (passed < target || passed == 0)
  }

  /** The child that is placed in decides for its parent. */
  lemma {:induction false} PlacedInChild(nodes: seq<Node>, parent: Path, passed: int, target: int, n: nat, range: Range)
    requires n < |nodes| && 0 <= target && Underway(passed + WidthOf(nodes[..n]), target)
    requires nodes[n].Element? && nodes[n].variable == "" && nodes[n].tag != "BR"
    requires WellPlaced(nodes[n].children, parent + [n], passed + WidthOf(nodes[..n]), target, range)
    ensures WellPlaced(nodes, parent, passed, target, range)
  {
    RestPath(parent, n, range.start);
    var path, inner := range.start[|parent|..], range.start[|parent| + 1..];
    assert inner == path[1..] && |parent + [n]| == |parent| + 1;
    if inner == [] {
      assert range.start == parent + [n];
    } else {
      assert range.start != parent + [n];
    }
    SeekInChild(nodes, parent, range, n);
  }

  /** A stop hit at child `n` itself. */
  lemma {:induction false} PlacedAtChild(nodes: seq<Node>, parent: Path, passed: int, target: int, n: nat, range: Range)
    requires n < |nodes| && 0 <= target && 0 <= passed && Underway(passed + WidthOf(nodes[..n]), target)
    requires !nodes[n].Element? || nodes[n].variable != "" || nodes[n].tag == "BR"
    requires Place(nodes[n], parent + [n], passed + WidthOf(nodes[..n]), target) == Some(range)
    ensures WellPlaced(nodes, parent, passed, target, range)
  {
    var path := parent + [n];
    if nodes[n].Text? {
      assert range.start == path;
      RestPath(parent, n, range.start);
      assert range.start[|parent|..] == [n];
      SeekInChild(nodes, parent, range, n);
    } else {
      assert path[..|path| - 1] == parent;
      assert range.start[|parent|..] == [];
    }
  }

  /** A node that is passed leaves less than the target behind it, unless it has nothing to stop at. */
  lemma {:induction false} PassedNode(node: Node, path: Path, passed: int, target: int)
    requires path != [] && 0 <= target && Underway(passed, target) && Place(node, path, passed, target).None?
    ensures if Stops(node) then passed + Width(node) < target else Width(node) == 0
    decreases node, 0
  {
    if node.Element? && node.variable == "" && node.tag != "BR" {
      PassedNodes(node.children, path, passed, target);
    }
  }

  lemma {:induction false} PassedNodes(nodes: seq<Node>, parent: Path, passed: int, target: int)
    requires 0 <= target && Underway(passed, target) && PlaceIn(nodes, parent, passed, target).None?
    ensures if AnyStops(nodes) then passed + WidthOf(nodes) < target else WidthOf(nodes) == 0
    decreases nodes, 1
  {
    if nodes != [] {
      var n := |nodes| - 1;
      PassedNodes(nodes[..n], parent, passed, target);
      PassedNode(nodes[n], parent + [n], passed + WidthOf(nodes[..n]), target);
    }
  }

  lemma {:induction false} PlacedWell(nodes: seq<Node>, parent: Path, passed: int, target: int)
    requires 0 <= target && Underway(passed, target) && PlaceIn(nodes, parent, passed, target).Some?
    ensures WellPlaced(nodes, parent, passed, target, PlaceIn(nodes, parent, passed, target).value)
    decreases nodes, 1
  {
    var n, range := |nodes| - 1, PlaceIn(nodes, parent, passed, target).value;
    if PlaceIn(nodes[..n], parent, passed, target).Some? {
      PlacedWell(nodes[..n], parent, passed, target);
      WellPlacedLonger(nodes, parent, passed, target, n, range);
    } else {
      PassedNodes(nodes[..n], parent, passed, target);
      if nodes[n].Element? && nodes[n].variable == "" && nodes[n].tag != "BR" {
        PlacedWell(nodes[n].children, parent + [n], passed + WidthOf(nodes[..n]), target);
        PlacedInChild(nodes, parent, passed, target, n, range);
      } else {
        PlacedAtChild(nodes, parent, passed, target, n, range);
      }
    }
  }

  /** More children after it do not matter to a range. */
  lemma {:induction false} WellPlacedLonger(nodes: seq<Node>, parent: Path, passed: int, target: int, n: nat, range: Range)
    requires n <= |nodes| && WellPlaced(nodes[..n], parent, passed, target, range)
    requires PlaceIn(nodes[..n], parent, passed, target) == Some(range)
    ensures WellPlaced(nodes, parent, passed, target, range)
  {
    var path := range.start[|parent|..];
    if path != [] {
      FoundEarly(nodes, n, parent, range);
      if path[0] < n {
        assert nodes[..n][path[0]] == nodes[path[0]] && nodes[..n][..path[0]] == nodes[..path[0]];
      }
    }
  }

  // ---------------------------------------------------------------- where the caret lands

  /** A place the traversal can stop at: whether it is a text node, and how many positions it takes. */
  datatype Leaf = Leaf(text: bool, width: nat)

  function LeavesOf(node: Node): seq<Leaf>
    decreases node, 0
  {
    match node
    case Text(data) => [Leaf(true, |Visible(data)|)]
    case Other => []
    case Element(tag, variable, children) =>
      if variable != "" || tag == "BR" then [Leaf(false, Width(node))] else LeavesIn(children)
  }

  function LeavesIn(nodes: seq<Node>): seq<Leaf>
    decreases nodes, 1
  {
    if nodes == [] then [] else LeavesIn(nodes[..|nodes| - 1]) + LeavesOf(nodes[|nodes| - 1])
  }

  function TotalWidth(leaves: seq<Leaf>): nat {
    if leaves == [] then 0 else TotalWidth(leaves[..|leaves| - 1]) + leaves[|leaves| - 1].width
  }

  /** The first leaf that ends at the target or after it. */
  function Landing(leaves: seq<Leaf>, passed: int, target: int): Option<Leaf> {
    if leaves == [] then None
    else
      var n := |leaves| - 1;
      var before := Landing(leaves[..n], passed, target);
      if before.Some? then before
      else if passed + TotalWidth(leaves) >= target then Some(leaves[n]) else None
  }

  lemma {:induction false} LandingAppend(a: seq<Leaf>, b: seq<Leaf>, passed: int, target: int)
    ensures TotalWidth(a + b) == TotalWidth(a) + TotalWidth(b)
    ensures Landing(a + b, passed, target)
            == if Landing(a, passed, target).Some? then Landing(a, passed, target)
               else Landing(b, passed + TotalWidth(a), target)
  {
    if b == [] {
      assert a + b == a;
    } else {
      var n := |b| - 1;
      assert (a + b)[..|a| + n] == a + b[..n];
      LandingAppend(a, b[..n], passed, target);
    }
  }

  lemma {:induction false} LeavesTakeWidth(nodes: seq<Node>)
    ensures TotalWidth(LeavesIn(nodes)) == WidthOf(nodes)
    decreases nodes, 1
  {
    if nodes != [] {
      var n := |nodes| - 1;
      LeavesTakeWidth(nodes[..n]);
      LandingAppend(LeavesIn(nodes[..n]), LeavesOf(nodes[n]), 0, 0);
      LeafTakesWidth(nodes[n]);
    }
  }

  lemma {:induction false} LeafTakesWidth(node: Node)
    ensures TotalWidth(LeavesOf(node)) == Width(node)
    decreases node, 0
  {
    if node.Element? && node.variable == "" && node.tag != "BR" { LeavesTakeWidth(node.children); }
    else if !node.Other? { assert TotalWidth([]) == 0 && LeavesOf(node)[..0] == []; }
  }

  /** The range below `parent`, and whether it stands in a text node. */
  predicate LandsIn(nodes: seq<Node>, parent: Path, range: Range, text: bool) {
    && parent <= range.start
    && (var path := range.start[|parent|..];
        && (path != [] ==> path[0] < |nodes|)
        && TextAt(nodes, path) == text)
  }

  /** The caret is placed where the leaves say. */
  lemma {:induction false} PlacedAtLeaf(nodes: seq<Node>, parent: Path, passed: int, target: int)
    ensures var r, leaf := PlaceIn(nodes, parent, passed, target), Landing(LeavesIn(nodes), passed, target);
            && (r.Some? <==> leaf.Some?) && (r.Some? ==> LandsIn(nodes, parent, r.value, leaf.value.text))
    decreases nodes, 1
  {
    if nodes != [] {
      var n := |nodes| - 1;
      PlacedAtLeaf(nodes[..n], parent, passed, target);
      LandingAppend(LeavesIn(nodes[..n]), LeavesOf(nodes[n]), passed, target);
      LeavesTakeWidth(nodes[..n]);
      var front := PlaceIn(nodes[..n], parent, passed, target);
      if front.Some? {
        LandsLonger(nodes, parent, front.value, n);
      } else {
        NodeAtLeaf(nodes, parent, passed + WidthOf(nodes[..n]), target);
      }
    }
  }

  lemma LandsLonger(nodes: seq<Node>, parent: Path, range: Range, n: nat)
    requires n <= |nodes| && parent <= range.start && LandsIn(nodes[..n], parent, range, TextAt(nodes[..n], range.start[|parent|..]))
    ensures LandsIn(nodes, parent, range, TextAt(nodes[..n], range.start[|parent|..]))
  {
  }

  /** The last of the nodes. */
  lemma {:induction false} NodeAtLeaf(nodes: seq<Node>, parent: Path, passed: int, target: int)
    requires nodes != []
    ensures var n := |nodes| - 1;
            var r, leaf := Place(nodes[n], parent + [n], passed, target), Landing(LeavesOf(nodes[n]), passed, target);
            && (r.Some? <==> leaf.Some?) && (r.Some? ==> LandsIn(nodes, parent, r.value, leaf.value.text))
    decreases nodes, 0
  {
    var n := |nodes| - 1;
    var node, path := nodes[n], parent + [n];
    var r := Place(node, path, passed, target);
    assert path[..|path| - 1] == parent;
    if node.Element? && node.variable == "" && node.tag != "BR" {
      PlacedAtLeaf(node.children, path, passed, target);
      if r.Some? {
        assert r.value.start[|parent|..] == [n] + r.value.start[|path|..];
        assert r.value.start[..|parent|] == path[..|parent|];
      }
    } else if !node.Other? {
      assert LeavesOf(node)[..0] == [] && TotalWidth([]) == 0;
      assert parent[|parent|..] == [] && path[|parent|..] == [n];
    }
  }

  /** Placing the caret and reading it back. It is placed if and only if some leaf ends at the target or
      after it. It then stands inside its node, and is read back exactly if and only if that leaf is a
      text node or the target is 0: next to a variable or a line break it is read back as the start of
      the enclosing element. */
  lemma CaretRoundTrip(editor: seq<Node>, target: int)
    requires 0 <= target
    ensures var r, leaf := PlaceIn(editor, [], 0, target), Landing(LeavesIn(editor), 0, target);
            && (r.Some? <==> leaf.Some?) && (leaf.Some? <==> target <= WidthOf(editor) && AnyStops(editor))
            && (r.Some? ==>
                  var path := r.value.start;
                  && (if leaf.value.text then TextAt(editor, path) && 0 <= r.value.offset <= |Visible(DataAt(editor, path))| <= |DataAt(editor, path)|
                      else ChildrenAt(editor, path).Some? && 1 <= r.value.offset <= ChildrenAt(editor, path).value
                           && Position(editor, r.value) == Before(editor, path) <= target)
                  && (Position(editor, r.value) == target <==> leaf.value.text || target == 0))
  {
    var r := PlaceIn(editor, [], 0, target);
    PlacedAtLeaf(editor, [], 0, target);
    if r.None? {
      PassedNodes(editor, [], 0, target);
    } else {
      PlacedWell(editor, [], 0, target);
      assert r.value.start[0..] == r.value.start;
      if TextAt(editor, r.value.start) { VisibleAlready(DataAt(editor, r.value.start)); }
      PlacedWithin(editor, [], 0, target);
    }
  }

  lemma {:induction false} PlacedWithin(nodes: seq<Node>, parent: Path, passed: int, target: int)
    requires PlaceIn(nodes, parent, passed, target).Some?
    ensures target <= passed + WidthOf(nodes) && AnyStops(nodes)
    decreases nodes, 1
  {
    var n := |nodes| - 1;
    if PlaceIn(nodes[..n], parent, passed, target).Some? {
      PlacedWithin(nodes[..n], parent, passed, target);
    } else if nodes[n].Element? && nodes[n].variable == "" && nodes[n].tag != "BR" {
      PlacedWithin(nodes[n].children, parent + [n], passed + WidthOf(nodes[..n]), target);
    }
  }

  /** After a variable, the caret is read back before it. */
  lemma CaretAfterVariable()
    ensures var editor := [Text("hello "), Element("SPAN", "name", [])];
            && PlaceIn(editor, [], 0, 14) == Some(Range([], 2))
            && Position(editor, Range([], 2)) == 0
  {
    var editor := [Text("hello "), Element("SPAN", "name", [])];
    assert editor[..1] == [Text("hello ")] && editor[..1][..0] == [];
    VisibleAlready("hello ");
    assert WidthOf(editor[..1]) == 6;
    assert PlaceIn(editor[..1], [], 0, 14) == None;
    assert ([] + [1])[..0] == [];
  }
}
