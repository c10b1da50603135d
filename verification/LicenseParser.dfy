/** The indentation parser of the license policy file, proved against the nesting it means.

    Containers are identified by the line that opened them, the root by -1; a container that
    another one holds is a reference to it.
  */
module LicenseParser {
  import opened Options

  // ---------------------------------------------------------------- text

  /** The characters `str.strip` removes. */
  const SPACES := " \t\n\r\U{000B}\U{000C}\U{001C}\U{001D}\U{001E}\U{001F}\U{0085}\U{00A0}\U{1680}\U{2000}\U{2001}\U{2002}\U{2003}\U{2004}\U{2005}\U{2006}\U{2007}\U{2008}\U{2009}\U{200A}\U{2028}\U{2029}\U{202F}\U{205F}\U{3000}"

  function StripLeft(s: string): string {
    if s != "" && s[0] in SPACES then StripLeft(s[1..]) else s
  }

  function StripRight(s: string): string {
    if s != "" && s[|s| - 1] in SPACES then StripRight(s[..|s| - 1]) else s
  }

  function Strip(s: string): string {
    StripLeft(StripRight(s))
  }

  /** How many blanks the line starts with. */
  function Indent(s: string): (n: nat)
    ensures n <= |s|
  {
    if s != "" && s[0] == ' ' then 1 + Indent(s[1..]) else 0
  }

  /** Where the text has its first such character, or its length. */
  function IndexOf(s: string, c: char): (n: nat)
    ensures n <= |s| && (n < |s| ==> s[n] == c) && forall i :: 0 <= i < n ==> s[i] != c
  {
    if s == "" || s[0] == c then 0 else 1 + IndexOf(s[1..], c)
  }

  datatype Quote = Outside | InSingle | InDouble

  /** Inside which quotes a character after `s` is; a quote of the other kind is plain text. */
  function Quoting(s: string): Quote {
    if s == "" then Outside
    else
      var before, c := Quoting(s[..|s| - 1]), s[|s| - 1];
      if c == '"' && !before.InSingle? then (if before.InDouble? then Outside else InDouble)
      else if c == '\'' && !before.InDouble? then (if before.InSingle? then Outside else InSingle)
      else before
  }

  predicate Comment(line: string, i: nat)
    requires i < |line|
  {
    line[i] == '#' && Quoting(line[..i]).Outside?
  }

  /** Where the comment of a line starts: at its first `#` outside quotes. */
  function CommentFrom(line: string, i: nat): (n: nat)
    requires i <= |line|
    ensures i <= n <= |line| && (n < |line| ==> Comment(line, n)) && forall k :: i <= k < n ==> !Comment(line, k)
    decreases |line| - i
  {
    if i == |line| || Comment(line, i) then i else CommentFrom(line, i + 1)
  }

  function Uncommented(line: string): string {
    StripRight(line[..CommentFrom(line, 0)])
  }

  lemma QuotingPush(line: string, i: nat)
    requires i < |line|
    ensures var before, c := Quoting(line[..i]), line[i];
            Quoting(line[..i + 1])
            == if c == '"' && !before.InSingle? then (if before.InDouble? then Outside else InDouble)
               else if c == '\'' && !before.InDouble? then (if before.InSingle? then Outside else InSingle)
               else before
    ensures line[..i + 1] == line[..i] + [line[i]]
  {
    assert line[..i + 1][..i] == line[..i];
  }

  lemma FirstComment(line: string, i: nat)
    requires i <= |line| && (forall k :: 0 <= k < i ==> !Comment(line, k)) && (i < |line| ==> Comment(line, i))
    ensures Uncommented(line) == StripRight(line[..i])
  {
    assert CommentFrom(line, 0) == i;
  }

  /** `strip_comment` */
  method StripComment(line: string) returns (r: string)
    ensures r == Uncommented(line)
  {
    var inSingle, inDouble, result := false, false, "";
    for i := 0 to |line|
      invariant result == line[..i]
      invariant Quoting(line[..i]) == if inSingle then InSingle else if inDouble then InDouble else Outside
      invariant !(inSingle && inDouble)
      invariant forall k :: 0 <= k < i ==> !Comment(line, k)
    {
      QuotingPush(line, i);
      var c := line[i];
      if c == '"' && !inSingle {
        inDouble := !inDouble;
      } else if c == '\'' && !inDouble {
        inSingle := !inSingle;
      } else if c == '#' && !inSingle && !inDouble {
        FirstComment(line, i);
        return StripRight(result);
      }
      result := result + [c];
    }
    FirstComment(line, |line|);
    r := StripRight(result);
  }

  // ---------------------------------------------------------------- values

  datatype Value =
    | Text(s: string) | Flag(b: bool) | Date(year: nat, month: nat, day: nat) | NoItems | NoKeys
    | Ref(line: nat)

  predicate IsDigit(c: char) {
    '0' <= c <= '9'
  }

  function Digit(c: char): nat
    requires IsDigit(c)
  {
    c as int - '0' as int
  }

  function Number(s: string): nat
    requires forall i :: 0 <= i < |s| ==> IsDigit(s[i])
  {
    if s == "" then 0 else 10 * Number(s[..|s| - 1]) + Digit(s[|s| - 1])
  }

  predicate LooksLikeDate(s: string) {
    |s| == 10 && forall i :: 0 <= i < 10 ==> if i == 4 || i == 7 then s[i] == '-' else IsDigit(s[i])
  }

  function DaysIn(year: nat, month: nat): nat {
    if month in {4, 6, 9, 11} then 30
    else if month != 2 then 31
    else if year % 4 == 0 && (year % 100 != 0 || year % 400 == 0) then 29 else 28
  }

  /** `date.fromisoformat` on something that looks like a date. */
  function AsDate(s: string): Option<Value>
    requires LooksLikeDate(s)
  {
    var year, month, day := Number(s[..4]), Number(s[5..7]), Number(s[8..]);
    if 1 <= year && 1 <= month <= 12 && 1 <= day <= DaysIn(year, month) then Some(Date(year, month, day)) else None
  }

  predicate IsQuote(c: char) {
    c == '"' || c == '\''
  }

  /** `parse_scalar`; only an impossible date fails. */
  function Scalar(text: string): Option<Value> {
    var value := Strip(text);
    if value == "" then Some(Text(""))
    else if value == "[]" then Some(NoItems)
    else if value == "{}" then Some(NoKeys)
    else if IsQuote(value[0]) && IsQuote(value[|value| - 1]) then
      Some(Text(if |value| == 1 then "" else value[1..|value| - 1]))
    else if value == "true" || value == "false" then Some(Flag(value == "true"))
    else if LooksLikeDate(value) then AsDate(value)
    else Some(Text(value))
  }

  // ---------------------------------------------------------------- lines

  /** What a line says: how deep it is, whether it is a list item, the key it sets, if any, whether
      its value is empty, and the value (missing if it is an impossible date). */
  datatype Line = Line(indent: nat, item: bool, key: Option<string>, blank: bool, value: Option<Value>)
  {
    /** A line opens a container if it is an item with a key, or sets a key to nothing. */
    predicate Opens() {
      key.Some? && (item || blank)
    }

    /** The value of a key without text is not looked at. */
    predicate Readable() {
      value.Some? || (!item && blank)
    }
  }

  predicate IsItem(raw: string) {
    "- " <= Strip(raw)
  }

  /** Reads a line that has lost its comment. */
  function Read(raw: string): Line {
    var item := IsItem(raw);
    var text := if item then Strip(Strip(raw)[2..]) else Strip(raw);
    var n := IndexOf(text, ':');
    if n < |text| then Line(Indent(raw), item, Some(Strip(text[..n])), Strip(text[n + 1..]) == "", Scalar(text[n + 1..]))
    else Line(Indent(raw), item, if item then None else Some(Strip(text)), !item, Scalar(if item then text else ""))
  }

  /** The lines of a file that are left without comments and blank lines. */
  function Kept(text: seq<string>): (lines: seq<Line>)
    ensures forall i :: 0 <= i < |lines| ==> lines[i].item || lines[i].key.Some?
  {
    if text == [] then []
    else
      var line := Uncommented(text[|text| - 1]);
      Kept(text[..|text| - 1]) + (if Strip(line) == "" then [] else [Read(line)])
  }

  // ---------------------------------------------------------------- nesting

  /** A container is a list if the line after the one that opens it is deeper and an item. */
  predicate IsList(lines: seq<Line>, node: int)
    requires -1 <= node < |lines|
  {
    node >= 0 && !lines[node].item
    && node + 1 < |lines| && lines[node + 1].indent > lines[node].indent && lines[node + 1].item
  }

  /** The container of line `j` still takes lines before line `i`. */
  predicate OpenAt(lines: seq<Line>, j: int, i: nat)
    requires i <= |lines|
  {
    0 <= j < i && lines[j].Opens() && forall k :: j < k < i ==> lines[k].indent > lines[j].indent
  }

  /** The container line `i` belongs to: that of the nearest earlier opening line of smaller indent
      with no line of equal or smaller indent in between, or the root. */
  predicate IsParent(lines: seq<Line>, i: nat, p: int)
    requires i < |lines|
  {
    && -1 <= p < i
    && (p >= 0 ==> OpenAt(lines, p, i) && lines[p].indent < lines[i].indent)
    && (forall j :: p < j < i ==> !(OpenAt(lines, j, i) && lines[j].indent < lines[i].indent))
  }

  function ParentUpTo(lines: seq<Line>, i: nat, n: nat): (p: int)
    requires n <= i < |lines|
    ensures -1 <= p < n
    ensures p >= 0 ==> OpenAt(lines, p, i) && lines[p].indent < lines[i].indent
    ensures forall j :: p < j < n ==> !(OpenAt(lines, j, i) && lines[j].indent < lines[i].indent)
  {
    if n == 0 then -1
    else if OpenAt(lines, n - 1, i) && lines[n - 1].indent < lines[i].indent then n - 1
    else ParentUpTo(lines, i, n - 1)
  }

  function Parent(lines: seq<Line>, i: nat): (p: int)
    requires i < |lines|
    ensures IsParent(lines, i, p)
  {
    ParentUpTo(lines, i, i)
  }

  // ---------------------------------------------------------------- the result

  datatype Container = Items(items: seq<Value>) | Entries(entries: map<string, Value>)
  {
    function With(key: Option<string>, value: Value): Container {
      match this
      case Items(items) => Items(items + [value])
      case Entries(entries) => if key.None? then this else Entries(entries[key.value := value])
    }
  }

  datatype Fault = InvalidItemPlacement | UnexpectedMapping | InvalidDate

  datatype Parse = Parsed(nodes: map<int, Container>) | Invalid(fault: Fault, at: nat)

  /** Why line `i` cannot be read, if it cannot. */
  function FaultOf(lines: seq<Line>, i: nat): Option<Fault>
    requires i < |lines|
  {
    var listed := IsList(lines, Parent(lines, i));
    if lines[i].item && !listed then Some(InvalidItemPlacement)
    else if !lines[i].item && listed then Some(UnexpectedMapping)
    else if !lines[i].Readable() then Some(InvalidDate)
    else None
  }

  /** The value line `i` puts into its parent. */
  function Put(lines: seq<Line>, i: nat): Value
    requires i < |lines|
  {
    if lines[i].Opens() || lines[i].value.None? then Ref(i) else lines[i].value.value
  }

  /** What a container holds at first; an item with a key holds that entry. */
  function Start(lines: seq<Line>, node: int): Container
    requires -1 <= node < |lines|
  {
    if node >= 0 && lines[node].item && lines[node].key.Some? && lines[node].value.Some? then
      Entries(map[lines[node].key.value := lines[node].value.value])
    else if IsList(lines, node) then Items([])
    else Entries(map[])
  }

  /** What a container holds after `n` lines: what it held at first, and what every line among them
      that belongs to it put into it, in order. */
  function Holding(lines: seq<Line>, node: int, n: nat): Container
    requires -1 <= node < |lines| && n <= |lines|
  {
    if n == 0 then Start(lines, node)
    else
      var before := Holding(lines, node, n - 1);
      if Parent(lines, n - 1) == node then before.With(lines[n - 1].key, Put(lines, n - 1)) else before
  }

  predicate IsNode(lines: seq<Line>, node: int, n: nat)
    requires n <= |lines|
  {
    node == -1 || (0 <= node < n && lines[node].Opens())
  }

  /** The containers after `n` lines are those that lines opened, and hold what belongs to them. */
  ghost predicate Nested(lines: seq<Line>, nodes: map<int, Container>, n: nat)
    requires n <= |lines|
  {
    && (forall c :: c in nodes <==> IsNode(lines, c, n))
    && (forall c :: c in nodes ==> nodes[c] == Holding(lines, c, n))
  }

  // ---------------------------------------------------------------- facts about the nesting

  lemma OneParent(lines: seq<Line>, i: nat, p: int, q: int)
    requires i < |lines| && IsParent(lines, i, p) && IsParent(lines, i, q)
    ensures p == q
  {
  }

  /** A container keeps its kind. */
  lemma {:induction false} HoldingKind(lines: seq<Line>, node: int, n: nat)
    requires -1 <= node < |lines| && n <= |lines|
    ensures Holding(lines, node, n).Items? <==> IsList(lines, node)
  {
    if n > 0 { HoldingKind(lines, node, n - 1); }
  }

  /** Nothing is put into a container before its line. */
  lemma {:induction false} HoldingFresh(lines: seq<Line>, node: nat, n: nat)
    requires n <= node + 1 && node < |lines|
    ensures Holding(lines, node, n) == Start(lines, node)
  {
    if n > 0 { HoldingFresh(lines, node, n - 1); }
  }

  /** Writing a line into its parent, and opening its own container. */
  function Written(lines: seq<Line>, nodes: map<int, Container>, i: nat, p: int): map<int, Container>
    requires i < |lines| && p in nodes
  {
    var written := nodes[p := nodes[p].With(lines[i].key, Put(lines, i))];
    if lines[i].Opens() then written[i := Start(lines, i)] else written
  }

  lemma WrittenNodes(lines: seq<Line>, nodes: map<int, Container>, i: nat, p: int)
    requires i < |lines| && p in nodes && forall c :: c in nodes <==> IsNode(lines, c, i)
    ensures forall c :: c in Written(lines, nodes, i, p) <==> IsNode(lines, c, i + 1)
  {
  }

  lemma WrittenHolding(lines: seq<Line>, nodes: map<int, Container>, i: nat, c: int)
    requires i < |lines| && Nested(lines, nodes, i) && Parent(lines, i) in nodes
    requires IsNode(lines, c, i + 1) && c in Written(lines, nodes, i, Parent(lines, i))
    ensures Written(lines, nodes, i, Parent(lines, i))[c] == Holding(lines, c, i + 1)
  {
    if c == i { HoldingFresh(lines, i, i + 1); }
  }

  lemma NestedStep(lines: seq<Line>, nodes: map<int, Container>, i: nat)
    requires i < |lines| && Nested(lines, nodes, i)
    ensures var p := Parent(lines, i);
            && p in nodes && (nodes[p].Items? <==> IsList(lines, p))
            && Nested(lines, Written(lines, nodes, i, p), i + 1)
  {
    var p := Parent(lines, i);
    assert IsNode(lines, p, i);
    HoldingKind(lines, p, i);
    WrittenNodes(lines, nodes, i, p);
    forall c | c in Written(lines, nodes, i, p)
      ensures Written(lines, nodes, i, p)[c] == Holding(lines, c, i + 1)
    {
      WrittenHolding(lines, nodes, i, c);
    }
  }

  // ---------------------------------------------------------------- the parser

  datatype Frame = Frame(indent: int, node: int)

  /** The stack before line `i`: the root, and on it containers still open, in order. */
  ghost predicate StackOk(lines: seq<Line>, stack: seq<Frame>, i: nat)
    requires i <= |lines|
  {
    && stack != [] && stack[0] == Frame(-1, -1)
    && (forall s :: 0 < s < |stack| ==> OpenAt(lines, stack[s].node, i) && stack[s].indent == lines[stack[s].node].indent)
    && (forall s, t :: 0 <= s < t < |stack| ==> stack[s].indent < stack[t].indent && stack[s].node < stack[t].node)
  }

  predicate Stacked(stack: seq<Frame>, node: int) {
    exists s :: 0 < s < |stack| && stack[s].node == node
  }

  /** Every open container whose line is less deep than line `i` is on the stack. */
  ghost predicate Complete(lines: seq<Line>, stack: seq<Frame>, i: nat)
    requires i < |lines|
  {
    forall j :: OpenAt(lines, j, i) && lines[j].indent < lines[i].indent ==> Stacked(stack, j)
  }

  ghost predicate AllOpen(lines: seq<Line>, stack: seq<Frame>, i: nat)
    requires i <= |lines|
  {
    forall j :: 0 <= j < i && OpenAt(lines, j, i) ==> Stacked(stack, j)
  }

  lemma PopKeeps(lines: seq<Line>, stack: seq<Frame>, i: nat)
    requires i < |lines| && StackOk(lines, stack, i) && Complete(lines, stack, i)
    requires |stack| > 1 && lines[i].indent <= stack[|stack| - 1].indent
    ensures StackOk(lines, stack[..|stack| - 1], i) && Complete(lines, stack[..|stack| - 1], i)
  {
    var popped := stack[..|stack| - 1];
    forall j | OpenAt(lines, j, i) && lines[j].indent < lines[i].indent
      ensures Stacked(popped, j)
    {
      var s :| 0 < s < |stack| && stack[s].node == j;
      assert popped[s].node == j;
    }
  }

  /** With everything as deep as the line popped, the top of the stack is its parent. */
  lemma TopIsParent(lines: seq<Line>, stack: seq<Frame>, i: nat)
    requires i < |lines| && StackOk(lines, stack, i) && Complete(lines, stack, i)
    requires stack[|stack| - 1].indent < lines[i].indent
    ensures stack[|stack| - 1].node == Parent(lines, i)
  {
    var top := stack[|stack| - 1].node;
    forall j | OpenAt(lines, j, i) && lines[j].indent < lines[i].indent
      ensures j <= top
    {
      StackedBelowTop(lines, stack, i, j);
    }
    OneParent(lines, i, top, Parent(lines, i));
  }

  lemma StackedBelowTop(lines: seq<Line>, stack: seq<Frame>, i: nat, node: int)
    requires i <= |lines| && StackOk(lines, stack, i) && Stacked(stack, node)
    ensures node <= stack[|stack| - 1].node
  {
  }

  /** The stack after line `i`. */
  function Pushed(lines: seq<Line>, stack: seq<Frame>, i: nat): seq<Frame>
    requires i < |lines|
  {
    if lines[i].Opens() then stack + [Frame(lines[i].indent, i)] else stack
  }

  lemma StillOpen(lines: seq<Line>, j: int, i: nat)
    requires i < |lines|
    ensures OpenAt(lines, j, i + 1) <==>
            (j == i && lines[i].Opens()) || (OpenAt(lines, j, i) && lines[j].indent < lines[i].indent)
  {
  }

  lemma PushKeepsOrder(lines: seq<Line>, stack: seq<Frame>, i: nat)
    requires i < |lines| && StackOk(lines, stack, i) && stack[|stack| - 1].indent < lines[i].indent
    ensures StackOk(lines, Pushed(lines, stack, i), i + 1)
  {
    forall s | 0 < s < |stack|
      ensures OpenAt(lines, stack[s].node, i + 1)
    {
      assert stack[s].indent <= stack[|stack| - 1].indent;
      StillOpen(lines, stack[s].node, i);
    }
  }

  lemma PushKeepsAll(lines: seq<Line>, stack: seq<Frame>, i: nat)
    requires i < |lines| && Complete(lines, stack, i) && stack != []
    ensures AllOpen(lines, Pushed(lines, stack, i), i + 1)
  {
    var after := Pushed(lines, stack, i);
    forall j | 0 <= j < i + 1 && OpenAt(lines, j, i + 1)
      ensures Stacked(after, j)
    {
      StillOpen(lines, j, i);
      if j == i {
        assert after[|stack|].node == i;
      } else {
        var s :| 0 < s < |stack| && stack[s].node == j;
        assert after[s].node == j;
      }
    }
  }

  /** What `parse_policy_file` does with a line whose parent it has found. */
  method PlaceLine(ghost lines: seq<Line>, line: Line, i: nat, parent: int, listed: bool, nodes: map<int, Container>)
    returns (r: map<int, Container>, fault: Option<Fault>)
    requires i < |lines| && line == lines[i] && Nested(lines, nodes, i) && parent == Parent(lines, i)
    requires listed == (i + 1 < |lines| && lines[i + 1].indent > line.indent && lines[i + 1].item)
    requires line.item || line.key.Some?
    ensures fault == FaultOf(lines, i)
    ensures fault.None? ==> Nested(lines, r, i + 1)
  {
    NestedStep(lines, nodes, i);
    r, fault := nodes, None;
    if line.item {
      if !nodes[parent].Items? {
        return nodes, Some(InvalidItemPlacement);
      }
      if line.value.None? {
        return nodes, Some(InvalidDate);
      }
      if line.key.Some? {
        r := nodes[parent := Items(nodes[parent].items + [Ref(i)])][i := Entries(map[line.key.value := line.value.value])];
      } else {
        r := nodes[parent := Items(nodes[parent].items + [line.value.value])];
      }
    } else {
      if nodes[parent].Items? {
        return nodes, Some(UnexpectedMapping);
      }
      var key := line.key.value;
      if line.blank {
        r := nodes[parent := Entries(nodes[parent].entries[key := Ref(i)])][i := if listed then Items([]) else Entries(map[])];
      } else {
        if line.value.None? {
          return nodes, Some(InvalidDate);
        }
        r := nodes[parent := Entries(nodes[parent].entries[key := line.value.value])];
      }
    }
  }

  /** The inner loop: pops every container at least as deep as the line. */
  method PopDeeper(ghost lines: seq<Line>, indent: nat, i: nat, frames: seq<Frame>) returns (stack: seq<Frame>)
    requires i < |lines| && indent == lines[i].indent && StackOk(lines, frames, i) && AllOpen(lines, frames, i)
    ensures StackOk(lines, stack, i) && Complete(lines, stack, i)
    ensures stack[|stack| - 1].indent < indent && stack[|stack| - 1].node == Parent(lines, i)
  {
    stack := frames;
    while |stack| > 1 && indent <= stack[|stack| - 1].indent
      invariant StackOk(lines, stack, i) && Complete(lines, stack, i)
    {
      PopKeeps(lines, stack, i);
      stack := stack[..|stack| - 1];
    }
    TopIsParent(lines, stack, i);
  }

  /** The first `n` lines can be read. */
  ghost predicate Sound(lines: seq<Line>, n: nat)
    requires n <= |lines|
  {
    forall i :: 0 <= i < n ==> FaultOf(lines, i).None?
  }

  /** A parse is right: it has the declared nesting, or fails at the first line that is at fault. */
  ghost predicate Right(lines: seq<Line>, r: Parse) {
    match r
    case Parsed(nodes) => Nested(lines, nodes, |lines|) && Sound(lines, |lines|)
    case Invalid(fault, at) => at < |lines| && FaultOf(lines, at) == Some(fault) && Sound(lines, at)
  }

  lemma OneMoreSound(lines: seq<Line>, i: nat)
    requires i < |lines| && Sound(lines, i) && FaultOf(lines, i).None?
    ensures Sound(lines, i + 1)
  {
  }

  lemma NothingRead(lines: seq<Line>)
    ensures Nested(lines, map[-1 := Entries(map[])], 0)
    ensures StackOk(lines, [Frame(-1, -1)], 0) && AllOpen(lines, [Frame(-1, -1)], 0)
  {
  }

  /** `parse_policy_file`, line by line. The result holds the containers of the declared nesting; it
      fails at the first line that cannot be placed, and only then. */
  method ParseLines(lines: seq<Line>) returns (r: Parse)
    requires forall i :: 0 <= i < |lines| ==> lines[i].item || lines[i].key.Some?
    ensures Right(lines, r)
  {
    var nodes: map<int, Container> := map[-1 := Entries(map[])];
    var stack := [Frame(-1, -1)];
    NothingRead(lines);
    for i := 0 to |lines|
      invariant Nested(lines, nodes, i)
      invariant StackOk(lines, stack, i) && AllOpen(lines, stack, i)
      invariant Sound(lines, i)
    {
      stack := PopDeeper(lines, lines[i].indent, i, stack);
      var listed := i + 1 < |lines| && lines[i + 1].indent > lines[i].indent && lines[i + 1].item;
      var fault;
      nodes, fault := PlaceLine(lines, lines[i], i, stack[|stack| - 1].node, listed, nodes);
      if fault.Some? {
        return Invalid(fault.value, i);
      }
      OneMoreSound(lines, i);
      PushKeepsOrder(lines, stack, i);
      PushKeepsAll(lines, stack, i);
      if lines[i].Opens() {
        stack := stack + [Frame(lines[i].indent, i)];
      }
    }
    r := Parsed(nodes);
  }

  /** `parse_policy_file`: comments and blank lines dropped, the rest parsed. */
  method ParsePolicyFile(text: seq<string>) returns (r: Parse)
    ensures Right(Kept(text), r)
  {
    var kept: seq<Line> := [];
    for i := 0 to |text|
      invariant kept == Kept(text[..i])
    {
      assert text[..i + 1][..i] == text[..i];
      var line := StripComment(text[i]);
      if Strip(line) != "" {
        kept := kept + [Read(line)];
      }
    }
    assert text[..|text|] == text;
    r := ParseLines(kept);
  }
}
