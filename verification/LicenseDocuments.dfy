/** Documents and their lines: a document of nested mappings and lists, written with two blanks of indent a
    level, is read back as that document.
  */
module LicenseDocuments {
  import opened Options
  import opened LicenseParser

  // ---------------------------------------------------------------- documents

  /** What a policy file can say. An item of a list is a single value, or a mapping that starts with a
      single one. */
  datatype Doc = Leaf(value: Value) | Dict(entries: seq<Entry>) | Listing(items: seq<Item>)

  datatype Entry = Entry(key: string, doc: Doc)

  datatype Item = Single(value: Value) | Record(key: string, value: Value, more: seq<Entry>)

  predicate Fresh(entries: seq<Entry>, key: string) {
    forall e :: e in entries ==> e.key != key
  }

  /** No key twice, and no empty list. */
  predicate DocOk(doc: Doc)
    decreases doc, 0
  {
    match doc
    case Leaf(value) => true
    case Dict(entries) => EntriesOk(entries)
    case Listing(items) => items != [] && ItemsOk(items)
  }

  predicate EntriesOk(entries: seq<Entry>)
    decreases entries, 1
  {
    entries == []
    || var n := |entries| - 1;
       EntriesOk(entries[..n]) && Fresh(entries[..n], entries[n].key) && DocOk(entries[n].doc)
  }

  predicate ItemsOk(items: seq<Item>)
    decreases items, 1
  {
    items == []
    || var n := |items| - 1;
       ItemsOk(items[..n]) && (items[n].Record? ==> EntriesOk(items[n].more) && Fresh(items[n].more, items[n].key))
  }

  // ---------------------------------------------------------------- written as lines

  /** A line that opens the container of its key. */
  function Header(indent: nat, key: string): Line {
    Line(indent, false, Some(key), true, Some(Text("")))
  }

  function EntryLines(e: Entry, indent: nat): (lines: seq<Line>)
    ensures lines != []
    decreases e, 0
  {
    match e.doc
    case Leaf(value) => [Line(indent, false, Some(e.key), false, Some(value))]
    case Dict(entries) => [Header(indent, e.key)] + EntriesLines(entries, indent + 2)
    case Listing(items) => [Header(indent, e.key)] + ItemsLines(items, indent + 2)
  }

  function EntriesLines(entries: seq<Entry>, indent: nat): seq<Line>
    decreases entries, 1
  {
    if entries == [] then []
    else EntriesLines(entries[..|entries| - 1], indent) + EntryLines(entries[|entries| - 1], indent)
  }

  function ItemLines(item: Item, indent: nat): (lines: seq<Line>)
    ensures lines != []
    decreases item, 0
  {
    match item
    case Single(value) => [Line(indent, true, None, false, Some(value))]
    case Record(key, value, more) => [Line(indent, true, Some(key), false, Some(value))] + EntriesLines(more, indent + 2)
  }

  function ItemsLines(items: seq<Item>, indent: nat): seq<Line>
    decreases items, 1
  {
    if items == [] then [] else ItemsLines(items[..|items| - 1], indent) + ItemLines(items[|items| - 1], indent)
  }

  predicate Deep(lines: seq<Line>, indent: nat) {
    forall i :: 0 <= i < |lines| ==> lines[i].indent >= indent
  }

  lemma {:induction false} EntriesDeep(entries: seq<Entry>, indent: nat)
    ensures Deep(EntriesLines(entries, indent), indent)
    ensures entries != [] ==> EntriesLines(entries, indent) != [] && EntriesLines(entries, indent)[0].indent == indent
                              && !EntriesLines(entries, indent)[0].item
    decreases entries, 1
  {
    if entries != [] {
      EntriesDeep(entries[..|entries| - 1], indent);
      EntryDeep(entries[|entries| - 1], indent);
    }
  }

  lemma {:induction false} EntryDeep(e: Entry, indent: nat)
    ensures Deep(EntryLines(e, indent), indent) && EntryLines(e, indent)[0].indent == indent && !EntryLines(e, indent)[0].item
    decreases e, 0
  {
    match e.doc
    case Leaf(_) =>
    case Dict(entries) => EntriesDeep(entries, indent + 2);
    case Listing(items) => ItemsDeep(items, indent + 2);
  }

  lemma {:induction false} ItemsDeep(items: seq<Item>, indent: nat)
    ensures Deep(ItemsLines(items, indent), indent)
    ensures items != [] ==> ItemsLines(items, indent) != [] && ItemsLines(items, indent)[0].indent == indent
                            && ItemsLines(items, indent)[0].item
    decreases items, 1
  {
    if items != [] {
      ItemsDeep(items[..|items| - 1], indent);
      ItemDeep(items[|items| - 1], indent);
    }
  }

  lemma {:induction false} ItemDeep(item: Item, indent: nat)
    ensures Deep(ItemLines(item, indent), indent) && ItemLines(item, indent)[0].indent == indent && ItemLines(item, indent)[0].item
    decreases item, 0
  {
    if item.Record? { EntriesDeep(item.more, indent + 2); }
  }

  // ---------------------------------------------------------------- what containers say

  /** What a container holds in the end. */
  function Final(lines: seq<Line>, node: int): Container
    requires -1 <= node < |lines|
  {
    Holding(lines, node, |lines|)
  }

  /** The value, as the lines mean it, is the document. */
  predicate Means(lines: seq<Line>, value: Value, doc: Doc)
    decreases doc, 0
  {
    match doc
    case Leaf(v) => value == v
    case Dict(entries) =>
      value.Ref? && value.line < |lines| && lines[value.line].Opens()
      && Final(lines, value.line).Entries? && MeansEntries(lines, Final(lines, value.line).entries, entries)
    case Listing(items) =>
      value.Ref? && value.line < |lines| && lines[value.line].Opens()
      && Final(lines, value.line).Items? && MeansItems(lines, Final(lines, value.line).items, items)
  }

  predicate MeansEntries(lines: seq<Line>, m: map<string, Value>, entries: seq<Entry>)
    decreases entries, 1
  {
    if entries == [] then m == map[]
    else
      var n := |entries| - 1;
      var key := entries[n].key;
      key in m && Means(lines, m[key], entries[n].doc) && MeansEntries(lines, m - {key}, entries[..n])
  }

  predicate MeansItems(lines: seq<Line>, values: seq<Value>, items: seq<Item>)
    decreases items, 1
  {
    if items == [] then values == []
    else
      var n := |items| - 1;
      |values| == n + 1 && MeansItems(lines, values[..n], items[..n]) && MeansItem(lines, values[n], items[n])
  }

  predicate MeansItem(lines: seq<Line>, value: Value, item: Item)
    decreases item, 0
  {
    match item
    case Single(v) => value == v
    case Record(key, v, more) =>
      value.Ref? && value.line < |lines| && lines[value.line].Opens() && Final(lines, value.line).Entries?
      && var m := Final(lines, value.line).entries;
         key in m && m[key] == v && MeansEntries(lines, m - {key}, more)
  }

  // ---------------------------------------------------------------- regions of a file

  /** Lines `a` to `b` belong to container `c` or to containers inside it, at depth `d` or deeper. */
  ghost predicate Region(lines: seq<Line>, a: nat, b: nat, c: int, d: nat) {
    && -1 <= c < a <= b <= |lines|
    && (forall k :: c < k < b ==> lines[k].indent >= d)
    && (c >= 0 ==> lines[c].Opens() && lines[c].indent < d)
  }

  /** After line `b` nothing belongs to what was opened at depth `d` or deeper. */
  ghost predicate Over(lines: seq<Line>, b: nat, d: nat) {
    b <= |lines| && (b < |lines| ==> lines[b].indent <= d)
  }

  lemma ParentInRegion(lines: seq<Line>, a: nat, b: nat, c: int, d: nat, i: nat)
    requires Region(lines, a, b, c, d) && a <= i < b && lines[i].indent == d
    ensures Parent(lines, i) == c
  {
    OneParent(lines, i, Parent(lines, i), c);
  }

  /** Lines inside container `h` belong to it or to a later one. */
  lemma ParentInside(lines: seq<Line>, a: nat, b: nat, h: nat, d: nat, i: nat)
    requires Region(lines, a, b, h, d) && a <= i < b
    ensures Parent(lines, i) >= h
  {
    assert OpenAt(lines, h, i) && lines[h].indent < lines[i].indent;
  }

  /** Behind its region a container gets nothing more. */
  lemma ParentBehind(lines: seq<Line>, b: nat, h: nat, i: nat)
    requires h < b <= i < |lines| && lines[b].indent <= lines[h].indent
    ensures Parent(lines, i) != h
  {
  }

  lemma {:induction false} HoldingStays(lines: seq<Line>, c: int, n: nat, m: nat)
    requires -1 <= c < |lines| && n <= m <= |lines|
    requires forall i :: n <= i < m ==> Parent(lines, i) != c
    ensures Holding(lines, c, m) == Holding(lines, c, n)
  {
    if n < m { HoldingStays(lines, c, n, m - 1); }
  }

  lemma FinalHolding(lines: seq<Line>, h: nat, b: nat)
    requires h < b <= |lines| && Over(lines, b, lines[h].indent)
    ensures Final(lines, h) == Holding(lines, h, b)
  {
    forall i | b <= i < |lines|
      ensures Parent(lines, i) != h
    {
      ParentBehind(lines, b, h, i);
    }
    HoldingStays(lines, h, b, |lines|);
  }

  ghost predicate NoFaults(lines: seq<Line>, a: nat, b: nat) {
    b <= |lines| && forall i :: a <= i < b ==> FaultOf(lines, i) == None
  }

  lemma NoFaultsJoin(lines: seq<Line>, a: nat, mid: nat, b: nat)
    requires a <= mid <= b && NoFaults(lines, a, mid) && NoFaults(lines, mid, b)
    ensures NoFaults(lines, a, b)
  {
  }

  /** Where the lines of the file are those of a document. */
  ghost predicate At(lines: seq<Line>, a: nat, part: seq<Line>) {
    a + |part| <= |lines| && lines[a..a + |part|] == part
  }

  lemma AtSplits(lines: seq<Line>, a: nat, x: seq<Line>, y: seq<Line>)
    requires At(lines, a, x + y)
    ensures At(lines, a, x) && At(lines, a + |x|, y)
  {
    assert lines[a..a + |x|] == lines[a..a + |x + y|][..|x|];
    assert lines[a + |x|..a + |x| + |y|] == lines[a..a + |x + y|][|x|..];
  }

  lemma AtFirst(lines: seq<Line>, a: nat, part: seq<Line>)
    requires At(lines, a, part) && part != []
    ensures a < |lines| && lines[a] == part[0]
  {
    assert lines[a..a + |part|][0] == lines[a];
  }

  lemma AtDeep(lines: seq<Line>, a: nat, part: seq<Line>, d: nat)
    requires At(lines, a, part) && Deep(part, d)
    ensures forall k :: a <= k < a + |part| ==> lines[k].indent >= d
  {
    forall k | a <= k < a + |part|
      ensures lines[k].indent >= d
    {
      assert lines[k] == lines[a..a + |part|][k - a] == part[k - a];
    }
  }

  // ---------------------------------------------------------------- reading a document back

  /** The container went from `before` to `after` by the entries. */
  ghost predicate Gained(lines: seq<Line>, before: Container, after: Container, entries: seq<Entry>) {
    && before.Entries? && after.Entries?
    && (forall k :: k in before.entries ==> k in after.entries && after.entries[k] == before.entries[k])
    && MeansEntries(lines, after.entries - before.entries.Keys, entries)
  }

  ghost predicate NoneIn(entries: seq<Entry>, c: Container) {
    c.Entries? && forall e :: e in entries ==> e.key !in c.entries
  }

  lemma GainedNothing(lines: seq<Line>, c: Container)
    requires c.Entries?
    ensures Gained(lines, c, c, [])
  {
    assert c.entries - c.entries.Keys == map[];
  }

  lemma GainedOne(lines: seq<Line>, before: Container, mid: Container, entries: seq<Entry>, value: Value)
    requires entries != [] && EntriesOk(entries) && NoneIn(entries, before)
    requires Gained(lines, before, mid, entries[..|entries| - 1])
    requires Means(lines, value, entries[|entries| - 1].doc)
    ensures Gained(lines, before, Entries(mid.entries[entries[|entries| - 1].key := value]), entries)
  {
    var n := |entries| - 1;
    var key, known := entries[n].key, before.entries.Keys;
    GainedKeys(lines, mid.entries - known, entries[..n]);
    var m := mid.entries[key := value];
    assert entries[n] in entries;
    assert key !in mid.entries - known;
    assert m - known - {key} == mid.entries - known;
  }

  /** The keys of a mapping are those of its entries. */
  lemma {:induction false} GainedKeys(lines: seq<Line>, m: map<string, Value>, entries: seq<Entry>)
    requires MeansEntries(lines, m, entries)
    ensures forall k :: k in m <==> exists e :: e in entries && e.key == k
  {
    if entries != [] {
      var n := |entries| - 1;
      GainedKeys(lines, m - {entries[n].key}, entries[..n]);
      assert entries == entries[..n] + [entries[n]];
      forall k
        ensures k in m <==> exists e :: e in entries && e.key == k
      {
        if k in m && k != entries[n].key {
          assert k in m - {entries[n].key};
          var e :| e in entries[..n] && e.key == k;
          assert e in entries;
        }
        if e :| e in entries && e.key == k {
          assert e in entries[..n] || e == entries[n];
          if e in entries[..n] { assert k in m - {entries[n].key}; }
        }
      }
    }
  }

  lemma {:induction false} EntriesRead(lines: seq<Line>, entries: seq<Entry>, a: nat, b: nat, c: int, d: nat)
    requires EntriesOk(entries) && At(lines, a, EntriesLines(entries, d)) && b == a + |EntriesLines(entries, d)|
    requires Region(lines, a, b, c, d) && Over(lines, b, d) && c < |lines| && !IsList(lines, c)
    requires NoneIn(entries, Holding(lines, c, a))
    ensures NoFaults(lines, a, b) && Gained(lines, Holding(lines, c, a), Holding(lines, c, b), entries)
    decreases entries, 1
  {
    if entries == [] {
      GainedNothing(lines, Holding(lines, c, a));
    } else {
      var n := |entries| - 1;
      var front := entries[..n];
      var mid := EntriesSplit(lines, entries, a, b, c, d);
      assert NoneIn(front, Holding(lines, c, a)) by { assert forall e :: e in front ==> e in entries; }
      EntriesRead(lines, front, a, mid, c, d);
      var value := EntryRead(lines, entries[n], mid, b, c, d);
      GainedOne(lines, Holding(lines, c, a), Holding(lines, c, mid), entries, value);
    }
  }

  /** Where the last entry begins. */
  lemma EntriesSplit(lines: seq<Line>, entries: seq<Entry>, a: nat, b: nat, c: int, d: nat) returns (mid: nat)
    requires entries != [] && At(lines, a, EntriesLines(entries, d)) && b == a + |EntriesLines(entries, d)|
    requires Region(lines, a, b, c, d)
    ensures var front, last := entries[..|entries| - 1], entries[|entries| - 1];
            && At(lines, a, EntriesLines(front, d)) && mid == a + |EntriesLines(front, d)|
            && At(lines, mid, EntryLines(last, d)) && b == mid + |EntryLines(last, d)|
    ensures Region(lines, a, mid, c, d) && Over(lines, mid, d) && Region(lines, mid, b, c, d)
  {
    var front, last := EntriesLines(entries[..|entries| - 1], d), EntryLines(entries[|entries| - 1], d);
    mid := a + |front|;
    AtSplits(lines, a, front, last);
    EntryDeep(entries[|entries| - 1], d);
    AtFirst(lines, mid, last);
  }

  /** One line is read into its container. */
  lemma LineRead(lines: seq<Line>, a: nat, b: nat, c: int, d: nat)
    requires Region(lines, a, b, c, d) && a < b && lines[a].indent == d && lines[a].value.Some?
    requires c < |lines| && (lines[a].item <==> IsList(lines, c))
    ensures FaultOf(lines, a) == None
    ensures Holding(lines, c, a + 1)
            == Holding(lines, c, a).With(lines[a].key, if lines[a].Opens() then Ref(a) else lines[a].value.value)
  {
    ParentInRegion(lines, a, b, c, d, a);
  }

  /** What the lines inside a container do does not reach the one around it. */
  lemma InnerStays(lines: seq<Line>, a: nat, b: nat, c: int, d: nat)
    requires c < a && -1 <= c && Region(lines, a + 1, b, a, d)
    ensures Holding(lines, c, b) == Holding(lines, c, a + 1)
  {
    forall i | a + 1 <= i < b
      ensures Parent(lines, i) != c
    {
      ParentInside(lines, a + 1, b, a, d, i);
    }
    HoldingStays(lines, c, a + 1, b);
  }

  lemma {:induction false} EntryRead(lines: seq<Line>, e: Entry, a: nat, b: nat, c: int, d: nat) returns (value: Value)
    requires DocOk(e.doc) && At(lines, a, EntryLines(e, d)) && b == a + |EntryLines(e, d)|
    requires Region(lines, a, b, c, d) && Over(lines, b, d) && c < |lines| && !IsList(lines, c)
    requires Holding(lines, c, a).Entries?
    ensures NoFaults(lines, a, b) && Means(lines, value, e.doc)
    ensures Holding(lines, c, b) == Entries(Holding(lines, c, a).entries[e.key := value])
    decreases e, 0
  {
    match e.doc {
      case Leaf(v) =>
        value := v;
        LeafRead(lines, e.key, v, a, b, c, d);
      case Dict(entries) =>
        value := Ref(a);
        DictRead(lines, e.key, entries, a, b, c, d);
        HeaderRead(lines, e.key, EntriesLines(entries, d + 2), a, b, c, d);
      case Listing(items) =>
        value := Ref(a);
        ListingRead(lines, e.key, items, a, b, c, d);
        HeaderRead(lines, e.key, ItemsLines(items, d + 2), a, b, c, d);
    }
  }

  lemma LeafRead(lines: seq<Line>, key: string, v: Value, a: nat, b: nat, c: int, d: nat)
    requires At(lines, a, [Line(d, false, Some(key), false, Some(v))]) && b == a + 1
    requires Region(lines, a, b, c, d) && c < |lines| && !IsList(lines, c) && Holding(lines, c, a).Entries?
    ensures NoFaults(lines, a, b) && Holding(lines, c, b) == Entries(Holding(lines, c, a).entries[key := v])
  {
    AtFirst(lines, a, [Line(d, false, Some(key), false, Some(v))]);
    LineRead(lines, a, b, c, d);
  }

  lemma HeaderRead(lines: seq<Line>, key: string, inner: seq<Line>, a: nat, b: nat, c: int, d: nat)
    requires At(lines, a, [Header(d, key)] + inner) && a < b
    requires Region(lines, a, b, c, d) && c < |lines| && !IsList(lines, c) && Holding(lines, c, a).Entries?
    requires NoFaults(lines, a + 1, b)
    ensures NoFaults(lines, a, b) && Holding(lines, c, a + 1) == Entries(Holding(lines, c, a).entries[key := Ref(a)])
  {
    AtFirst(lines, a, [Header(d, key)] + inner);
    LineRead(lines, a, b, c, d);
  }

  /** The lines inside a container that line `a` opens. */
  lemma InnerRegion(lines: seq<Line>, a: nat, b: nat, c: int, d: nat, opening: Line, part: seq<Line>)
    requires Region(lines, a, b, c, d) && At(lines, a, [opening] + part) && b == a + |[opening] + part|
    requires opening.Opens() && opening.indent == d && Deep(part, d + 2)
    ensures lines[a] == opening && At(lines, a + 1, part) && b == a + 1 + |part|
    ensures Region(lines, a + 1, b, a, d + 2) && Holding(lines, c, b) == Holding(lines, c, a + 1)
    ensures Holding(lines, a, a + 1) == Start(lines, a)
    ensures part != [] ==> lines[a + 1] == part[0]
  {
    AtFirst(lines, a, [opening] + part);
    AtSplits(lines, a, [opening], part);
    AtDeep(lines, a + 1, part, d + 2);
    InnerStays(lines, a, b, c, d + 2);
    HoldingFresh(lines, a, a + 1);
    if part != [] { AtFirst(lines, a + 1, part); }
  }

  lemma {:induction false} DictRead(lines: seq<Line>, key: string, entries: seq<Entry>, a: nat, b: nat, c: int, d: nat)
    requires EntriesOk(entries)
    requires At(lines, a, [Header(d, key)] + EntriesLines(entries, d + 2)) && b == a + |[Header(d, key)] + EntriesLines(entries, d + 2)|
    requires Region(lines, a, b, c, d) && Over(lines, b, d)
    ensures a < |lines| && NoFaults(lines, a + 1, b) && Holding(lines, c, b) == Holding(lines, c, a + 1)
    ensures Means(lines, Ref(a), Dict(entries))
    decreases entries, 2
  {
    EntriesDeep(entries, d + 2);
    InnerRegion(lines, a, b, c, d, Header(d, key), EntriesLines(entries, d + 2));
    EntriesRead(lines, entries, a + 1, b, a, d + 2);
    FinalHolding(lines, a, b);
    GainedFromNothing(lines, Holding(lines, a, b), entries);
  }

  lemma {:induction false} ListingRead(lines: seq<Line>, key: string, items: seq<Item>, a: nat, b: nat, c: int, d: nat)
    requires items != [] && ItemsOk(items)
    requires At(lines, a, [Header(d, key)] + ItemsLines(items, d + 2)) && b == a + |[Header(d, key)] + ItemsLines(items, d + 2)|
    requires Region(lines, a, b, c, d) && Over(lines, b, d)
    ensures a < |lines| && NoFaults(lines, a + 1, b) && Holding(lines, c, b) == Holding(lines, c, a + 1)
    ensures Means(lines, Ref(a), Listing(items))
    decreases items, 2
  {
    ItemsDeep(items, d + 2);
    InnerRegion(lines, a, b, c, d, Header(d, key), ItemsLines(items, d + 2));
    var values := ItemsRead(lines, items, a + 1, b, a, d + 2, []);
    FinalHolding(lines, a, b);
    assert [] + values == values;
  }

  lemma GainedFromNothing(lines: seq<Line>, c: Container, entries: seq<Entry>)
    requires Gained(lines, Entries(map[]), c, entries)
    ensures MeansEntries(lines, c.entries, entries)
  {
    var nothing: map<string, Value> := map[];
    assert c.entries - nothing.Keys == c.entries;
  }

  lemma {:induction false} ItemsRead(lines: seq<Line>, items: seq<Item>, a: nat, b: nat, h: nat, d: nat, before: seq<Value>)
    returns (values: seq<Value>)
    requires ItemsOk(items) && At(lines, a, ItemsLines(items, d)) && b == a + |ItemsLines(items, d)|
    requires Region(lines, a, b, h, d) && Over(lines, b, d) && IsList(lines, h)
    requires Holding(lines, h, a) == Items(before)
    ensures NoFaults(lines, a, b) && Holding(lines, h, b) == Items(before + values) && MeansItems(lines, values, items)
    decreases items, 1
  {
    if items == [] {
      values := [];
      assert before + [] == before;
    } else {
      var n := |items| - 1;
      var mid := ItemsSplit(lines, items, a, b, h, d);
      var first := ItemsRead(lines, items[..n], a, mid, h, d, before);
      var value := ItemRead(lines, items[n], mid, b, h, d, before + first);
      values := first + [value];
      PushedLast(before, first, value);
      ItemsPush(lines, first, value, items);
      NoFaultsJoin(lines, a, mid, b);
    }
  }

  /** Where the last item begins. */
  lemma ItemsSplit(lines: seq<Line>, items: seq<Item>, a: nat, b: nat, h: nat, d: nat) returns (mid: nat)
    requires items != [] && At(lines, a, ItemsLines(items, d)) && b == a + |ItemsLines(items, d)|
    requires Region(lines, a, b, h, d)
    ensures var front, last := items[..|items| - 1], items[|items| - 1];
            && At(lines, a, ItemsLines(front, d)) && mid == a + |ItemsLines(front, d)|
            && At(lines, mid, ItemLines(last, d)) && b == mid + |ItemLines(last, d)|
    ensures Region(lines, a, mid, h, d) && Over(lines, mid, d) && Region(lines, mid, b, h, d)
  {
    var front, last := ItemsLines(items[..|items| - 1], d), ItemLines(items[|items| - 1], d);
    mid := a + |front|;
    AtSplits(lines, a, front, last);
    ItemDeep(items[|items| - 1], d);
    AtFirst(lines, mid, last);
  }

  lemma PushedLast(before: seq<Value>, values: seq<Value>, value: Value)
    ensures before + values + [value] == before + (values + [value])
  {
  }

  lemma ItemsPush(lines: seq<Line>, values: seq<Value>, value: Value, items: seq<Item>)
    requires items != [] && MeansItems(lines, values, items[..|items| - 1]) && MeansItem(lines, value, items[|items| - 1])
    ensures MeansItems(lines, values + [value], items)
  {
    FrontItems(lines, values, items[..|items| - 1]);
    assert (values + [value])[..|values|] == values;
  }

  lemma {:induction false} FrontItems(lines: seq<Line>, values: seq<Value>, items: seq<Item>)
    requires MeansItems(lines, values, items)
    ensures |values| == |items|
  {
    if items != [] { FrontItems(lines, values[..|values| - 1], items[..|items| - 1]); }
  }

  lemma {:induction false} ItemRead(lines: seq<Line>, item: Item, a: nat, b: nat, h: nat, d: nat, before: seq<Value>)
    returns (value: Value)
    requires item.Record? ==> EntriesOk(item.more) && Fresh(item.more, item.key)
    requires At(lines, a, ItemLines(item, d)) && b == a + |ItemLines(item, d)|
    requires Region(lines, a, b, h, d) && Over(lines, b, d) && IsList(lines, h)
    requires Holding(lines, h, a) == Items(before)
    ensures NoFaults(lines, a, b) && Holding(lines, h, b) == Items(before + [value]) && MeansItem(lines, value, item)
    decreases item, 1
  {
    if item.Single? {
      value := item.value;
      SingleRead(lines, value, a, b, h, d, before);
    } else {
      value := Ref(a);
      RecordItemRead(lines, item, a, b, h, d, before);
    }
  }

  lemma {:induction false} RecordItemRead(lines: seq<Line>, item: Item, a: nat, b: nat, h: nat, d: nat, before: seq<Value>)
    requires item.Record? && EntriesOk(item.more) && Fresh(item.more, item.key)
    requires At(lines, a, ItemLines(item, d)) && b == a + |ItemLines(item, d)|
    requires Region(lines, a, b, h, d) && Over(lines, b, d) && IsList(lines, h)
    requires Holding(lines, h, a) == Items(before)
    ensures NoFaults(lines, a, b) && Holding(lines, h, b) == Items(before + [Ref(a)]) && MeansItem(lines, Ref(a), item)
    decreases item, 0
  {
    RecordRead(lines, item.key, item.value, item.more, a, b, h, d);
    RecordStart(lines, item.key, item.value, EntriesLines(item.more, d + 2), a, b, h, d, before);
  }

  lemma SingleRead(lines: seq<Line>, v: Value, a: nat, b: nat, h: nat, d: nat, before: seq<Value>)
    requires At(lines, a, [Line(d, true, None, false, Some(v))]) && b == a + 1
    requires Region(lines, a, b, h, d) && IsList(lines, h) && Holding(lines, h, a) == Items(before)
    ensures NoFaults(lines, a, b) && Holding(lines, h, b) == Items(before + [v])
  {
    AtFirst(lines, a, [Line(d, true, None, false, Some(v))]);
    OpeningRead(lines, a, b, h, d, v, before);
  }

  lemma RecordStart(lines: seq<Line>, key: string, v: Value, more: seq<Line>, a: nat, b: nat, h: nat, d: nat, before: seq<Value>)
    requires At(lines, a, [Line(d, true, Some(key), false, Some(v))] + more) && a < b
    requires Region(lines, a, b, h, d) && IsList(lines, h) && Holding(lines, h, a) == Items(before)
    requires NoFaults(lines, a + 1, b)
    ensures NoFaults(lines, a, b) && Holding(lines, h, a + 1) == Items(before + [Ref(a)])
  {
    AtFirst(lines, a, [Line(d, true, Some(key), false, Some(v))] + more);
    OpeningRead(lines, a, b, h, d, Ref(a), before);
  }

  /** The first line of an item adds a value to its list. */
  lemma OpeningRead(lines: seq<Line>, a: nat, b: nat, h: nat, d: nat, value: Value, before: seq<Value>)
    requires Region(lines, a, b, h, d) && a < b && IsList(lines, h) && Holding(lines, h, a) == Items(before)
    requires lines[a].indent == d && lines[a].item && lines[a].value.Some?
    requires value == if lines[a].Opens() then Ref(a) else lines[a].value.value
    ensures FaultOf(lines, a) == None && Holding(lines, h, a + 1) == Items(before + [value])
  {
    LineRead(lines, a, b, h, d);
  }

  lemma {:induction false} RecordRead(lines: seq<Line>, key: string, value: Value, more: seq<Entry>, a: nat, b: nat, c: int, d: nat)
    requires EntriesOk(more) && Fresh(more, key)
    requires var written := [Line(d, true, Some(key), false, Some(value))] + EntriesLines(more, d + 2);
             At(lines, a, written) && b == a + |written|
    requires Region(lines, a, b, c, d) && Over(lines, b, d)
    ensures a < |lines| && NoFaults(lines, a + 1, b) && Holding(lines, c, b) == Holding(lines, c, a + 1)
    ensures MeansItem(lines, Ref(a), Record(key, value, more))
    decreases more, 2
  {
    EntriesDeep(more, d + 2);
    InnerRegion(lines, a, b, c, d, Line(d, true, Some(key), false, Some(value)), EntriesLines(more, d + 2));
    EntriesRead(lines, more, a + 1, b, a, d + 2);
    FinalHolding(lines, a, b);
    GainedFromOne(lines, key, value, Holding(lines, a, b), more);
  }

  lemma GainedFromOne(lines: seq<Line>, key: string, value: Value, c: Container, entries: seq<Entry>)
    requires Gained(lines, Entries(map[key := value]), c, entries)
    ensures key in c.entries && c.entries[key] == value && MeansEntries(lines, c.entries - {key}, entries)
  {
    assert map[key := value].Keys == {key};
  }

  /** A document written as lines is parsed without a fault, and its root means the document. */
  lemma DocumentIsRead(entries: seq<Entry>, r: Parse)
    requires EntriesOk(entries) && entries != []
    requires Right(EntriesLines(entries, 0), r)
    ensures r.Parsed? && -1 in r.nodes && r.nodes[-1].Entries?
    ensures EntriesLines(entries, 0) != [] && MeansEntries(EntriesLines(entries, 0), r.nodes[-1].entries, entries)
    ensures forall c :: c in r.nodes ==> -1 <= c < |EntriesLines(entries, 0)| && r.nodes[c] == Final(EntriesLines(entries, 0), c)
  {
    var lines := EntriesLines(entries, 0);
    EntriesDeep(entries, 0);
    assert lines[0..0 + |lines|] == lines;
    assert Holding(lines, -1, 0) == Entries(map[]);
    EntriesRead(lines, entries, 0, |lines|, -1, 0);
    GainedFromNothing(lines, Holding(lines, -1, |lines|), entries);
  }
}
