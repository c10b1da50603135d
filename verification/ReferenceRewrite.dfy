/** Rewriting the references to migrated database tools: agent tool entries and the tool nodes of
    workflow definitions are pointed at the builtin that replaced them.

    Both are lists of JSON items in which some items name a migrated tool, so the list algorithms
    and their properties are stated once, for either `Kind` of item.
  */
module ReferenceRewrite {
  import opened Options

  /** What a number or a boolean prints as. */
  type Text = s: string | s != "" witness "0"

  /** `Opaque` stands for numbers and booleans, of which only the text and the truth value count. */
  datatype Json =
    | Null
    | Str(s: string)
    | Opaque(printed: Text, truth: bool)
    | List(items: seq<Json>)
    | Dict(fields: map<string, Json>)
  {
    predicate Truthy() {
      match this
      case Null => false
      case Str(s) => s != ""
      case Opaque(_, truth) => truth
      case List(items) => items != []
      case Dict(fields) => fields != map[]
    }

    /** `str(value)`; lists and objects print as something that is no id. */
    function Printed(): string {
      match this
      case Null => "None"
      case Str(s) => s
      case Opaque(printed, _) => printed
      case List(_) => "[...]"
      case Dict(_) => "{...}"
    }
  }

  type Fields = map<string, Json>

  function Get(fields: Fields, key: string): Json {
    if key in fields then fields[key] else Null
  }

  /** `a or b` */
  function Either(a: Json, b: Json): Json {
    if a.Truthy() then a else b
  }

  /** `str(value or "")` */
  function IdText(j: Json): string {
    if j.Truthy() then j.Printed() else ""
  }

  /** A migrated connection, as far as references are concerned. */
  datatype Bound = Bound(id: string, personal: bool)
  {
    function Mode(): string {
      if personal then "personal" else "team"
    }
  }

  /** One migrated tool: its old id, the builtin it became, its connection if it owned just one. */
  datatype Migration = Migration(id: string, key: string, connection: Option<Bound>)

  datatype Kind = AgentEntry | ToolNode

  predicate Retired(toolType: Json) {
    toolType == Str("custom") || toolType == Str("mcp")
  }

  // ---------------------------------------------------------------- one item

  /** The slot of a node's tool configuration. */
  function Slot(data: Fields): Option<string> {
    if Get(data, "toolConfig").Dict? then Some("toolConfig")
    else if Get(data, "config").Dict? then Some("config") else None
  }

  /** The object that says which tool an item uses: the entry itself, or the node's configuration. */
  function Config(kind: Kind, item: Json): Option<Fields> {
    if !item.Dict? then None
    else
      match kind
      case AgentEntry => Some(item.fields)
      case ToolNode =>
        var data := Get(item.fields, "data");
        if !data.Dict? || Slot(data.fields).None? then None
        else Some(Get(data.fields, Slot(data.fields).value).fields)
  }

  function WithConfig(kind: Kind, item: Json, config: Fields): Json
    requires Config(kind, item).Some?
  {
    match kind
    case AgentEntry => Dict(config)
    case ToolNode =>
      var data := Get(item.fields, "data").fields;
      Dict(item.fields["data" := Dict(data[Slot(data).value := Dict(config)])])
  }

  function TypeKey(kind: Kind): string {
    if kind.AgentEntry? then "type" else "toolType"
  }

  function ToolRef(kind: Kind, config: Fields): Json {
    match kind
    case AgentEntry => Get(config, "tool_id")
    case ToolNode => Either(Get(config, "toolId"), Get(config, "tool_id"))
  }

  /** The item uses the custom or MCP tool of that id. */
  predicate Names(kind: Kind, item: Json, id: string) {
    var config := Config(kind, item);
    config.Some? && Retired(Get(config.value, TypeKey(kind))) && IdText(ToolRef(kind, config.value)) == id
  }

  /** The connection an item chooses, and its mode. */
  function Choice(kind: Kind, config: Fields): (Json, Json) {
    match kind
    case AgentEntry => (Get(config, "connection_id"), Get(config, "connection_mode"))
    case ToolNode =>
      (Either(Get(config, "connectionId"), Get(config, "connection_id")),
       Either(Get(config, "connectionMode"), Get(config, "connection_mode")))
  }

  function RedirectedEntry(entry: Fields, key: string, connection: Option<Bound>): Fields {
    var chosen := Get(entry, "connection_id");
    var base := (entry - {"tool_id", "server_id"})["type" := Str("builtin")]["name" := Str(key)];
    if chosen.Truthy() then
      base["connection_id" := Str(chosen.Printed())]["connection_mode" := Get(entry, "connection_mode")]
    else if connection.Some? then
      base["connection_id" := Str(connection.value.id)]["connection_mode" := Str(connection.value.Mode())]
    else base
  }

  function RedirectedConfig(config: Fields, key: string, connection: Option<Bound>): Fields {
    var selected := Choice(ToolNode, config);
    var base := config["toolType" := Str("builtin")]["toolName" := Str(key)]
                - {"toolId", "tool_id", "connection_id", "connection_mode"};
    if selected.0.Truthy() then
      var chosen := base["connectionId" := Str(selected.0.Printed())];
      if selected.1.Truthy() then chosen["connectionMode" := selected.1] else chosen
    else if connection.Some? then
      base["connectionId" := Str(connection.value.id)]["connectionMode" := Str(connection.value.Mode())]
    else base
  }

  function Redirected(kind: Kind, item: Json, m: Migration): Json
    requires Config(kind, item).Some?
  {
    var config := Config(kind, item).value;
    WithConfig(kind, item, if kind.AgentEntry? then RedirectedEntry(config, m.key, m.connection)
                           else RedirectedConfig(config, m.key, m.connection))
  }

  /** The item after one migration. */
  function Step(kind: Kind, item: Json, m: Migration): Json {
    if Names(kind, item, m.id) then Redirected(kind, item, m) else item
  }

  // ---------------------------------------------------------------- lists and definitions

  function RewrittenBy(kind: Kind, items: seq<Json>, m: Migration): seq<Json> {
    seq(|items|, i requires 0 <= i < |items| => Step(kind, items[i], m))
  }

  predicate AnyNames(kind: Kind, items: seq<Json>, id: string) {
    exists i :: 0 <= i < |items| && Names(kind, items[i], id)
  }

  lemma NamesPush(kind: Kind, items: seq<Json>, x: Json, id: string)
    ensures AnyNames(kind, items + [x], id) <==> AnyNames(kind, items, id) || Names(kind, x, id)
  {
    if AnyNames(kind, items, id) {
      var i :| 0 <= i < |items| && Names(kind, items[i], id);
      assert Names(kind, (items + [x])[i], id);
    }
    assert Names(kind, x, id) ==> Names(kind, (items + [x])[|items|], id);
  }

  /** The loop of `rewrite_agent_tools_config` and of `rewrite_workflow_definition`. */
  method RewriteItems(kind: Kind, items: seq<Json>, m: Migration) returns (r: seq<Json>, changed: bool)
    ensures r == RewrittenBy(kind, items, m) && (changed <==> AnyNames(kind, items, m.id))
  {
    r, changed := items, false;
    for index := 0 to |items|
      invariant |r| == |items|
      invariant forall k :: 0 <= k < |items| ==> r[k] == if k < index then Step(kind, items[k], m) else items[k]
      invariant changed <==> AnyNames(kind, items[..index], m.id)
    {
      assert items[..index + 1] == items[..index] + [items[index]];
      NamesPush(kind, items[..index], items[index], m.id);
      var config := Config(kind, r[index]);
      if config.Some? && Retired(Get(config.value, TypeKey(kind))) && IdText(ToolRef(kind, config.value)) == m.id {
        r := r[index := Redirected(kind, r[index], m)];
        changed := true;
      }
    }
    assert items[..|items|] == items;
  }

  /** The tool nodes of a definition; without a node list there are none. */
  function Nodes(definition: Fields): seq<Json> {
    var nodes := Get(definition, "nodes");
    if nodes.List? then nodes.items else []
  }

  function WithNodes(definition: Fields, nodes: seq<Json>): Fields {
    if Get(definition, "nodes").List? then definition["nodes" := List(nodes)] else definition
  }

  method RewriteWorkflow(definition: Fields, m: Migration) returns (r: Fields, changed: bool)
    ensures r == WithNodes(definition, RewrittenBy(ToolNode, Nodes(definition), m))
    ensures changed <==> AnyNames(ToolNode, Nodes(definition), m.id)
  {
    var nodes;
    nodes, changed := RewriteItems(ToolNode, Nodes(definition), m);
    r := WithNodes(definition, nodes);
  }

  function RewrittenByAll(kind: Kind, items: seq<Json>, ms: seq<Migration>): (r: seq<Json>)
    ensures |r| == |items|
  {
    if ms == [] then items
    else RewrittenBy(kind, RewrittenByAll(kind, items, ms[..|ms| - 1]), ms[|ms| - 1])
  }

  lemma NodesAgain(definition: Fields, nodes: seq<Json>)
    requires |nodes| == |Nodes(definition)|
    ensures Nodes(WithNodes(definition, nodes)) == nodes
    ensures WithNodes(definition, nodes) == definition <==> nodes == Nodes(definition)
    ensures forall ns :: |ns| == |nodes| ==> WithNodes(WithNodes(definition, nodes), ns) == WithNodes(definition, ns)
  {
  }

  /** A change is never undone: one more migration leaves the list different from the original
      exactly if it was different or the migration finds something to redirect. */
  lemma ChangeLasts(kind: Kind, items: seq<Json>, ms: seq<Migration>, m: Migration)
    ensures var before := RewrittenByAll(kind, items, ms);
            RewrittenBy(kind, before, m) != items <==> before != items || AnyNames(kind, before, m.id)
  {
    var before := RewrittenByAll(kind, items, ms);
    var after := RewrittenBy(kind, before, m);
    RewritingIsOnePass(kind, items, ms);
    if before != items {
      var i :| 0 <= i < |items| && before[i] != items[i];
      RedirectedNamesNone(kind, items[i], Claim(kind, items[i], ms).value, m.id);
      assert after[i] == before[i];
    } else if AnyNames(kind, before, m.id) {
      var i :| 0 <= i < |before| && Names(kind, before[i], m.id);
      RedirectedNamesNone(kind, before[i], m, m.id);
      assert after[i] != items[i];
    } else {
      assert after == before;
    }
  }

  /** `_rewrite_definition`: one migration after the other. */
  method RewriteDefinition(definition: Fields, ms: seq<Migration>) returns (r: Fields, changed: bool)
    ensures r == WithNodes(definition, RewrittenByAll(ToolNode, Nodes(definition), ms))
    ensures changed <==> r != definition
  {
    r, changed := definition, false;
    assert WithNodes(definition, Nodes(definition)) == definition;
    for i := 0 to |ms|
      invariant r == WithNodes(definition, RewrittenByAll(ToolNode, Nodes(definition), ms[..i]))
      invariant changed <==> RewrittenByAll(ToolNode, Nodes(definition), ms[..i]) != Nodes(definition)
    {
      assert ms[..i + 1][..i] == ms[..i];
      NodesAgain(definition, RewrittenByAll(ToolNode, Nodes(definition), ms[..i]));
      ChangeLasts(ToolNode, Nodes(definition), ms[..i], ms[i]);
      var itemChanged;
      r, itemChanged := RewriteWorkflow(r, ms[i]);
      changed := changed || itemChanged;
    }
    NodesAgain(definition, RewrittenByAll(ToolNode, Nodes(definition), ms));
    assert ms[..|ms|] == ms;
  }

  // ---------------------------------------------------------------- agents

  predicate Attaches(item: Json, key: string) {
    item.Dict? && Get(item.fields, "type") == Str("builtin") && Get(item.fields, "name") == Str(key)
  }

  function Attachments(items: seq<Json>, key: string): nat {
    if items == [] then 0
    else Attachments(items[..|items| - 1], key) + if Attaches(items[|items| - 1], key) then 1 else 0
  }

  predicate Attachable(items: seq<Json>, ms: seq<Migration>) {
    forall m :: m in ms ==> Attachments(items, m.key) <= 1
  }

  datatype Rewrite = Rewritten(items: seq<Json>, changed: bool) | DuplicateAttachment(key: string)

  /** One agent of `_rewrite_references`: all migrations, then the count of attachments per key. */
  method RewriteAgent(items: seq<Json>, ms: seq<Migration>) returns (r: Rewrite)
    ensures var all := RewrittenByAll(AgentEntry, items, ms);
            && (r.Rewritten? <==> Attachable(all, ms))
            && (r.Rewritten? ==> r.items == all && (r.changed <==> all != items))
            && (r.DuplicateAttachment? ==> exists m :: m in ms && m.key == r.key && Attachments(all, r.key) > 1)
  {
    var configs, changed := items, false;
    for i := 0 to |ms|
      invariant configs == RewrittenByAll(AgentEntry, items, ms[..i])
      invariant changed <==> configs != items
    {
      assert ms[..i + 1][..i] == ms[..i];
      ChangeLasts(AgentEntry, items, ms[..i], ms[i]);
      var entryChanged;
      configs, entryChanged := RewriteItems(AgentEntry, configs, ms[i]);
      changed := changed || entryChanged;
    }
    assert ms[..|ms|] == ms;

    var convertedKeys := set m | m in ms :: m.key;
    var perKey: map<string, nat> := map[];
    for i := 0 to |configs|
      invariant forall k :: k in convertedKeys ==>
                  Attachments(configs[..i], k) == if k in perKey then perKey[k] else 0
    {
      assert configs[..i + 1][..i] == configs[..i];
      var entry := configs[i];
      if entry.Dict? && Get(entry.fields, "type") == Str("builtin") {
        var name := Get(entry.fields, "name");
        if name.Str? && name.s in convertedKeys {
          perKey := perKey[name.s := (if name.s in perKey then perKey[name.s] else 0) + 1];
        }
      }
    }
    assert configs[..|configs|] == configs;
    var duplicates := set k | k in convertedKeys && k in perKey && perKey[k] > 1;
    if duplicates != {} {
      var key :| key in duplicates;
      return DuplicateAttachment(key);
    }
    forall m | m in ms
      ensures Attachments(configs, m.key) <= 1
    {
      assert m.key in convertedKeys && m.key !in duplicates;
    }
    r := Rewritten(configs, changed);
  }

  // ---------------------------------------------------------------- one item, once and for all

  /** A redirected item names no custom or MCP tool any more. */
  lemma RedirectedNamesNone(kind: Kind, item: Json, m: Migration, id: string)
    requires Config(kind, item).Some?
    ensures !Names(kind, Redirected(kind, item, m), id)
    ensures Config(kind, Redirected(kind, item, m)).Some?
  {
    if kind.ToolNode? {
      var data := Get(item.fields, "data").fields;
      var config := RedirectedConfig(Config(kind, item).value, m.key, m.connection);
      var data' := data[Slot(data).value := Dict(config)];
      assert Slot(data') == Slot(data);
    }
  }

  /** The keys of an entry or configuration that a redirection may touch. */
  function Touched(kind: Kind): set<string> {
    if kind.AgentEntry? then {"type", "name", "tool_id", "server_id", "connection_id", "connection_mode"}
    else {"toolType", "toolName", "toolId", "tool_id", "connectionId", "connection_id", "connectionMode", "connection_mode"}
  }

  /** What `after`, pointed at the builtin, made of the configuration `before`: it uses the builtin,
      everything else is as before; an explicit choice of a connection is kept, and otherwise the
      migrated connection is chosen, if there is one. */
  ghost predicate PointedAtBuiltin(kind: Kind, before: Fields, after: Fields, m: Migration) {
    && Get(after, TypeKey(kind)) == Str("builtin")
    && Get(after, if kind.AgentEntry? then "name" else "toolName") == Str(m.key)
    && !ToolRef(kind, after).Truthy()
    && (forall k :: k !in Touched(kind) ==> Get(after, k) == Get(before, k) && (k in after <==> k in before))
    && var chosen, kept := Choice(kind, before), Choice(kind, after);
       if chosen.0.Truthy() then
         kept.0 == Str(chosen.0.Printed()) && (if chosen.1.Truthy() then kept.1 == chosen.1 else !kept.1.Truthy())
       else if m.connection.Some? then
         kept == (Str(m.connection.value.id), Str(m.connection.value.Mode()))
       else !kept.0.Truthy()
  }

  lemma EntryIsPointed(entry: Fields, m: Migration)
    ensures PointedAtBuiltin(AgentEntry, entry, RedirectedEntry(entry, m.key, m.connection), m)
  {
  }

  lemma ConfigIsPointed(config: Fields, m: Migration)
    requires m.connection.Some? ==> m.connection.value.id != ""
    ensures PointedAtBuiltin(ToolNode, config, RedirectedConfig(config, m.key, m.connection), m)
  {
    assert Choice(ToolNode, config).0.Truthy() ==> Choice(ToolNode, config).0.Printed() != "";
  }

  lemma RedirectedItem(kind: Kind, item: Json, m: Migration)
    requires Config(kind, item).Some? && (m.connection.Some? ==> m.connection.value.id != "")
    ensures Config(kind, Redirected(kind, item, m)).Some?
    ensures PointedAtBuiltin(kind, Config(kind, item).value, Config(kind, Redirected(kind, item, m)).value, m)
    ensures WithConfig(kind, Redirected(kind, item, m), Config(kind, item).value) == WithConfig(kind, item, Config(kind, item).value)
  {
    if kind.ToolNode? {
      var data := Get(item.fields, "data").fields;
      var slot := Slot(data).value;
      var config := RedirectedConfig(data[slot].fields, m.key, m.connection);
      ConfigIsPointed(data[slot].fields, m);
      var data' := data[slot := Dict(config)];
      assert Slot(data') == Some(slot);
      assert data'[slot := data[slot]] == data[slot := data[slot]];
    } else {
      EntryIsPointed(item.fields, m);
    }
  }

  // ---------------------------------------------------------------- all migrations, in any order

  ghost predicate DistinctIds(ms: seq<Migration>) {
    forall a, b :: a in ms && b in ms && a.id == b.id ==> a == b
  }

  /** The first migration whose old id the item names. */
  function Claim(kind: Kind, item: Json, ms: seq<Migration>): (m: Option<Migration>)
    ensures m.Some? ==> m.value in ms && Names(kind, item, m.value.id)
    ensures m.None? ==> forall x :: x in ms ==> !Names(kind, item, x.id)
  {
    if ms == [] then None
    else
      var before := Claim(kind, item, ms[..|ms| - 1]);
      if before.Some? then before
      else if Names(kind, item, ms[|ms| - 1].id) then Some(ms[|ms| - 1]) else None
  }

  function Claimed(kind: Kind, item: Json, ms: seq<Migration>): Json {
    var m := Claim(kind, item, ms);
    if m.Some? then Redirected(kind, item, m.value) else item
  }

  /** Rewriting migration by migration is one pass that redirects every item once: an item is
      redirected by the migration it names, every other item stays, and so do length and order. */
  lemma {:induction false} RewritingIsOnePass(kind: Kind, items: seq<Json>, ms: seq<Migration>)
    ensures var r := RewrittenByAll(kind, items, ms);
            |r| == |items| && forall i :: 0 <= i < |items| ==> r[i] == Claimed(kind, items[i], ms)
  {
    if ms != [] {
      var n := |ms| - 1;
      RewritingIsOnePass(kind, items, ms[..n]);
      forall i | 0 <= i < |items|
        ensures RewrittenByAll(kind, items, ms)[i] == Claimed(kind, items[i], ms)
      {
        var before := Claim(kind, items[i], ms[..n]);
        if before.Some? {
          RedirectedNamesNone(kind, items[i], before.value, ms[n].id);
        }
      }
    }
  }

  /** After all migrations no item uses a migrated tool, and a second pass changes nothing. */
  lemma RewritingIsComplete(kind: Kind, items: seq<Json>, ms: seq<Migration>)
    ensures var r := RewrittenByAll(kind, items, ms);
            && (forall m :: m in ms ==> !AnyNames(kind, r, m.id))
            && RewrittenByAll(kind, r, ms) == r
  {
    var r := RewrittenByAll(kind, items, ms);
    RewritingIsOnePass(kind, items, ms);
    forall m, i | m in ms && 0 <= i < |r|
      ensures !Names(kind, r[i], m.id)
    {
      var claim := Claim(kind, items[i], ms);
      if claim.Some? { RedirectedNamesNone(kind, items[i], claim.value, m.id); }
    }
    RewritingIsOnePass(kind, r, ms);
  }

  /** The order of the migrations does not matter. */
  lemma RewritingInAnyOrder(kind: Kind, items: seq<Json>, ms: seq<Migration>, ns: seq<Migration>)
    requires DistinctIds(ms) && forall m :: m in ms <==> m in ns
    ensures RewrittenByAll(kind, items, ms) == RewrittenByAll(kind, items, ns)
  {
    RewritingIsOnePass(kind, items, ms);
    RewritingIsOnePass(kind, items, ns);
    forall i | 0 <= i < |items|
      ensures Claimed(kind, items[i], ms) == Claimed(kind, items[i], ns)
    {
      SameClaim(kind, items[i], ms, ns);
    }
  }

  lemma SameClaim(kind: Kind, item: Json, ms: seq<Migration>, ns: seq<Migration>)
    requires DistinctIds(ms) && forall m :: m in ms <==> m in ns
    ensures Claim(kind, item, ms) == Claim(kind, item, ns)
  {
    var a, b := Claim(kind, item, ms), Claim(kind, item, ns);
    if a.Some? && b.Some? {
      assert a.value.id == b.value.id;
    }
  }

  /** What one agent's rewrite means for each of its entries. */
  lemma RewrittenItem(kind: Kind, items: seq<Json>, ms: seq<Migration>, i: nat)
    requires i < |items|
    requires forall m :: m in ms && m.connection.Some? ==> m.connection.value.id != ""
    ensures var r, claim := RewrittenByAll(kind, items, ms), Claim(kind, items[i], ms);
            && |r| == |items|
            && (claim.None? ==> r[i] == items[i])
            && (claim.Some? ==>
                  && Config(kind, items[i]).Some? && Config(kind, r[i]).Some?
                  && PointedAtBuiltin(kind, Config(kind, items[i]).value, Config(kind, r[i]).value, claim.value)
                  && WithConfig(kind, r[i], Config(kind, items[i]).value)
                     == WithConfig(kind, items[i], Config(kind, items[i]).value))
  {
    RewritingIsOnePass(kind, items, ms);
    var claim := Claim(kind, items[i], ms);
    if claim.Some? {
      RedirectedItem(kind, items[i], claim.value);
    }
  }

  lemma {:induction false} AttachmentsCount(items: seq<Json>, key: string, i: nat, j: nat)
    requires i < j < |items| && Attaches(items[i], key) && Attaches(items[j], key)
    ensures Attachments(items, key) >= 2
  {
    var n := |items| - 1;
    if j < n {
      AttachmentsCount(items[..n], key, i, j);
    } else {
      AttachedOnce(items[..n], key, i);
    }
  }

  lemma {:induction false} AttachedOnce(items: seq<Json>, key: string, i: nat)
    requires i < |items| && Attaches(items[i], key)
    ensures Attachments(items, key) >= 1
  {
    if i < |items| - 1 { AttachedOnce(items[..|items| - 1], key, i); }
  }

  lemma {:induction false} AttachedTwice(items: seq<Json>, key: string)
    requires Attachments(items, key) >= 1
    ensures exists i :: 0 <= i < |items| && Attaches(items[i], key)
    ensures Attachments(items, key) >= 2 ==>
              exists i, j :: 0 <= i < j < |items| && Attaches(items[i], key) && Attaches(items[j], key)
  {
    var n := |items| - 1;
    if Attachments(items[..n], key) >= 1 {
      AttachedTwice(items[..n], key);
      var i :| 0 <= i < n && Attaches(items[..n][i], key);
      assert Attaches(items[i], key);
      if Attaches(items[n], key) {
        assert i < n && Attaches(items[i], key) && Attaches(items[n], key);
      } else if Attachments(items, key) >= 2 {
        var k, j :| 0 <= k < j < n && Attaches(items[..n][k], key) && Attaches(items[..n][j], key);
        assert k < j && Attaches(items[k], key) && Attaches(items[j], key);
      }
    } else {
      assert Attaches(items[n], key);
    }
  }

  /** The check that lets an agent through holds exactly if no two of its entries attach the same
      converted builtin. */
  lemma AttachableMeansOnce(items: seq<Json>, ms: seq<Migration>)
    ensures Attachable(items, ms) <==>
            forall m, i, j :: m in ms && 0 <= i < j < |items| ==> !(Attaches(items[i], m.key) && Attaches(items[j], m.key))
  {
    if Attachable(items, ms) {
      forall m, i, j | m in ms && 0 <= i < j < |items|
        ensures !(Attaches(items[i], m.key) && Attaches(items[j], m.key))
      {
        if Attaches(items[i], m.key) && Attaches(items[j], m.key) { AttachmentsCount(items, m.key, i, j); }
      }
    }
    if forall m, i, j :: m in ms && 0 <= i < j < |items| ==> !(Attaches(items[i], m.key) && Attaches(items[j], m.key)) {
      forall m | m in ms
        ensures Attachments(items, m.key) <= 1
      {
        if Attachments(items, m.key) >= 2 { AttachedTwice(items, m.key); }
      }
    }
  }

  /** The whole definition: no node uses a migrated tool, nothing but the node list changed. */
  lemma DefinitionIsRewritten(definition: Fields, ms: seq<Migration>)
    ensures var r := WithNodes(definition, RewrittenByAll(ToolNode, Nodes(definition), ms));
            && Nodes(r) == RewrittenByAll(ToolNode, Nodes(definition), ms)
            && (forall k :: k != "nodes" ==> Get(r, k) == Get(definition, k) && (k in r <==> k in definition))
            && (forall m :: m in ms ==> !AnyNames(ToolNode, Nodes(r), m.id))
            && WithNodes(r, RewrittenByAll(ToolNode, Nodes(r), ms)) == r
  {
    RewritingIsOnePass(ToolNode, Nodes(definition), ms);
    RewritingIsComplete(ToolNode, Nodes(definition), ms);
  }
}
