/** What a redirected reference says, key by key: agent entries and the tool nodes of workflows are pointed
    at the builtin, and nothing but their tool and connection changes.
  */
module ReferenceItems {
  import opened Options
  import opened ReferenceRewrite

  /** What Python treats as false. */
  predicate Blank(j: Json) {
    j == Null || j == Str("") || j == List([]) || j == Dict(map[]) || (j.Opaque? && !j.truth)
  }

  lemma TruthyMeans(j: Json)
    ensures j.Truthy() <==> !Blank(j)
  {
  }

  predicate BlankAt(fields: Fields, key: string) {
    key !in fields || Blank(fields[key])
  }

  /** The value is that id, as a string or as a number. */
  predicate IsId(j: Json, id: string) {
    j == Str(id) || (j.Opaque? && j.truth && j.printed == id)
  }

  predicate IdAt(fields: Fields, key: string, id: string) {
    key in fields && IsId(fields[key], id)
  }

  /** The tool is a custom or an MCP one. */
  predicate RetiredAt(fields: Fields, key: string) {
    key in fields && (fields[key] == Str("custom") || fields[key] == Str("mcp"))
  }

  /** No list and no object prints like an id. */
  predicate PlainId(id: string) {
    id != "" && id != "[...]" && id != "{...}"
  }

  // ---------------------------------------------------------------- agent entries

  /** The entry uses the tool of that id. */
  predicate EntryUses(entry: Json, id: string) {
    entry.Dict? && RetiredAt(entry.fields, "type") && IdAt(entry.fields, "tool_id", id)
  }

  /** An entry that was redirected: the builtin's name in place of the tool's and its server's id; a chosen
      connection stays with its mode, and otherwise the migrated one is chosen, if there is one. */
  predicate EntryRedirected(before: Fields, after: Fields, m: Migration) {
    && "type" in after && after["type"] == Str("builtin") && "name" in after && after["name"] == Str(m.key)
    && "tool_id" !in after && "server_id" !in after
    && (forall k :: k in before.Keys + after.Keys && k !in {"type", "name", "tool_id", "server_id", "connection_id", "connection_mode"}
                    ==> k in before && k in after && after[k] == before[k])
    && if !BlankAt(before, "connection_id") then
         && "connection_id" in after && after["connection_id"].Str? && "connection_mode" in after
         && (before["connection_id"].Str? ==> after["connection_id"] == before["connection_id"])
         && after["connection_mode"] == (if "connection_mode" in before then before["connection_mode"] else Null)
       else if m.connection.Some? then
         && "connection_id" in after && after["connection_id"] == Str(m.connection.value.id)
         && "connection_mode" in after
         && after["connection_mode"] == Str(if m.connection.value.personal then "personal" else "team")
       else BlankAt(after, "connection_id")
  }

  lemma EntryStep(entry: Json, m: Migration)
    requires PlainId(m.id)
    ensures var after := Step(AgentEntry, entry, m);
            if EntryUses(entry, m.id) then after.Dict? && EntryRedirected(entry.fields, after.fields, m) else after == entry
  {
    if entry.Dict? { UsesById(Get(entry.fields, "tool_id"), m.id); }
    if entry.Dict? && Names(AgentEntry, entry, m.id) {
      TruthyMeans(Get(entry.fields, "connection_id"));
      EntryIsRedirected(entry.fields, m);
    }
  }

  lemma UsesById(ref: Json, id: string)
    requires PlainId(id)
    ensures IdText(ref) == id <==> IsId(ref, id)
  {
  }

  lemma EntryIsRedirected(entry: Fields, m: Migration)
    ensures EntryRedirected(entry, RedirectedEntry(entry, m.key, m.connection), m)
  {
    TruthyMeans(Get(entry, "connection_id"));
  }

  /** The entry is the builtin of that key. */
  predicate EntryIs(entry: Json, key: string) {
    && entry.Dict? && "type" in entry.fields && entry.fields["type"] == Str("builtin")
    && "name" in entry.fields && entry.fields["name"] == Str(key)
  }

  /** An agent may keep its tools exactly if no builtin that replaced a tool stands in two of its entries. */
  lemma NoBuiltinTwice(items: seq<Json>, ms: seq<Migration>)
    ensures Attachable(items, ms) <==>
              forall m, i, j :: m in ms && 0 <= i < j < |items| ==> !(EntryIs(items[i], m.key) && EntryIs(items[j], m.key))
  {
    AttachableMeansOnce(items, ms);
    forall m, i | m in ms && 0 <= i < |items|
      ensures Attaches(items[i], m.key) == EntryIs(items[i], m.key)
    {
    }
  }

  // ---------------------------------------------------------------- tool nodes

  /** Where a node keeps its tool: under `toolConfig`, or else under `config`. */
  predicate ConfigUnder(node: Json, slot: string) {
    && node.Dict? && "data" in node.fields && node.fields["data"].Dict?
    && var data := node.fields["data"].fields;
       && slot in data && data[slot].Dict?
       && (slot == "toolConfig" || (slot == "config" && !("toolConfig" in data && data["toolConfig"].Dict?)))
  }

  function ConfigOf(node: Json, slot: string): Fields
    requires ConfigUnder(node, slot)
  {
    node.fields["data"].fields[slot].fields
  }

  /** The configuration uses the tool of that id, under either of the two keys. */
  predicate ConfigUses(config: Fields, id: string) {
    RetiredAt(config, "toolType") && (IdAt(config, "toolId", id) || (BlankAt(config, "toolId") && IdAt(config, "tool_id", id)))
  }

  /** The value under the first key, or under the second if that is blank. */
  function Chosen(config: Fields, key: string, other: string): Json {
    if !BlankAt(config, key) then config[key] else if other in config then config[other] else Null
  }

  predicate ConfigRedirected(before: Fields, after: Fields, m: Migration) {
    && "toolType" in after && after["toolType"] == Str("builtin") && "toolName" in after && after["toolName"] == Str(m.key)
    && "toolId" !in after && "tool_id" !in after && "connection_id" !in after && "connection_mode" !in after
    && (forall k :: k in before.Keys + after.Keys
                    && k !in {"toolType", "toolName", "toolId", "tool_id", "connection_id", "connection_mode", "connectionId", "connectionMode"}
                    ==> k in before && k in after && after[k] == before[k])
    && var chosen, mode := Chosen(before, "connectionId", "connection_id"), Chosen(before, "connectionMode", "connection_mode");
       if !Blank(chosen) then
         && "connectionId" in after && after["connectionId"].Str? && (chosen.Str? ==> after["connectionId"] == chosen)
         && (!Blank(mode) ==> "connectionMode" in after && after["connectionMode"] == mode)
         && (Blank(mode) ==> BlankAt(after, "connectionMode"))
       else if m.connection.Some? then
         && "connectionId" in after && after["connectionId"] == Str(m.connection.value.id)
         && "connectionMode" in after
         && after["connectionMode"] == Str(if m.connection.value.personal then "personal" else "team")
       else BlankAt(after, "connectionId")
  }

  lemma ConfigIsRedirected(config: Fields, m: Migration)
    ensures ConfigRedirected(config, RedirectedConfig(config, m.key, m.connection), m)
  {
    TruthyMeans(Get(config, "connectionId"));
    TruthyMeans(Get(config, "connection_id"));
    TruthyMeans(Get(config, "connectionMode"));
    TruthyMeans(Get(config, "connection_mode"));
  }

  /** Of a redirected node only the configuration changes. */
  predicate NodeRedirected(before: Json, after: Json, slot: string, m: Migration)
    requires ConfigUnder(before, slot)
  {
    && ConfigUnder(after, slot) && ConfigRedirected(ConfigOf(before, slot), ConfigOf(after, slot), m)
    && after.fields.Keys == before.fields.Keys
    && (forall k :: k in before.fields && k != "data" ==> after.fields[k] == before.fields[k])
    && var data, data' := before.fields["data"].fields, after.fields["data"].fields;
       data'.Keys == data.Keys && forall k :: k in data && k != slot ==> data'[k] == data[k]
  }

  lemma ConfigIsUnder(node: Json, slot: string)
    requires ConfigUnder(node, slot)
    ensures Config(ToolNode, node) == Some(ConfigOf(node, slot)) && Slot(node.fields["data"].fields) == Some(slot)
  {
  }

  lemma NodeStep(node: Json, slot: string, m: Migration)
    requires PlainId(m.id) && ConfigUnder(node, slot)
    ensures var after := Step(ToolNode, node, m);
            if ConfigUses(ConfigOf(node, slot), m.id) then NodeRedirected(node, after, slot, m) else after == node
  {
    var config := ConfigOf(node, slot);
    ConfigIsUnder(node, slot);
    TruthyMeans(Get(config, "toolId"));
    UsesById(Get(config, "toolId"), m.id);
    UsesById(Get(config, "tool_id"), m.id);
    if ConfigUses(config, m.id) {
      ConfigIsRedirected(config, m);
    }
  }

  /** A node without a configuration is left alone. */
  lemma OtherNodeStep(node: Json, m: Migration)
    requires !ConfigUnder(node, "toolConfig") && !ConfigUnder(node, "config")
    ensures Step(ToolNode, node, m) == node
  {
  }
}
