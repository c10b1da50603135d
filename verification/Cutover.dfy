/** The cutover itself: legacy database tools become builtin tools, their connections are re-keyed,
    policies merged and references rewritten, all in one transaction.

    Tables are sequences of rows. Tools are listed in the order in which the migration meets them
    and connections in the order of their creation; nothing else is assumed of either order.
  */
module Cutover {
  import opened Options
  import opened ApprovalPolicy
  import opened ReferenceRewrite

  /** Ids are UUIDs, so never empty. */
  type Id = s: string | s != "" witness "0"

  /** A configuration or a set of credentials; what is in it only the environment knows. */
  type Secret = string

  datatype ToolKind = CustomTool | McpTool | BuiltinTool

  /** `config` and `credentials` are missing when the stored mapping is empty. */
  datatype Tool = Tool(
    id: Id, team: Option<string>, name: string, kind: ToolKind, customType: Option<string>,
    config: Option<Secret>, credentials: Option<Secret>, policy: PolicyValue,
    enabled: bool, version: nat, creator: Option<string>, isPrivate: bool)

  datatype Scope = UserScope | TeamScope | SiteScope

  datatype Slot = Slot(scope: Scope, team: Option<string>, owner: Option<string>, service: Service)

  /** What a connection serves: a tool definition or a builtin. */
  datatype Service = ForTool(id: Id) | ForBuiltin(key: string)

  datatype Connection = Connection(
    id: Id, service: Service, scope: Scope, team: Option<string>, owner: Option<string>, name: string,
    secret: Secret, secretVersion: int, isDefault: bool, slot: Option<Slot>)

  datatype Tables = Tables(
    tools: seq<Tool>, connections: seq<Connection>,
    agents: seq<seq<Json>>, workflows: seq<Fields>, versions: seq<Fields>)

  datatype Problem =
    | UnsupportedEngine | NoTeam | NameTaken | NotMaterialized | BadConfig | DefaultClash
    | InvalidConnection | BadPolicy | DuplicateEntry

  datatype Outcome<+T> = Done(value: T) | Failed(problem: Problem)

  /** What the migration does not decide: the engine a configuration names, how a configuration,
      definition credentials and stored secrets merge (missing or unreadable ones fail), which
      builtins can be materialised, the policy a fresh builtin gets, and fresh ids. */
  datatype Environment = Environment(
    engine: Option<Secret> -> Option<string>,
    merge: (Option<Secret>, Option<Secret>, Option<Secret>, string) -> Option<Secret>,
    materializes: string -> bool,
    builtinPolicy: PolicyValue,
    newId: nat -> Id)

  // ---------------------------------------------------------------- legacy tools

  /** `UPDATE tools SET custom_type = NULL WHERE custom_type = 'database'` */
  function ClearedTool(t: Tool): Tool {
    if t.customType == Some("database") then t.(customType := None) else t
  }

  function Cleared(tools: seq<Tool>): seq<Tool> {
    seq(|tools|, i requires 0 <= i < |tools| => ClearedTool(tools[i]))
  }

  /** A custom tool that was a database tool, by its type or by its configuration. */
  predicate IsLegacy(t: Tool) {
    t.kind.CustomTool? && (t.customType == Some("database") || (t.customType.None? && t.config.Some?))
  }

  /** The rows to migrate among the first `n`. */
  function LegacyRows(tools: seq<Tool>, n: nat): (rows: seq<nat>)
    requires n <= |tools|
    ensures forall k :: 0 <= k < |rows| ==> rows[k] < n && IsLegacy(tools[rows[k]])
    ensures forall k, l :: 0 <= k < l < |rows| ==> rows[k] < rows[l]
    ensures forall i :: 0 <= i < n && IsLegacy(tools[i]) ==> i in rows
  {
    if n == 0 then []
    else LegacyRows(tools, n - 1) + (if IsLegacy(tools[n - 1]) then [n - 1] else [])
  }

  // ---------------------------------------------------------------- the target definition

  /** The row of that team and name, or the length. */
  function FindNamed(tools: seq<Tool>, team: Option<string>, name: string): (k: nat)
    ensures k <= |tools|
    ensures k < |tools| ==> tools[k].team == team && tools[k].name == name
    ensures forall i :: 0 <= i < k ==> !(tools[i].team == team && tools[i].name == name)
  {
    if tools == [] || (tools[0].team == team && tools[0].name == name) then 0
    else 1 + FindNamed(tools[1..], team, name)
  }

  function FreshBuiltin(env: Environment, n: nat, team: Option<string>, key: string): Tool {
    Tool(env.newId(n), team, key, BuiltinTool, None, None, None, env.builtinPolicy, true, 1, None, false)
  }

  /** `_require_target_definition`: the builtin row to merge into, created if it is missing. */
  function Located(env: Environment, tools: seq<Tool>, i: nat, key: string): Outcome<(seq<Tool>, nat)>
    requires i < |tools|
  {
    if tools[i].name == key then Done((tools, i))
    else
      var j := FindNamed(tools, tools[i].team, key);
      if j < |tools| then
        if tools[j].kind.BuiltinTool? then Done((tools, j)) else Failed(NameTaken)
      else if !env.materializes(key) then Failed(NotMaterialized)
      else Done((tools + [FreshBuiltin(env, |tools|, tools[i].team, key)], |tools|))
  }

  // ---------------------------------------------------------------- connections

  predicate WellScoped(c: Connection) {
    match c.scope
    case UserScope => c.owner.Some? && c.team.Some?
    case TeamScope => c.owner.None? && c.team.Some?
    case SiteScope => c.owner.None? && c.team.None?
  }

  /** The default slot of the connection's scope for a builtin; only what the scope has counts. */
  function DefaultSlot(c: Connection, key: string): Slot {
    match c.scope
    case SiteScope => Slot(SiteScope, None, None, ForBuiltin(key))
    case TeamScope => Slot(TeamScope, c.team, None, ForBuiltin(key))
    case UserScope => Slot(UserScope, c.team, c.owner, ForBuiltin(key))
  }

  predicate SlotTaken(rows: seq<Connection>, slot: Slot, k: nat) {
    exists i :: 0 <= i < |rows| && i != k && rows[i].slot == Some(slot)
  }

  function Rekeyed(c: Connection, key: string, secret: Secret): Connection {
    c.(service := ForBuiltin(key), secret := secret, secretVersion := c.secretVersion + 1,
       slot := if c.isDefault then Some(DefaultSlot(c, key)) else None)
  }

  /** `_migrate_existing_connection` on row `k`, if the legacy tool owns it. */
  function RekeyRow(env: Environment, rows: seq<Connection>, k: nat, legacy: Tool, key: string): Outcome<seq<Connection>>
    requires k < |rows|
  {
    var c := rows[k];
    if c.service != ForTool(legacy.id) then Done(rows)
    else
      var secret := env.merge(legacy.config, legacy.credentials, Some(c.secret), key);
      if secret.None? then Failed(BadConfig)
      else if c.isDefault && SlotTaken(rows, DefaultSlot(c, key), k) then Failed(DefaultClash)
      else if !WellScoped(c) then Failed(InvalidConnection)
      else Done(rows[k := Rekeyed(c, key, secret.value)])
  }

  function RekeyRows(env: Environment, rows: seq<Connection>, n: nat, legacy: Tool, key: string): (r: Outcome<seq<Connection>>)
    requires n <= |rows|
    ensures r.Done? ==> |r.value| == |rows|
  {
    if n == 0 then Done(rows)
    else
      match RekeyRows(env, rows, n - 1, legacy, key)
      case Done(before) => RekeyRow(env, before, n - 1, legacy, key)
      case failure => failure
  }

  /** The rows among the first `n` that the tool owns. */
  function Owned(rows: seq<Connection>, n: nat, id: Id): (owned: seq<nat>)
    requires n <= |rows|
    ensures forall k: nat :: k in owned <==> k < n && rows[k].service == ForTool(id)
    ensures forall i :: 0 <= i < |owned| ==> owned[i] < n
  {
    if n == 0 then []
    else Owned(rows, n - 1, id) + (if rows[n - 1].service == ForTool(id) then [n - 1] else [])
  }

  function Shortened(name: string): string {
    if |name| > 100 then name[..100] else name
  }

  /** A legacy tool without a connection gets one, personal if the tool was its creator's alone. */
  function NewConnection(env: Environment, n: nat, legacy: Tool, key: string, secret: Secret): Connection {
    var owner := if legacy.isPrivate then legacy.creator else None;
    Connection(env.newId(n), ForBuiltin(key), if owner.Some? then UserScope else TeamScope, legacy.team, owner,
               Shortened("Migrated " + legacy.name), secret, 1, false, None)
  }

  /** All of the tool's connections, and the one references may be bound to. */
  function Connected(env: Environment, rows: seq<Connection>, legacy: Tool, key: string): Outcome<(seq<Connection>, Option<Bound>)> {
    match RekeyRows(env, rows, |rows|, legacy, key)
    case Failed(problem) => Failed(problem)
    case Done(rekeyed) =>
      var owned := Owned(rows, |rows|, legacy.id);
      if owned == [] then
        var secret := env.merge(legacy.config, legacy.credentials, None, key);
        if secret.None? then Failed(BadConfig)
        else
          var c := NewConnection(env, |rows|, legacy, key, secret.value);
          Done((rekeyed + [c], Some(Bound(c.id, c.scope.UserScope?))))
      else
        var c := rows[owned[0]];
        Done((rekeyed, if |owned| == 1 then Some(Bound(c.id, c.scope.UserScope?)) else None))
  }

  // ---------------------------------------------------------------- one tool

  /** `int(version or 1) + 1` */
  function Bumped(version: nat): nat {
    (if version == 0 then 1 else version) + 1
  }

  function MergedPolicy(target: Tool, legacy: Tool, isTarget: bool): Outcome<PolicyValue> {
    if isTarget then
      match Merged([legacy.policy, Absent])
      case Ok(p) => Done(Parsed(p))
      case _ => Failed(BadPolicy)
    else
      match FlattenValue(legacy.policy)
      case Ok(flat) =>
        (match Merged([target.policy, flat])
         case Ok(p) => Done(Parsed(p))
         case _ => Failed(BadPolicy))
      case _ => Failed(BadPolicy)
  }

  /** A legacy row that keeps its place but never runs again. */
  function RetiredTool(legacy: Tool): Tool {
    legacy.(kind := BuiltinTool, customType := None, enabled := false, config := None, credentials := None)
  }

  /** A legacy row that carries the builtin's name and becomes the builtin. */
  function ConvertedTool(legacy: Tool, policy: PolicyValue): Tool {
    legacy.(kind := BuiltinTool, customType := None, version := Bumped(legacy.version), policy := policy,
            config := None, credentials := None)
  }

  function MergedTarget(target: Tool, legacy: Tool, policy: PolicyValue): Tool {
    target.(policy := policy, enabled := target.enabled && legacy.enabled, version := Bumped(target.version))
  }

  /** `_migrate_one` */
  function MigrateOne(env: Environment, t: Tables, i: nat): (r: Outcome<(Tables, Migration)>)
    requires i < |t.tools|
    ensures r.Done? ==> |t.tools| <= |r.value.0.tools|
  {
    var legacy := t.tools[i];
    var key := env.engine(legacy.config);
    if key.None? then Failed(UnsupportedEngine)
    else if legacy.team.None? then Failed(NoTeam)
    else
      match Located(env, t.tools, i, key.value)
      case Failed(problem) => Failed(problem)
      case Done((tools, j)) =>
        match Connected(env, t.connections, legacy, key.value)
        case Failed(problem) => Failed(problem)
        case Done((connections, bound)) =>
          match MergedPolicy(tools[j], legacy, i == j)
          case Failed(problem) => Failed(problem)
          case Done(policy) =>
            var after := if i == j then tools[i := ConvertedTool(legacy, policy)]
                         else tools[i := RetiredTool(legacy)][j := MergedTarget(tools[j], legacy, policy)];
            Done((t.(tools := after, connections := connections), Migration(legacy.id, key.value, bound)))
  }

  /** The first `n` legacy rows migrated, in order. */
  function MigrateRows(env: Environment, t: Tables, rows: seq<nat>): (r: Outcome<(Tables, seq<Migration>)>)
    requires forall k :: 0 <= k < |rows| ==> rows[k] < |t.tools|
    ensures r.Done? ==> |t.tools| <= |r.value.0.tools|
  {
    if rows == [] then Done((t, []))
    else
      var n := |rows| - 1;
      match MigrateRows(env, t, rows[..n])
      case Failed(problem) => Failed(problem)
      case Done((before, ms)) =>
        match MigrateOne(env, before, rows[n])
        case Failed(problem) => Failed(problem)
        case Done((after, m)) => Done((after, ms + [m]))
  }

  // ---------------------------------------------------------------- references and the whole run

  function RewrittenAgents(agents: seq<seq<Json>>, ms: seq<Migration>): seq<seq<Json>> {
    seq(|agents|, i requires 0 <= i < |agents| => RewrittenByAll(AgentEntry, agents[i], ms))
  }

  function RewrittenDefinitions(definitions: seq<Fields>, ms: seq<Migration>): seq<Fields> {
    seq(|definitions|, i requires 0 <= i < |definitions| =>
      WithNodes(definitions[i], RewrittenByAll(ToolNode, Nodes(definitions[i]), ms)))
  }

  function RewriteReferences(t: Tables, ms: seq<Migration>): Outcome<Tables> {
    var agents := RewrittenAgents(t.agents, ms);
    if exists i :: 0 <= i < |agents| && !Attachable(agents[i], ms) then Failed(DuplicateEntry)
    else Done(t.(agents := agents, workflows := RewrittenDefinitions(t.workflows, ms),
                 versions := RewrittenDefinitions(t.versions, ms)))
  }

  /** `migrate_custom_database_tools`, as a transaction: a failure leaves the tables as they were. */
  function Run(env: Environment, t: Tables): Outcome<Tables> {
    var cleared := t.(tools := Cleared(t.tools));
    var rows := LegacyRows(t.tools, |t.tools|);
    if rows == [] then Done(cleared)
    else
      match MigrateRows(env, cleared, rows)
      case Failed(problem) => Failed(problem)
      case Done((migrated, ms)) => RewriteReferences(migrated, ms)
  }

  lemma {:induction false} RekeyFails(env: Environment, rows: seq<Connection>, n: nat, legacy: Tool, key: string)
    requires n < |rows| && RekeyRows(env, rows, n, legacy, key).Done?
    requires RekeyRow(env, RekeyRows(env, rows, n, legacy, key).value, n, legacy, key).Failed?
    ensures RekeyRows(env, rows, |rows|, legacy, key) == RekeyRow(env, RekeyRows(env, rows, n, legacy, key).value, n, legacy, key)
  {
    RekeyFailureStays(env, rows, n + 1, |rows|, legacy, key);
  }

  lemma {:induction false} RekeyFailureStays(env: Environment, rows: seq<Connection>, n: nat, m: nat, legacy: Tool, key: string)
    requires n <= m <= |rows| && RekeyRows(env, rows, n, legacy, key).Failed?
    ensures RekeyRows(env, rows, m, legacy, key) == RekeyRows(env, rows, n, legacy, key)
  {
    if n < m { RekeyFailureStays(env, rows, n, m - 1, legacy, key); }
  }

  /** What a re-keyed row has in common with the row it was. */
  predicate SameConnection(a: Connection, b: Connection) {
    && a.id == b.id && a.scope == b.scope && a.team == b.team && a.owner == b.owner && a.name == b.name
    && a.isDefault == b.isDefault
  }

  /** Re-keying touches the tool's own rows only, and of them only service, secret and slot. */
  lemma {:induction false} RekeyKeeps(env: Environment, rows: seq<Connection>, n: nat, legacy: Tool, key: string, k: nat)
    requires n <= |rows| && k < |rows| && RekeyRows(env, rows, n, legacy, key).Done?
    ensures var after := RekeyRows(env, rows, n, legacy, key).value[k];
            && SameConnection(rows[k], after)
            && (if k < n && rows[k].service == ForTool(legacy.id) then
                  after == Rekeyed(rows[k], key, after.secret) && WellScoped(after)
                  && Some(after.secret) == env.merge(legacy.config, legacy.credentials, Some(rows[k].secret), key)
                else after == rows[k])
  {
    if n > 0 {
      RekeyKeeps(env, rows, n - 1, legacy, key, k);
      RekeyKeeps(env, rows, n - 1, legacy, key, n - 1);
    }
  }

  lemma {:induction false} MigrationFails(env: Environment, t: Tables, rows: seq<nat>, n: nat)
    requires forall k :: 0 <= k < |rows| ==> rows[k] < |t.tools|
    requires n <= |rows| && MigrateRows(env, t, rows[..n]).Failed?
    ensures MigrateRows(env, t, rows) == MigrateRows(env, t, rows[..n])
    decreases |rows|
  {
    if n == |rows| {
      assert rows[..n] == rows;
    } else {
      var front := rows[..|rows| - 1];
      assert front[..n] == rows[..n];
      MigrationFails(env, t, front, n);
    }
  }

  // ---------------------------------------------------------------- the tables, updated in place

  class Database {
    var tools: seq<Tool>
    var connections: seq<Connection>
    var agents: seq<seq<Json>>
    var workflows: seq<Fields>
    var versions: seq<Fields>

    ghost function Contents(): Tables
      reads this
    {
      Tables(tools, connections, agents, workflows, versions)
    }

    constructor (t: Tables)
      ensures Contents() == t
    {
      tools, connections := t.tools, t.connections;
      agents, workflows, versions := t.agents, t.workflows, t.versions;
    }

    method ClearRetiredType()
      modifies this`tools
      ensures tools == Cleared(old(tools))
    {
      for i := 0 to |tools|
        invariant |tools| == |old(tools)|
        invariant forall k :: 0 <= k < |tools| ==> tools[k] == if k < i then ClearedTool(old(tools)[k]) else old(tools)[k]
      {
        if tools[i].customType == Some("database") {
          tools := tools[i := tools[i].(customType := None)];
        }
      }
    }

    /** A failure may leave some rows re-keyed; the transaction undoes that. */
    method RekeyConnections(env: Environment, legacy: Tool, key: string) returns (r: Outcome<seq<nat>>)
      modifies this`connections
      ensures var all := RekeyRows(env, old(connections), |old(connections)|, legacy, key);
              if r.Done? then all == Done(connections) && r.value == Owned(old(connections), |old(connections)|, legacy.id)
              else all == Failed(r.problem)
    {
      var migrated := [];
      ghost var before := connections;
      for k := 0 to |connections|
        invariant |connections| == |before|
        invariant RekeyRows(env, before, k, legacy, key) == Done(connections)
        invariant connections[k..] == before[k..]
        invariant migrated == Owned(before, k, legacy.id)
      {
        var c := connections[k];
        assert c == before[k..][0];
        if c.service == ForTool(legacy.id) {
          var secret := env.merge(legacy.config, legacy.credentials, Some(c.secret), key);
          if secret.None? {
            RekeyFails(env, before, k, legacy, key);
            return Failed(BadConfig);
          }
          var slot := None;
          if c.isDefault {
            slot := Some(DefaultSlot(c, key));
            if SlotTaken(connections, slot.value, k) {
              RekeyFails(env, before, k, legacy, key);
              return Failed(DefaultClash);
            }
          }
          if !WellScoped(c) {
            RekeyFails(env, before, k, legacy, key);
            return Failed(InvalidConnection);
          }
          connections := connections[k := c.(service := ForBuiltin(key), secret := secret.value,
                                             secretVersion := c.secretVersion + 1, slot := slot)];
          migrated := migrated + [k];
        }
      }
      r := Done(migrated);
    }

    /** The connections of a legacy tool are re-keyed, or one is made; a single one is bound to. */
    method ConnectTool(env: Environment, legacy: Tool, key: string) returns (r: Outcome<Option<Bound>>)
      modifies this`connections
      ensures var all := Connected(env, old(connections), legacy, key);
              if r.Done? then all == Done((connections, r.value)) else all == Failed(r.problem)
    {
      ghost var rows := connections;
      var migrated := RekeyConnections(env, legacy, key);
      if migrated.Failed? { return Failed(migrated.problem); }
      var bound := None;
      if migrated.value == [] {
        var secret := env.merge(legacy.config, legacy.credentials, None, key);
        if secret.None? { return Failed(BadConfig); }
        var c := NewConnection(env, |connections|, legacy, key, secret.value);
        connections := connections + [c];
        bound := Some(Bound(c.id, c.scope.UserScope?));
      } else if |migrated.value| == 1 {
        var k := migrated.value[0];
        RekeyKeeps(env, rows, |rows|, legacy, key, k);
        bound := Some(Bound(connections[k].id, connections[k].scope.UserScope?));
      }
      r := Done(bound);
    }

    /** `_migrate_one` */
    method MigrateTool(env: Environment, i: nat) returns (r: Outcome<Migration>)
      requires i < |tools|
      modifies this`tools, this`connections
      ensures var one := MigrateOne(env, old(Contents()), i);
              if r.Done? then one == Done((Contents(), r.value)) else one == Failed(r.problem)
    {
      var legacy := tools[i];
      var key := env.engine(legacy.config);
      if key.None? { return Failed(UnsupportedEngine); }
      if legacy.team.None? { return Failed(NoTeam); }
      var j := i;
      if legacy.name != key.value {
        j := FindNamed(tools, legacy.team, key.value);
        if j < |tools| {
          if !tools[j].kind.BuiltinTool? { return Failed(NameTaken); }
        } else {
          if !env.materializes(key.value) { return Failed(NotMaterialized); }
          tools := tools + [FreshBuiltin(env, |tools|, legacy.team, key.value)];
        }
      }
      var bound := ConnectTool(env, legacy, key.value);
      if bound.Failed? { return Failed(bound.problem); }
      var policy := MergedPolicy(tools[j], legacy, i == j);
      if policy.Failed? { return Failed(policy.problem); }
      if i == j {
        tools := tools[i := ConvertedTool(legacy, policy.value)];
      } else {
        tools := tools[i := RetiredTool(legacy)];
        tools := tools[j := MergedTarget(tools[j], legacy, policy.value)];
      }
      r := Done(Migration(legacy.id, key.value, bound.value));
    }

    method RewriteAgents(ms: seq<Migration>) returns (ok: bool)
      modifies this`agents
      ensures ok <==> forall i :: 0 <= i < |old(agents)| ==> Attachable(RewrittenAgents(old(agents), ms)[i], ms)
      ensures ok ==> agents == RewrittenAgents(old(agents), ms)
    {
      ghost var before, all := agents, RewrittenAgents(agents, ms);
      for i := 0 to |agents|
        invariant |agents| == |before| == |all|
        invariant agents[i..] == before[i..] && agents[..i] == all[..i]
        invariant forall k :: 0 <= k < i ==> Attachable(all[k], ms)
      {
        assert agents[i] == before[i..][0] == before[i];
        assert all[i] == RewrittenByAll(AgentEntry, before[i], ms);
        var rewrite := RewriteAgent(agents[i], ms);
        if rewrite.DuplicateAttachment? {
          return false;
        }
        if rewrite.changed {
          agents := agents[i := rewrite.items];
        }
        assert agents[..i + 1] == all[..i] + [all[i]];
      }
      ok := true;
    }

    method RewriteWorkflows(ms: seq<Migration>)
      modifies this`workflows
      ensures workflows == RewrittenDefinitions(old(workflows), ms)
    {
      ghost var before := workflows;
      for i := 0 to |workflows|
        invariant |workflows| == |before|
        invariant forall k :: 0 <= k < |before| ==>
                    workflows[k] == if k < i then RewrittenDefinitions(before, ms)[k] else before[k]
      {
        var definition, changed := RewriteDefinition(workflows[i], ms);
        if changed {
          workflows := workflows[i := definition];
        }
      }
    }

    method RewriteVersions(ms: seq<Migration>)
      modifies this`versions
      ensures versions == RewrittenDefinitions(old(versions), ms)
    {
      ghost var before := versions;
      for i := 0 to |versions|
        invariant |versions| == |before|
        invariant forall k :: 0 <= k < |before| ==>
                    versions[k] == if k < i then RewrittenDefinitions(before, ms)[k] else before[k]
      {
        var definition, changed := RewriteDefinition(versions[i], ms);
        if changed {
          versions := versions[i := definition];
        }
      }
    }

    /** All rows, one after the other; the first failure ends it. */
    method MigrateAll(env: Environment, rows: seq<nat>) returns (r: Outcome<seq<Migration>>)
      requires forall k :: 0 <= k < |rows| ==> rows[k] < |tools|
      modifies this`tools, this`connections
      ensures var all := MigrateRows(env, old(Contents()), rows);
              if r.Done? then all == Done((Contents(), r.value)) else all == Failed(r.problem)
    {
      ghost var before := Contents();
      var ms := [];
      for n := 0 to |rows|
        invariant MigrateRows(env, before, rows[..n]) == Done((Contents(), ms))
        invariant |before.tools| <= |tools|
      {
        assert rows[..n + 1][..n] == rows[..n];
        var one := MigrateTool(env, rows[n]);
        if one.Failed? {
          MigrationFails(env, before, rows, n + 1);
          return Failed(one.problem);
        }
        ms := ms + [one.value];
      }
      assert rows[..|rows|] == rows;
      r := Done(ms);
    }

    /** `migrate_custom_database_tools`; on failure the transaction restores every table. */
    method Migrate(env: Environment) returns (r: Outcome<()>)
      modifies this
      ensures if r.Done? then Run(env, old(Contents())) == Done(Contents())
              else Run(env, old(Contents())) == Failed(r.problem) && Contents() == old(Contents())
    {
      var tools0, connections0, agents0, workflows0, versions0 := tools, connections, agents, workflows, versions;
      var rows := LegacyRows(tools, |tools|);
      ClearRetiredType();
      if rows == [] {
        return Done(());
      }
      var migrated := MigrateAll(env, rows);
      var problem := None;
      if migrated.Failed? {
        problem := Some(migrated.problem);
      } else {
        var ok := RewriteAgents(migrated.value);
        if ok {
          RewriteWorkflows(migrated.value);
          RewriteVersions(migrated.value);
        } else {
          problem := Some(DuplicateEntry);
        }
      }
      if problem.Some? {
        tools, connections, agents, workflows, versions := tools0, connections0, agents0, workflows0, versions0;
        return Failed(problem.value);
      }
      r := Done(());
    }
  }
}
