/** What a successful cutover guarantees: a second one finds nothing to do, every definition is
    enabled, versioned and guarded as the tools that merged into it demand, every connection keeps
    its identity, and no default slot is shared.
  */
module CutoverTheorems {
  import opened Options
  import opened ApprovalPolicy
  import opened ApprovalTheorems
  import opened ReferenceRewrite
  import opened Cutover

  // ---------------------------------------------------------------- one migration, row by row

  /** `unique_together` of team and name. */
  ghost predicate UniqueNames(tools: seq<Tool>) {
    forall i, j :: 0 <= i < j < |tools| ==> tools[i].team != tools[j].team || tools[i].name != tools[j].name
  }

  function KeyOf(env: Environment, legacy: Tool): Option<string> {
    env.engine(legacy.config)
  }

  /** The tool is folded into the definition of that team and name, which is not itself. */
  predicate Into(env: Environment, legacy: Tool, row: Tool) {
    legacy.team == row.team && KeyOf(env, legacy) == Some(row.name) && legacy.name != row.name
  }

  /** The row does not become the builtin it is migrated to. */
  predicate Retires(env: Environment, legacy: Tool) {
    KeyOf(env, legacy) != Some(legacy.name)
  }

  /** What happens to row `k` when row `i` of `tools` is migrated. */
  ghost predicate RowStep(env: Environment, tools: seq<Tool>, i: nat, after: seq<Tool>, k: nat)
    requires i < |tools| && k < |after|
  {
    var legacy := tools[i];
    var key := KeyOf(env, legacy);
    if k == i then
      if Retires(env, legacy) then after[k] == RetiredTool(legacy)
      else exists p :: MergedPolicy(legacy, legacy, true) == Done(p) && after[k] == ConvertedTool(legacy, p)
    else
      var row := if k < |tools| then tools[k] else FreshBuiltin(env, k, after[k].team, after[k].name);
      if Into(env, legacy, row) then
        row.kind.BuiltinTool? && exists p :: MergedPolicy(row, legacy, false) == Done(p) && after[k] == MergedTarget(row, legacy, p)
      else k < |tools| && after[k] == row
  }

  lemma NamedOnce(tools: seq<Tool>, team: Option<string>, name: string, k: nat)
    requires UniqueNames(tools) && k < |tools| && tools[k].team == team && tools[k].name == name
    ensures FindNamed(tools, team, name) == k
  {
  }

  lemma MigratedRow(env: Environment, t: Tables, i: nat, k: nat)
    requires i < |t.tools| && UniqueNames(t.tools) && MigrateOne(env, t, i).Done?
    requires k < |MigrateOne(env, t, i).value.0.tools|
    ensures RowStep(env, t.tools, i, MigrateOne(env, t, i).value.0.tools, k)
  {
    var legacy := t.tools[i];
    var key := KeyOf(env, legacy).value;
    var j := Located(env, t.tools, i, key).value.1;
    if k < |t.tools| && k != i && Into(env, legacy, t.tools[k]) {
      NamedOnce(t.tools, legacy.team, key, k);
    }
  }

  ghost predicate SameNames(before: seq<Tool>, after: seq<Tool>) {
    && |before| <= |after|
    && forall k :: 0 <= k < |before| ==> after[k].team == before[k].team && after[k].name == before[k].name
  }

  lemma LocatedNames(env: Environment, tools: seq<Tool>, i: nat, key: string)
    requires i < |tools| && UniqueNames(tools) && Located(env, tools, i, key).Done?
    ensures var located := Located(env, tools, i, key).value.0;
            SameNames(tools, located) && UniqueNames(located)
  {
  }

  lemma NamesKept(a: seq<Tool>, b: seq<Tool>)
    requires SameNames(a, b) && |a| == |b| && UniqueNames(a)
    ensures UniqueNames(b)
  {
  }

  lemma MigratedNames(env: Environment, t: Tables, i: nat)
    requires i < |t.tools| && UniqueNames(t.tools) && MigrateOne(env, t, i).Done?
    ensures UniqueNames(MigrateOne(env, t, i).value.0.tools) && SameNames(t.tools, MigrateOne(env, t, i).value.0.tools)
  {
    var located := Located(env, t.tools, i, KeyOf(env, t.tools[i]).value).value.0;
    LocatedNames(env, t.tools, i, KeyOf(env, t.tools[i]).value);
    NamesKept(located, MigrateOne(env, t, i).value.0.tools);
  }

  // ---------------------------------------------------------------- all migrations, row by row

  /** The row a definition started as: the stored one, or the builtin created in its place. */
  function Base(env: Environment, tools: seq<Tool>, k: nat, row: Tool): Tool {
    if k < |tools| then tools[k] else FreshBuiltin(env, k, row.team, row.name)
  }

  predicate Listed(tools: seq<Tool>, rows: seq<nat>) {
    forall k :: 0 <= k < |rows| ==> rows[k] < |tools|
  }

  /** Custom tools, each once, in the order of their rows. */
  ghost predicate Schedule(tools: seq<Tool>, rows: seq<nat>) {
    && Listed(tools, rows)
    && (forall k, l :: 0 <= k < l < |rows| ==> rows[k] < rows[l])
    && (forall k :: 0 <= k < |rows| ==> tools[rows[k]].kind.CustomTool?)
  }

  lemma SchedulePrefix(tools: seq<Tool>, rows: seq<nat>, n: nat)
    requires Schedule(tools, rows) && n < |rows|
    ensures Schedule(tools, rows[..n]) && rows[n] !in rows[..n] && tools[rows[n]].kind.CustomTool?
    ensures rows[..n + 1] == rows[..n] + [rows[n]]
  {
  }

  /** The last migration of a successful series. */
  lemma LastMigration(env: Environment, t: Tables, rows: seq<nat>)
    requires Schedule(t.tools, rows) && rows != [] && MigrateRows(env, t, rows).Done?
    ensures var n := |rows| - 1;
            && Schedule(t.tools, rows[..n]) && rows[n] !in rows[..n] && t.tools[rows[n]].kind.CustomTool?
            && rows == rows[..n] + [rows[n]]
            && MigrateRows(env, t, rows[..n]).Done?
            && var before := MigrateRows(env, t, rows[..n]).value;
               var one := MigrateOne(env, before.0, rows[n]);
               one.Done? && MigrateRows(env, t, rows).value == (one.value.0, before.1 + [one.value.1])
  {
    SchedulePrefix(t.tools, rows, |rows| - 1);
    assert rows[..|rows|] == rows;
  }

  /** The policies of the tools among `rows` that were merged into the definition, in order. */
  function PoliciesInto(env: Environment, tools: seq<Tool>, rows: seq<nat>, base: Tool): seq<PolicyValue>
    requires Listed(tools, rows)
  {
    if rows == [] then []
    else
      var n := |rows| - 1;
      PoliciesInto(env, tools, rows[..n], base)
      + (if Into(env, tools[rows[n]], base) then [tools[rows[n]].policy] else [])
  }

  /** The policy a definition brings along; a converted row's own, read once. */
  function OwnPolicy(env: Environment, tools: seq<Tool>, rows: seq<nat>, k: nat, base: Tool): Outcome<PolicyValue>
    requires k in rows ==> k < |tools|
  {
    if k in rows && !Retires(env, tools[k]) then MergedPolicy(tools[k], tools[k], true) else Done(base.policy)
  }

  predicate EnabledBy(env: Environment, tools: seq<Tool>, rows: seq<nat>, k: nat, base: Tool)
    requires Listed(tools, rows)
  {
    && base.enabled
    && !(k in rows && Retires(env, tools[k]))
    && forall r :: r in rows && Into(env, tools[r], base) ==> tools[r].enabled
  }

  predicate TouchedBy(env: Environment, tools: seq<Tool>, rows: seq<nat>, k: nat, base: Tool)
    requires Listed(tools, rows)
  {
    (k in rows && !Retires(env, tools[k])) || exists r :: r in rows && Into(env, tools[r], base)
  }

  /** How often a definition was converted or merged into. */
  function Changes(env: Environment, tools: seq<Tool>, rows: seq<nat>, k: nat, base: Tool): nat
    requires Listed(tools, rows)
  {
    (if k in rows && !Retires(env, tools[k]) then 1 else 0) + |PoliciesInto(env, tools, rows, base)|
  }

  /** The version after `n` changes; a missing one counts as 1. */
  function Advanced(version: nat, n: nat): nat {
    if n == 0 then version else (if version == 0 then 1 else version) + n
  }

  /** What becomes of `base`, as a row: whether it was migrated itself, its own policy and those merged into
      it, whether it ends enabled, whether anything touched it and how often. */
  predicate RowOf(row: Tool, base: Tool, migrated: bool, own: Outcome<PolicyValue>, policies: seq<PolicyValue>,
                  enabled: bool, touched: bool, changes: nat)
  {
    && (if migrated then
          row == base.(kind := BuiltinTool, customType := None, config := None, credentials := None,
                       policy := row.policy, enabled := row.enabled, version := row.version)
        else row == base.(policy := row.policy, enabled := row.enabled, version := row.version))
    && (row.kind.CustomTool? ==> row == base && policies == [])
    && row.enabled == enabled
    && (if touched then base.version < row.version else base.version == row.version)
    && row.version == Advanced(base.version, changes)
    && own.Done? && OneByOne(own.value, policies) == Ok(row.policy)
  }

  /** The migrations of `rows` made `row` of its base. */
  ghost predicate RowOk(env: Environment, tools: seq<Tool>, rows: seq<nat>, k: nat, row: Tool)
    requires Listed(tools, rows)
  {
    var base := Base(env, tools, k, row);
    RowOf(row, base, k in rows, OwnPolicy(env, tools, rows, k, base), PoliciesInto(env, tools, rows, base),
          EnabledBy(env, tools, rows, k, base), TouchedBy(env, tools, rows, k, base), Changes(env, tools, rows, k, base))
  }

  lemma RowOfMerged(row: Tool, base: Tool, migrated: bool, own: Outcome<PolicyValue>, policies: seq<PolicyValue>,
                    enabled: bool, touched: bool, changes: nat, legacy: Tool, p: PolicyValue)
    requires RowOf(row, base, migrated, own, policies, enabled, touched, changes) && row.kind.BuiltinTool?
    requires OneByOne(own.value, policies + [legacy.policy]) == Ok(p)
    ensures RowOf(MergedTarget(row, legacy, p), base, migrated, own, policies + [legacy.policy],
                  enabled && legacy.enabled, true, changes + 1)
  {
    assert MergedTarget(row, legacy, p).kind.BuiltinTool?;
  }

  lemma MergedIsOneByOne(start: PolicyValue, policies: seq<PolicyValue>, row: Tool, legacy: Tool)
    requires OneByOne(start, policies) == Ok(row.policy) && MergedPolicy(row, legacy, false).Done?
    ensures OneByOne(start, policies + [legacy.policy]) == Ok(MergedPolicy(row, legacy, false).value)
  {
    assert (policies + [legacy.policy])[..|policies|] == policies;
  }

  /** `more` accounts for row `k` as `rows` does, and for tool `i` besides. */
  ghost predicate Pushed(env: Environment, tools: seq<Tool>, rows: seq<nat>, more: seq<nat>, i: nat, k: nat, base: Tool)
    requires Listed(tools, rows) && Listed(tools, more) && i < |tools|
  {
    var into := Into(env, tools[i], base);
    && (k in more <==> k in rows)
    && PoliciesInto(env, tools, more, base) == PoliciesInto(env, tools, rows, base) + (if into then [tools[i].policy] else [])
    && (EnabledBy(env, tools, more, k, base) <==> EnabledBy(env, tools, rows, k, base) && (into ==> tools[i].enabled))
    && (TouchedBy(env, tools, more, k, base) <==> TouchedBy(env, tools, rows, k, base) || into)
    && Changes(env, tools, more, k, base) == Changes(env, tools, rows, k, base) + (if into then 1 else 0)
  }

  lemma PushedRow(env: Environment, tools: seq<Tool>, rows: seq<nat>, i: nat, k: nat, base: Tool)
    requires Listed(tools, rows) && i < |tools| && k != i
    ensures Listed(tools, rows + [i]) && Pushed(env, tools, rows, rows + [i], i, k, base)
  {
    assert (rows + [i])[..|rows|] == rows;
    assert forall r :: r in rows + [i] <==> r in rows || r == i;
  }

  lemma RowStays(env: Environment, tools: seq<Tool>, rows: seq<nat>, more: seq<nat>, i: nat, k: nat, row: Tool)
    requires Listed(tools, rows) && Listed(tools, more) && i < |tools|
    requires Pushed(env, tools, rows, more, i, k, Base(env, tools, k, row))
    requires RowOk(env, tools, rows, k, row) && !Into(env, tools[i], Base(env, tools, k, row))
    ensures RowOk(env, tools, more, k, row)
  {
    var policies := PoliciesInto(env, tools, rows, Base(env, tools, k, row));
    assert policies + [] == policies;
  }

  lemma RowMerges(env: Environment, tools: seq<Tool>, rows: seq<nat>, more: seq<nat>, i: nat, k: nat, row: Tool, p: PolicyValue)
    requires Listed(tools, rows) && Listed(tools, more) && i < |tools|
    requires Pushed(env, tools, rows, more, i, k, Base(env, tools, k, row))
    requires RowOk(env, tools, rows, k, row) && Into(env, tools[i], Base(env, tools, k, row))
    requires row.kind.BuiltinTool? && MergedPolicy(row, tools[i], false) == Done(p)
    ensures RowOk(env, tools, more, k, MergedTarget(row, tools[i], p))
  {
    var base := Base(env, tools, k, row);
    var own, policies := OwnPolicy(env, tools, rows, k, base), PoliciesInto(env, tools, rows, base);
    MergedIsOneByOne(own.value, policies, row, tools[i]);
    RowOfMerged(row, base, k in rows, own, policies, EnabledBy(env, tools, rows, k, base),
                TouchedBy(env, tools, rows, k, base), Changes(env, tools, rows, k, base), tools[i], p);
  }

  lemma RowIsMigrated(env: Environment, tools: seq<Tool>, rows: seq<nat>, i: nat, row: Tool)
    requires Listed(tools, rows) && i < |tools| && i !in rows
    requires RowOk(env, tools, rows, i, tools[i]) && tools[i].kind.CustomTool?
    requires if Retires(env, tools[i]) then row == RetiredTool(tools[i])
             else exists p :: MergedPolicy(tools[i], tools[i], true) == Done(p) && row == ConvertedTool(tools[i], p)
    ensures RowOk(env, tools, rows + [i], i, row)
  {
    assert (rows + [i])[..|rows|] == rows;
    assert forall r :: r in rows + [i] <==> r in rows || r == i;
    assert !Into(env, tools[i], tools[i]);
  }

  ghost predicate AllRowsOk(env: Environment, tools: seq<Tool>, rows: seq<nat>, after: seq<Tool>)
    requires Listed(tools, rows)
  {
    && |tools| <= |after| && UniqueNames(after)
    && (forall k :: 0 <= k < |after| ==> RowOk(env, tools, rows, k, after[k]))
    && (forall r :: r in rows ==> HasHome(env, after, tools[r]))
  }

  /** The definition a legacy tool belongs to is there. */
  predicate HasHome(env: Environment, after: seq<Tool>, legacy: Tool) {
    KeyOf(env, legacy).Some? && FindNamed(after, legacy.team, KeyOf(env, legacy).value) < |after|
  }

  lemma HomesStay(env: Environment, before: seq<Tool>, after: seq<Tool>, legacy: Tool)
    requires HasHome(env, before, legacy) && SameNames(before, after)
    ensures HasHome(env, after, legacy)
  {
    var k := FindNamed(before, legacy.team, KeyOf(env, legacy).value);
    assert after[k].team == legacy.team;
  }

  lemma NewHome(env: Environment, t: Tables, i: nat)
    requires i < |t.tools| && UniqueNames(t.tools) && MigrateOne(env, t, i).Done?
    ensures HasHome(env, MigrateOne(env, t, i).value.0.tools, t.tools[i])
  {
    var legacy, after := t.tools[i], MigrateOne(env, t, i).value.0.tools;
    var j := Located(env, t.tools, i, KeyOf(env, legacy).value).value.1;
    MigratedNames(env, t, i);
    assert after[j].team == legacy.team && after[j].name == KeyOf(env, legacy).value;
  }

  /** A builtin is created only for the first tool that needs it. */
  lemma FreshRow(env: Environment, tools: seq<Tool>, rows: seq<nat>, after: seq<Tool>, k: nat, team: Option<string>, key: string)
    requires Listed(tools, rows) && AllRowsOk(env, tools, rows, after) && |tools| <= k
    requires FindNamed(after, team, key) == |after|
    ensures RowOk(env, tools, rows, k, FreshBuiltin(env, k, team, key))
  {
    var row := FreshBuiltin(env, k, team, key);
    forall r | r in rows
      ensures !Into(env, tools[r], row)
    {
      assert HasHome(env, after, tools[r]);
    }
    NoPoliciesInto(env, tools, rows, row);
  }

  lemma {:induction false} NoPoliciesInto(env: Environment, tools: seq<Tool>, rows: seq<nat>, base: Tool)
    requires Listed(tools, rows) && forall r :: r in rows ==> !Into(env, tools[r], base)
    ensures PoliciesInto(env, tools, rows, base) == []
  {
    if rows != [] { NoPoliciesInto(env, tools, rows[..|rows| - 1], base); }
  }

  lemma OneMoreRow(env: Environment, tools: seq<Tool>, rows: seq<nat>, t: Tables, i: nat, k: nat)
    requires Listed(tools, rows) && AllRowsOk(env, tools, rows, t.tools)
    requires i < |tools| && i !in rows && tools[i].kind.CustomTool? && MigrateOne(env, t, i).Done?
    requires k < |MigrateOne(env, t, i).value.0.tools|
    ensures RowOk(env, tools, rows + [i], k, MigrateOne(env, t, i).value.0.tools[k])
  {
    var after := MigrateOne(env, t, i).value.0.tools;
    assert RowOk(env, tools, rows, i, t.tools[i]);
    UntouchedLegacy(env, tools, rows, i, t.tools[i]);
    MigratedRow(env, t, i, k);
    MigratedNames(env, t, i);
    if k == i {
      RowIsMigrated(env, tools, rows, i, after[i]);
    } else {
      var row := if k < |t.tools| then t.tools[k] else FreshBuiltin(env, k, after[k].team, after[k].name);
      if k < |t.tools| {
        assert RowOk(env, tools, rows, k, row);
        IntoByName(env, tools[i], Base(env, tools, k, row), row);
      } else {
        FreshRow(env, tools, rows, t.tools, k, row.team, row.name);
      }
      PushedRow(env, tools, rows, i, k, Base(env, tools, k, row));
      if Into(env, tools[i], row) {
        var p :| MergedPolicy(row, tools[i], false) == Done(p) && after[k] == MergedTarget(row, tools[i], p);
        RowMerges(env, tools, rows, rows + [i], i, k, row, p);
      } else {
        RowStays(env, tools, rows, rows + [i], i, k, row);
      }
    }
  }

  lemma IntoByName(env: Environment, legacy: Tool, a: Tool, b: Tool)
    requires a.team == b.team && a.name == b.name
    ensures Into(env, legacy, a) == Into(env, legacy, b)
  {
  }

  /** A custom tool that was not migrated yet is as it was. */
  lemma UntouchedLegacy(env: Environment, tools: seq<Tool>, rows: seq<nat>, i: nat, row: Tool)
    requires Listed(tools, rows) && i < |tools| && i !in rows && RowOk(env, tools, rows, i, row)
    requires tools[i].kind.CustomTool?
    ensures row == tools[i]
  {
  }

  lemma {:induction false} RowsMigrated(env: Environment, t: Tables, rows: seq<nat>)
    requires Schedule(t.tools, rows) && UniqueNames(t.tools) && MigrateRows(env, t, rows).Done?
    ensures AllRowsOk(env, t.tools, rows, MigrateRows(env, t, rows).value.0.tools)
  {
    if rows == [] {
      forall k | 0 <= k < |t.tools|
        ensures RowOk(env, t.tools, [], k, t.tools[k])
      {
      }
    } else {
      var n := |rows| - 1;
      LastMigration(env, t, rows);
      RowsMigrated(env, t, rows[..n]);
      RowsMigratedStep(env, t.tools, rows[..n], MigrateRows(env, t, rows[..n]).value.0, rows[n]);
    }
  }

  lemma RowsMigratedStep(env: Environment, tools: seq<Tool>, rows: seq<nat>, t: Tables, i: nat)
    requires Listed(tools, rows) && AllRowsOk(env, tools, rows, t.tools)
    requires i < |tools| && i !in rows && tools[i].kind.CustomTool? && MigrateOne(env, t, i).Done?
    ensures AllRowsOk(env, tools, rows + [i], MigrateOne(env, t, i).value.0.tools)
  {
    var after := MigrateOne(env, t, i).value.0.tools;
    MigratedNames(env, t, i);
    assert RowOk(env, tools, rows, i, t.tools[i]);
    UntouchedLegacy(env, tools, rows, i, t.tools[i]);
    forall k | 0 <= k < |after|
      ensures RowOk(env, tools, rows + [i], k, after[k])
    {
      OneMoreRow(env, tools, rows, t, i, k);
    }
    forall r | r in rows + [i]
      ensures HasHome(env, after, tools[r])
    {
      if r in rows { HomesStay(env, t.tools, after, tools[r]); } else { NewHome(env, t, i); }
    }
  }

  lemma StillThere(env: Environment, t: Tables, rows: seq<nat>, k: nat)
    requires Schedule(t.tools, rows) && UniqueNames(t.tools) && MigrateRows(env, t, rows).Done?
    requires k < |t.tools| && k !in rows && t.tools[k].kind.CustomTool?
    ensures UniqueNames(MigrateRows(env, t, rows).value.0.tools) && MigrateRows(env, t, rows).value.0.tools[k] == t.tools[k]
  {
    RowsMigrated(env, t, rows);
    var before := MigrateRows(env, t, rows).value.0;
    assert RowOk(env, t.tools, rows, k, before.tools[k]);
    UntouchedLegacy(env, t.tools, rows, k, before.tools[k]);
  }

  // ---------------------------------------------------------------- connections

  /** The default slot is unique in the database. */
  ghost predicate SlotsDistinct(rows: seq<Connection>) {
    forall i, j :: 0 <= i < j < |rows| && rows[i].slot.Some? ==> rows[i].slot != rows[j].slot
  }

  /** The connection serves that builtin now, as the default of its scope, team and owner if it was a
      default. */
  predicate ServesBuiltin(c: Connection, key: string) {
    && c.service == ForBuiltin(key)
    && c.slot == (if c.isDefault then Some(Slot(c.scope, c.team, c.owner, c.service)) else None)
  }

  /** A connection that belonged to the tool, with the secret the environment makes of its own and the
      tool's. */
  ghost predicate Rekeys(env: Environment, legacy: Tool, before: Connection, after: Connection) {
    && KeyOf(env, legacy).Some? && ServesBuiltin(after, KeyOf(env, legacy).value)
    && Some(after.secret) == env.merge(legacy.config, legacy.credentials, Some(before.secret), KeyOf(env, legacy).value)
    && after.secretVersion == before.secretVersion + 1
  }

  /** The connection of a tool that had none: it serves the tool's builtin with the tool's secrets, in the
      tool's team. It is its creator's own if the tool was private, and the team's otherwise. */
  ghost predicate MadeFor(env: Environment, legacy: Tool, c: Connection) {
    && KeyOf(env, legacy).Some? && c.service == ForBuiltin(KeyOf(env, legacy).value)
    && Some(c.secret) == env.merge(legacy.config, legacy.credentials, None, KeyOf(env, legacy).value)
    && c.secretVersion == 1 && !c.isDefault && c.slot == None && c.team == legacy.team
    && (if legacy.isPrivate && legacy.creator.Some? then c.scope.UserScope? && c.owner == legacy.creator
        else c.scope.TeamScope? && c.owner == None)
    && c.name <= "Migrated " + legacy.name && (c.name == "Migrated " + legacy.name || |c.name| == 100)
  }

  predicate HasConnection(rows: seq<Connection>, legacy: Tool) {
    exists k :: 0 <= k < |rows| && OwnedBy(rows[k], legacy)
  }

  /** The tools among `rows` that have no connection. */
  function Orphans(tools: seq<Tool>, rows: seq<nat>, connections: seq<Connection>): (orphans: seq<nat>)
    requires Listed(tools, rows)
    ensures forall m :: 0 <= m < |orphans| ==> orphans[m] < |tools| && orphans[m] in rows
  {
    if rows == [] then []
    else
      var n := |rows| - 1;
      Orphans(tools, rows[..n], connections)
      + (if HasConnection(connections, tools[rows[n]]) then [] else [rows[n]])
  }

  predicate OwnedBy(c: Connection, legacy: Tool) {
    c.service == ForTool(legacy.id)
  }

  /** What the migrations of `rows` made of the connection `before`. */
  ghost predicate ConnectionOk(env: Environment, tools: seq<Tool>, rows: seq<nat>, before: Connection, after: Connection)
    requires Listed(tools, rows)
  {
    && SameConnection(before, after)
    && (forall r :: r in rows && OwnedBy(before, tools[r]) ==> Rekeys(env, tools[r], before, after))
    && ((forall r :: r in rows ==> !OwnedBy(before, tools[r])) ==> after == before)
  }

  ghost predicate AllConnectionsOk(env: Environment, tools: seq<Tool>, rows: seq<nat>,
                                   before: seq<Connection>, after: seq<Connection>)
    requires Listed(tools, rows)
  {
    && |after| == |before| + |Orphans(tools, rows, before)|
    && (forall k :: 0 <= k < |before| ==> ConnectionOk(env, tools, rows, before[k], after[k]))
    && (forall k :: |before| <= k < |after| ==> MadeFor(env, tools[Orphans(tools, rows, before)[k - |before|]], after[k]))
    && (SlotsDistinct(before) ==> SlotsDistinct(after))
  }

  lemma {:induction false} RekeyingKeepsSlots(env: Environment, rows: seq<Connection>, n: nat, legacy: Tool, key: string)
    requires n <= |rows| && SlotsDistinct(rows) && RekeyRows(env, rows, n, legacy, key).Done?
    ensures SlotsDistinct(RekeyRows(env, rows, n, legacy, key).value)
  {
    if n > 0 {
      RekeyingKeepsSlots(env, rows, n - 1, legacy, key);
      var before := RekeyRows(env, rows, n - 1, legacy, key).value;
      var after := RekeyRows(env, rows, n, legacy, key).value;
      forall i, j | 0 <= i < j < |rows| && after[i].slot.Some?
        ensures after[i].slot != after[j].slot
      {
        assert after[i] == before[i] || i == n - 1;
        assert after[j] == before[j] || j == n - 1;
      }
    }
  }

  lemma ConnectedStep(env: Environment, rows: seq<Connection>, legacy: Tool, key: string, k: nat)
    requires k < |rows| && Connected(env, rows, legacy, key).Done?
    ensures var after := Connected(env, rows, legacy, key).value.0;
            && |rows| <= |after| <= |rows| + 1
            && SameConnection(rows[k], after[k])
            && (if !OwnedBy(rows[k], legacy) then after[k] == rows[k]
                else ServesBuiltin(after[k], key)
                     && (KeyOf(env, legacy) == Some(key) ==> Rekeys(env, legacy, rows[k], after[k])))
  {
    RekeyKeeps(env, rows, |rows|, legacy, key, k);
  }

  lemma OwnedOnes(rows: seq<Connection>, legacy: Tool)
    ensures Owned(rows, |rows|, legacy.id) != [] <==> HasConnection(rows, legacy)
  {
    var owned := Owned(rows, |rows|, legacy.id);
    if owned != [] { assert owned[0] in owned; }
    if k: nat :| k < |rows| && OwnedBy(rows[k], legacy) { assert k in owned; }
  }

  lemma ConnectedSlots(env: Environment, rows: seq<Connection>, legacy: Tool, key: string)
    requires Connected(env, rows, legacy, key).Done?
    ensures var after := Connected(env, rows, legacy, key).value.0;
            && (SlotsDistinct(rows) ==> SlotsDistinct(after))
            && |after| == (if HasConnection(rows, legacy) then |rows| else |rows| + 1)
            && (!HasConnection(rows, legacy) && KeyOf(env, legacy) == Some(key) ==> MadeFor(env, legacy, after[|rows|]))
  {
    if SlotsDistinct(rows) { RekeyingKeepsSlots(env, rows, |rows|, legacy, key); }
    OwnedOnes(rows, legacy);
  }

  /** The primary key of the tools. */
  ghost predicate UniqueIds(tools: seq<Tool>) {
    forall i, j :: 0 <= i < j < |tools| ==> tools[i].id != tools[j].id
  }

  lemma ConnectionStep(env: Environment, tools: seq<Tool>, rows: seq<nat>, i: nat, key: string,
                       before: Connection, now: Connection, after: Connection)
    requires Listed(tools, rows) && i < |tools| && i !in rows && UniqueIds(tools) && KeyOf(env, tools[i]) == Some(key)
    requires ConnectionOk(env, tools, rows, before, now) && SameConnection(now, after)
    requires if OwnedBy(now, tools[i]) then Rekeys(env, tools[i], now, after) else after == now
    ensures OwnedBy(now, tools[i]) == OwnedBy(before, tools[i])
    ensures ConnectionOk(env, tools, rows + [i], before, after)
  {
    assert forall r :: r in rows + [i] <==> r in rows || r == i;
    forall r | r in rows && OwnedBy(before, tools[r])
      ensures !OwnedBy(now, tools[i]) && !OwnedBy(before, tools[i])
    {
      assert tools[r].id != tools[i].id by {
        if r < i { assert tools[r].id != tools[i].id; } else { assert tools[i].id != tools[r].id; }
      }
    }
  }

  lemma ConnectionsStep(env: Environment, tools: seq<Tool>, rows: seq<nat>, i: nat, key: string,
                        before: seq<Connection>, now: seq<Connection>)
    requires Listed(tools, rows) && i < |tools| && i !in rows && UniqueIds(tools) && KeyOf(env, tools[i]) == Some(key)
    requires Connected(env, now, tools[i], key).Done?
    requires AllConnectionsOk(env, tools, rows, before, now)
    ensures AllConnectionsOk(env, tools, rows + [i], before, Connected(env, now, tools[i], key).value.0)
  {
    var after := Connected(env, now, tools[i], key).value.0;
    ConnectedSlots(env, now, tools[i], key);
    forall k | 0 <= k < |before|
      ensures ConnectionOk(env, tools, rows + [i], before[k], after[k]) && OwnedBy(now[k], tools[i]) == OwnedBy(before[k], tools[i])
    {
      ConnectedStep(env, now, tools[i], key, k);
      ConnectionStep(env, tools, rows, i, key, before[k], now[k], after[k]);
    }
    forall k | |before| <= k < |now|
      ensures after[k] == now[k] && !OwnedBy(now[k], tools[i])
    {
      ConnectedStep(env, now, tools[i], key, k);
    }
    OneMoreOrphan(env, tools, rows, i, before, now, after);
  }

  /** The tool gets a connection exactly if it had none at the start. */
  lemma OneMoreOrphan(env: Environment, tools: seq<Tool>, rows: seq<nat>, i: nat,
                      before: seq<Connection>, now: seq<Connection>, after: seq<Connection>)
    requires Listed(tools, rows) && i < |tools| && |before| <= |now|
    requires forall k :: 0 <= k < |before| ==> OwnedBy(now[k], tools[i]) == OwnedBy(before[k], tools[i])
    requires forall k :: |before| <= k < |now| ==> !OwnedBy(now[k], tools[i])
    requires |now| == |before| + |Orphans(tools, rows, before)|
    requires forall k :: |before| <= k < |now| ==> MadeFor(env, tools[Orphans(tools, rows, before)[k - |before|]], now[k])
    requires |after| == (if HasConnection(now, tools[i]) then |now| else |now| + 1)
    requires forall k :: |before| <= k < |now| ==> after[k] == now[k]
    requires !HasConnection(now, tools[i]) ==> MadeFor(env, tools[i], after[|now|])
    ensures var orphans := Orphans(tools, rows + [i], before);
            && |after| == |before| + |orphans|
            && forall k :: |before| <= k < |after| ==> MadeFor(env, tools[orphans[k - |before|]], after[k])
  {
    assert (rows + [i])[..|rows|] == rows;
    assert HasConnection(now, tools[i]) == HasConnection(before, tools[i]) by {
      if k: nat :| k < |before| && OwnedBy(before[k], tools[i]) { assert OwnedBy(now[k], tools[i]); }
    }
    var orphans, more := Orphans(tools, rows, before), Orphans(tools, rows + [i], before);
    assert more == orphans + (if HasConnection(before, tools[i]) then [] else [i]);
  }

  lemma OneConnected(env: Environment, t: Tables, i: nat)
    requires i < |t.tools| && MigrateOne(env, t, i).Done?
    ensures KeyOf(env, t.tools[i]).Some?
    ensures var connected := Connected(env, t.connections, t.tools[i], KeyOf(env, t.tools[i]).value);
            && connected.Done? && MigrateOne(env, t, i).value.0.connections == connected.value.0
            && MigrateOne(env, t, i).value.1 == Migration(t.tools[i].id, KeyOf(env, t.tools[i]).value, connected.value.1)
  {
  }

  lemma {:induction false} ConnectionsMigrated(env: Environment, t: Tables, rows: seq<nat>)
    requires Schedule(t.tools, rows) && UniqueNames(t.tools) && UniqueIds(t.tools) && MigrateRows(env, t, rows).Done?
    ensures AllConnectionsOk(env, t.tools, rows, t.connections, MigrateRows(env, t, rows).value.0.connections)
  {
    if rows != [] {
      var n := |rows| - 1;
      var front, i := rows[..n], rows[n];
      LastMigration(env, t, rows);
      ConnectionsMigrated(env, t, front);
      StillThere(env, t, front, i);
      var before := MigrateRows(env, t, front).value.0;
      OneConnected(env, before, i);
      ConnectionsStep(env, t.tools, front, i, KeyOf(env, t.tools[i]).value, t.connections, before.connections);
    }
  }

  // ---------------------------------------------------------------- what a successful run guarantees

  /** Primary key and unique names of the tools table. */
  ghost predicate Keyed(t: Tables) {
    UniqueNames(t.tools) && UniqueIds(t.tools)
  }

  function Legacies(t: Tables): seq<nat> {
    LegacyRows(t.tools, |t.tools|)
  }

  lemma ClearedKeeps(t: Tables)
    requires Keyed(t)
    ensures var cleared := Cleared(t.tools);
            && |cleared| == |t.tools| && UniqueNames(cleared) && UniqueIds(cleared) && Schedule(cleared, Legacies(t))
            && (forall k :: 0 <= k < |cleared| ==> cleared[k] == ClearedTool(t.tools[k]))
            && (forall r :: r in Legacies(t) ==> cleared[r].kind.CustomTool?)
  {
  }

  /** The rows of a finished run, and the migrations that were rewritten into the references. */
  lemma RunRows(env: Environment, t: Tables)
    requires Keyed(t) && Run(env, t).Done?
    ensures Listed(Cleared(t.tools), Legacies(t))
    ensures AllRowsOk(env, Cleared(t.tools), Legacies(t), Run(env, t).value.tools)
    ensures AllConnectionsOk(env, Cleared(t.tools), Legacies(t), t.connections, Run(env, t).value.connections)
  {
    var rows, cleared := Legacies(t), t.(tools := Cleared(t.tools));
    ClearedKeeps(t);
    if rows == [] {
      assert MigrateRows(env, cleared, []) == Done((cleared, []));
    }
    RowsMigrated(env, cleared, rows);
    ConnectionsMigrated(env, cleared, rows);
  }

  lemma RunRow(env: Environment, t: Tables, k: nat)
    requires Keyed(t) && Run(env, t).Done? && k < |Run(env, t).value.tools|
    ensures RowOk(env, Cleared(t.tools), Legacies(t), k, Run(env, t).value.tools[k])
  {
    RunRows(env, t);
  }

  /** A row after the run is no database tool. */
  lemma FinishedRow(env: Environment, t: Tables, k: nat, row: Tool)
    requires Keyed(t) && Listed(Cleared(t.tools), Legacies(t)) && RowOk(env, Cleared(t.tools), Legacies(t), k, row)
    ensures !IsLegacy(row) && ClearedTool(row) == row
  {
    ClearedKeeps(t);
    if k < |t.tools| {
      assert k in Legacies(t) <==> IsLegacy(t.tools[k]);
    }
  }

  /** A second cutover finds no legacy tool and leaves every table as it is. */
  lemma SecondRunChangesNothing(env: Environment, again: Environment, t: Tables)
    requires Keyed(t) && Run(env, t).Done?
    ensures var u := Run(env, t).value;
            Legacies(u) == [] && Run(again, u) == Done(u)
  {
    var u := Run(env, t).value;
    ClearedKeeps(t);
    forall k | 0 <= k < |u.tools|
      ensures !IsLegacy(u.tools[k]) && ClearedTool(u.tools[k]) == u.tools[k]
    {
      RunRow(env, t, k);
      FinishedRow(env, t, k, u.tools[k]);
    }
    NothingToDo(again, u);
  }

  lemma {:induction false} NoLegacyRows(tools: seq<Tool>, n: nat)
    requires n <= |tools| && forall k :: 0 <= k < n ==> !IsLegacy(tools[k])
    ensures LegacyRows(tools, n) == []
  {
    if n > 0 { NoLegacyRows(tools, n - 1); }
  }

  lemma NothingToDo(env: Environment, t: Tables)
    requires forall k :: 0 <= k < |t.tools| ==> !IsLegacy(t.tools[k]) && ClearedTool(t.tools[k]) == t.tools[k]
    ensures Legacies(t) == [] && Run(env, t) == Done(t)
  {
    assert Cleared(t.tools) == t.tools;
    NoLegacyRows(t.tools, |t.tools|);
  }

  /** No definition is lost or renamed: every row keeps its id, team and name, also a retired one. */
  lemma DefinitionsKeepTheirIdentity(env: Environment, t: Tables, k: nat)
    requires Keyed(t) && Run(env, t).Done? && k < |t.tools|
    ensures var row := if k < |Run(env, t).value.tools| then Some(Run(env, t).value.tools[k]) else None;
            && row.Some?
            && row.value.id == t.tools[k].id && row.value.team == t.tools[k].team && row.value.name == t.tools[k].name
            && (IsLegacy(t.tools[k]) ==> row.value.kind.BuiltinTool? && row.value.config.None? && row.value.credentials.None?)
            && (IsLegacy(t.tools[k]) && Retires(env, t.tools[k]) ==> !row.value.enabled)
  {
    ClearedKeeps(t);
    RunRows(env, t);
    assert RowOk(env, Cleared(t.tools), Legacies(t), k, Run(env, t).value.tools[k]);
  }

  /** The definition as it was before the run. */
  function Before(env: Environment, t: Tables, k: nat, row: Tool): Tool {
    Base(env, t.tools, k, row)
  }

  /** Clearing the retired type changes nothing the migration looks at. */
  lemma StoredRows(env: Environment, t: Tables, k: nat, row: Tool)
    requires Keyed(t)
    ensures var rows, cleared := Legacies(t), Cleared(t.tools);
            && |cleared| == |t.tools| && Listed(cleared, rows)
            && Base(env, cleared, k, row).enabled == Before(env, t, k, row).enabled
            && (forall r: nat :: r in rows <==> r < |t.tools| && IsLegacy(t.tools[r]))
            && (forall r: nat :: r < |t.tools| ==>
                  && cleared[r].enabled == t.tools[r].enabled && Retires(env, cleared[r]) == Retires(env, t.tools[r])
                  && (Into(env, cleared[r], Base(env, cleared, k, row)) <==> Into(env, t.tools[r], Before(env, t, k, row))))
  {
    ClearedKeeps(t);
  }

  lemma StoredLegacies(env: Environment, t: Tables, k: nat, row: Tool)
    requires Keyed(t)
    ensures var rows, cleared := Legacies(t), Cleared(t.tools);
            var base := Before(env, t, k, row);
            && Listed(cleared, rows)
            && (EnabledBy(env, cleared, rows, k, Base(env, cleared, k, row)) <==>
                  && base.enabled
                  && !(k < |t.tools| && IsLegacy(t.tools[k]) && Retires(env, t.tools[k]))
                  && forall r :: 0 <= r < |t.tools| && IsLegacy(t.tools[r]) && Into(env, t.tools[r], base) ==> t.tools[r].enabled)
            && (TouchedBy(env, cleared, rows, k, Base(env, cleared, k, row)) <==>
                  || (k < |t.tools| && IsLegacy(t.tools[k]) && !Retires(env, t.tools[k]))
                  || exists r :: 0 <= r < |t.tools| && IsLegacy(t.tools[r]) && Into(env, t.tools[r], base))
  {
    StoredRows(env, t, k, row);
  }

  /** A definition is enabled after the run exactly if it was, every tool merged into it was, and it
      is not itself a legacy row that the run retired. */
  lemma EnabledIffAllWere(env: Environment, t: Tables, k: nat)
    requires Keyed(t) && Run(env, t).Done? && k < |Run(env, t).value.tools|
    ensures var row := Run(env, t).value.tools[k];
            var base := Before(env, t, k, row);
            row.enabled <==>
              && base.enabled
              && !(k < |t.tools| && IsLegacy(t.tools[k]) && Retires(env, t.tools[k]))
              && forall r :: 0 <= r < |t.tools| && IsLegacy(t.tools[r]) && Into(env, t.tools[r], base) ==> t.tools[r].enabled
  {
    RunRow(env, t, k);
    StoredLegacies(env, t, k, Run(env, t).value.tools[k]);
  }

  /** Each conversion and each merge advances the version of a definition by one. */
  lemma VersionCounts(env: Environment, t: Tables, k: nat)
    requires Keyed(t) && Run(env, t).Done? && k < |Run(env, t).value.tools|
    ensures Listed(Cleared(t.tools), Legacies(t))
    ensures var row := Run(env, t).value.tools[k];
            var base := Before(env, t, k, row);
            && row.version == Advanced(base.version, Changes(env, Cleared(t.tools), Legacies(t), k, base))
  {
    RunRow(env, t, k);
    ClearedKeeps(t);
    VersionOfRow(env, t.tools, Cleared(t.tools), Legacies(t), k, Run(env, t).value.tools[k]);
  }

  lemma VersionOfRow(env: Environment, tools: seq<Tool>, cleared: seq<Tool>, rows: seq<nat>, k: nat, row: Tool)
    requires |tools| == |cleared| && (forall i :: 0 <= i < |tools| ==> cleared[i] == ClearedTool(tools[i]))
    requires Listed(cleared, rows) && RowOk(env, cleared, rows, k, row)
    ensures var base := Base(env, tools, k, row); row.version == Advanced(base.version, Changes(env, cleared, rows, k, base))
  {
    IntoFresh(env, cleared, rows, Base(env, cleared, k, row), Base(env, tools, k, row));
  }

  /** A definition that the run created is a builtin of nobody's, with the policy of builtins and of every
      tool merged into it; it is enabled exactly if all of those were. */
  lemma CreatedDefinition(env: Environment, t: Tables, k: nat)
    requires Keyed(t) && Run(env, t).Done? && |t.tools| <= k < |Run(env, t).value.tools|
    ensures Listed(Cleared(t.tools), Legacies(t))
    ensures var row := Run(env, t).value.tools[k];
            && row.kind.BuiltinTool? && row.customType == None && row.config == None && row.credentials == None
            && row.creator == None && !row.isPrivate && row.id == env.newId(k) && row.version >= 1
            && (row.enabled <==> forall r :: 0 <= r < |t.tools| && IsLegacy(t.tools[r]) && Into(env, t.tools[r], row) ==> t.tools[r].enabled)
            && OneByOne(env.builtinPolicy, PoliciesInto(env, Cleared(t.tools), Legacies(t), row)) == Ok(row.policy)
  {
    var row := Run(env, t).value.tools[k];
    RunRow(env, t, k);
    EnabledIffAllWere(env, t, k);
    VersionGrows(env, t, k);
    IntoFresh(env, Cleared(t.tools), Legacies(t), FreshBuiltin(env, k, row.team, row.name), row);
  }

  lemma {:induction false} IntoFresh(env: Environment, tools: seq<Tool>, rows: seq<nat>, a: Tool, b: Tool)
    requires Listed(tools, rows) && a.team == b.team && a.name == b.name
    ensures PoliciesInto(env, tools, rows, a) == PoliciesInto(env, tools, rows, b)
    ensures forall legacy: Tool :: Into(env, legacy, a) == Into(env, legacy, b)
  {
    if rows != [] { IntoFresh(env, tools, rows[..|rows| - 1], a, b); }
  }

  /** No database tool is left: neither one of the retired type nor an untyped one with a configuration. */
  lemma NoDatabaseToolIsLeft(env: Environment, t: Tables, k: nat)
    requires Keyed(t) && Run(env, t).Done? && k < |Run(env, t).value.tools|
    ensures var row := Run(env, t).value.tools[k];
            row.customType != Some("database") && (row.kind.CustomTool? && row.customType == None ==> row.config == None)
  {
    RunRow(env, t, k);
    FinishedRow(env, t, k, Run(env, t).value.tools[k]);
  }

  /** The version of a definition grows exactly if it was converted or something merged into it. */
  lemma VersionGrows(env: Environment, t: Tables, k: nat)
    requires Keyed(t) && Run(env, t).Done? && k < |Run(env, t).value.tools|
    ensures var row := Run(env, t).value.tools[k];
            var base := Before(env, t, k, row);
            && base.version <= row.version
            && (base.version < row.version <==>
                  || (k < |t.tools| && IsLegacy(t.tools[k]) && !Retires(env, t.tools[k]))
                  || exists r :: 0 <= r < |t.tools| && IsLegacy(t.tools[r]) && Into(env, t.tools[r], base))
  {
    var row := Run(env, t).value.tools[k];
    RunRow(env, t, k);
    ClearedKeeps(t);
    GrowsIfTouched(env, Cleared(t.tools), Legacies(t), k, row);
    StoredLegacies(env, t, k, row);
  }

  lemma GrowsIfTouched(env: Environment, tools: seq<Tool>, rows: seq<nat>, k: nat, row: Tool)
    requires Listed(tools, rows) && RowOk(env, tools, rows, k, row)
    ensures var base := Base(env, tools, k, row);
            base.version <= row.version && (base.version < row.version <==> TouchedBy(env, tools, rows, k, base))
  {
  }

  /** No connection is lost, and each keeps its id, scope, team, owner, name and default flag. Those
      of a legacy tool serve its builtin, the others are untouched; fresh ones are no defaults. */
  lemma ConnectionsKeepTheirIdentity(env: Environment, t: Tables, k: nat)
    requires Keyed(t) && Run(env, t).Done? && k < |t.connections|
    ensures var after := Run(env, t).value.connections;
            && k < |after| && SameConnection(t.connections[k], after[k])
            && (forall r :: 0 <= r < |t.tools| && IsLegacy(t.tools[r]) && OwnedBy(t.connections[k], t.tools[r]) ==>
                  Rekeys(env, t.tools[r], t.connections[k], after[k]))
            && ((forall r :: 0 <= r < |t.tools| && IsLegacy(t.tools[r]) ==> !OwnedBy(t.connections[k], t.tools[r])) ==>
                  after[k] == t.connections[k])
  {
    var rows, cleared := Legacies(t), Cleared(t.tools);
    ClearedKeeps(t);
    RunRows(env, t);
    assert ConnectionOk(env, cleared, rows, t.connections[k], Run(env, t).value.connections[k]);
    ClearedOwners(env, t, t.connections[k]);
  }

  lemma ClearedOwners(env: Environment, t: Tables, c: Connection)
    requires Keyed(t)
    ensures |Cleared(t.tools)| == |t.tools|
    ensures forall r :: 0 <= r < |t.tools| ==>
              && OwnedBy(c, Cleared(t.tools)[r]) == OwnedBy(c, t.tools[r])
              && (forall after :: Rekeys(env, Cleared(t.tools)[r], c, after) == Rekeys(env, t.tools[r], c, after))
              && (r in Legacies(t) <==> IsLegacy(t.tools[r]))
  {
    ClearedKeeps(t);
  }

  /** Behind the old connections there is one for each of the tools, in their order, and no other. */
  ghost predicate OneEach(env: Environment, tools: seq<Tool>, orphans: seq<nat>, before: seq<Connection>, after: seq<Connection>)
    requires Listed(tools, orphans)
  {
    && |after| == |before| + |orphans|
    && (forall m, n :: 0 <= m < n < |orphans| ==> orphans[m] < orphans[n])
    && forall m :: 0 <= m < |orphans| ==> MadeFor(env, tools[orphans[m]], after[|before| + m])
  }

  /** The legacy tools without a connection get one each, and no other connection is made. */
  lemma OrphansGetTheirOwn(env: Environment, t: Tables)
    requires Keyed(t) && Run(env, t).Done?
    ensures Listed(t.tools, Legacies(t))
    ensures var orphans := Orphans(t.tools, Legacies(t), t.connections);
            && (forall r :: r in orphans <==> 0 <= r < |t.tools| && IsLegacy(t.tools[r]) && !HasConnection(t.connections, t.tools[r]))
            && OneEach(env, t.tools, orphans, t.connections, Run(env, t).value.connections)
  {
    ClearedKeeps(t);
    RunRows(env, t);
    LegaciesListed(t);
    OrphansMade(env, t.tools, Cleared(t.tools), Legacies(t), t.connections, Run(env, t).value.connections);
  }

  lemma LegaciesListed(t: Tables)
    ensures forall r :: r in Legacies(t) <==> 0 <= r < |t.tools| && IsLegacy(t.tools[r])
  {
  }

  lemma OrphansMade(env: Environment, tools: seq<Tool>, cleared: seq<Tool>, rows: seq<nat>,
                    before: seq<Connection>, after: seq<Connection>)
    requires |tools| == |cleared| && (forall k :: 0 <= k < |tools| ==> cleared[k] == ClearedTool(tools[k]))
    requires Listed(tools, rows) && Schedule(cleared, rows) && AllConnectionsOk(env, cleared, rows, before, after)
    ensures var orphans := Orphans(tools, rows, before);
            && (forall r :: r in orphans <==> r in rows && !HasConnection(before, tools[r]))
            && OneEach(env, tools, orphans, before, after)
  {
    SameOrphans(tools, cleared, rows, before);
    OrphansListed(tools, rows, before);
    var orphans := Orphans(tools, rows, before);
    forall m | 0 <= m < |orphans|
      ensures MadeFor(env, tools[orphans[m]], after[|before| + m])
    {
      assert MadeFor(env, cleared[orphans[m]], after[|before| + m]) by {
        var k := |before| + m;
        assert MadeFor(env, cleared[orphans[k - |before|]], after[k]);
      }
    }
  }

  lemma {:induction false} SameOrphans(tools: seq<Tool>, cleared: seq<Tool>, rows: seq<nat>, connections: seq<Connection>)
    requires |tools| == |cleared| && (forall k :: 0 <= k < |tools| ==> cleared[k] == ClearedTool(tools[k]))
    requires Listed(tools, rows) && Listed(cleared, rows)
    ensures Orphans(tools, rows, connections) == Orphans(cleared, rows, connections)
  {
    if rows != [] {
      var n := |rows| - 1;
      SameOrphans(tools, cleared, rows[..n], connections);
      assert forall c :: OwnedBy(c, tools[rows[n]]) == OwnedBy(c, cleared[rows[n]]);
    }
  }

  lemma {:induction false} OrphansListed(tools: seq<Tool>, rows: seq<nat>, connections: seq<Connection>)
    requires Listed(tools, rows) && forall k, l :: 0 <= k < l < |rows| ==> rows[k] < rows[l]
    ensures var orphans := Orphans(tools, rows, connections);
            && (forall r :: r in orphans <==> r in rows && !HasConnection(connections, tools[r]))
            && (forall m, n :: 0 <= m < n < |orphans| ==> orphans[m] < orphans[n])
  {
    if rows != [] { OrphansListed(tools, rows[..|rows| - 1], connections); }
  }

  lemma DefaultSlotsStayDistinct(env: Environment, t: Tables)
    requires Keyed(t) && SlotsDistinct(t.connections) && Run(env, t).Done?
    ensures SlotsDistinct(Run(env, t).value.connections)
  {
    RunRows(env, t);
  }

  // ---------------------------------------------------------------- approval

  ghost predicate PoliciesValid(env: Environment, tools: seq<Tool>) {
    env.builtinPolicy.Valid() && forall k :: 0 <= k < |tools| ==> tools[k].policy.Valid()
  }

  lemma {:induction false} PoliciesIntoListed(env: Environment, tools: seq<Tool>, rows: seq<nat>, base: Tool)
    requires Listed(tools, rows) && PoliciesValid(env, tools)
    ensures AllValid(PoliciesInto(env, tools, rows, base))
    ensures forall r :: r in rows && Into(env, tools[r], base) ==> tools[r].policy in PoliciesInto(env, tools, rows, base)
  {
    if rows != [] { PoliciesIntoListed(env, tools, rows[..|rows| - 1], base); }
  }

  lemma {:induction false} Untouched(env: Environment, tools: seq<Tool>, rows: seq<nat>, base: Tool)
    requires Listed(tools, rows) && PoliciesInto(env, tools, rows, base) == []
    ensures forall r :: r in rows ==> !Into(env, tools[r], base)
  {
    if rows != [] { Untouched(env, tools, rows[..|rows| - 1], base); }
  }

  /** What the target had before the first merge: nothing, or a valid policy. */
  lemma OwnIsValid(env: Environment, tools: seq<Tool>, rows: seq<nat>, k: nat, base: Tool)
    requires Listed(tools, rows) && PoliciesValid(env, tools) && (k in rows ==> base == tools[k]) && base.policy.Valid()
    requires OwnPolicy(env, tools, rows, k, base).Done?
    ensures OwnPolicy(env, tools, rows, k, base).value.Valid()
  {
    if k in rows && !Retires(env, tools[k]) {
      MergeIsJoin([tools[k].policy, Absent]);
    }
  }

  lemma PresentListed(v: PolicyValue, start: PolicyValue, policies: seq<PolicyValue>)
    requires v in policies
    ensures Present(v) in [start] + AllPresent(policies)
  {
    var i :| 0 <= i < |policies| && policies[i] == v;
    assert ([start] + AllPresent(policies))[i + 1] == Present(v);
  }

  /** One by one merging relaxes neither the start nor any of the merged policies. */
  lemma OneByOneNeverRelaxes(start: PolicyValue, policies: seq<PolicyValue>, v: PolicyValue, operation: string)
    requires start.Valid() && AllValid(policies) && policies != [] && OneByOne(start, policies).Ok?
    requires v in [start] + AllPresent(policies) && v.Read().Some? && ShallowFor(v.Read().value, operation)
    ensures var r := OneByOne(start, policies).value;
            && r.Parsed? && WellFormed(r.policy)
            && NoLooser(ForOperation(v.Read().value, operation), r.policy)
  {
    var all := [start] + AllPresent(policies);
    OneByOneIsOneMerge(start, policies);
    PresentAreValid(start, policies);
    MergeIsJoin(all);
    MergeNeverRelaxes(all, v, operation);
    ReadIsWellFormed(v);
    LayerOfOperation(v.Read().value, operation);
    BelowMeansNoLooser(ForOperation(v.Read().value, operation), Merged(all).value);
    BelowMeansNoLooser(ForOperation(v.Read().value, operation), OneByOne(start, policies).value.policy);
  }

  lemma MergedNeverRelaxes(env: Environment, tools: seq<Tool>, rows: seq<nat>, k: nat, row: Tool, r: nat, operation: string)
    requires Listed(tools, rows) && PoliciesValid(env, tools) && RowOk(env, tools, rows, k, row)
    requires r in rows && Into(env, tools[r], Base(env, tools, k, row))
    requires ShallowFor(Present(tools[r].policy).Read().value, operation)
    ensures row.policy.Parsed? && WellFormed(row.policy.policy)
    ensures NoLooser(ForOperation(Present(tools[r].policy).Read().value, operation), row.policy.policy)
  {
    var base := Base(env, tools, k, row);
    var own, policies := OwnPolicy(env, tools, rows, k, base).value, PoliciesInto(env, tools, rows, base);
    PoliciesIntoListed(env, tools, rows, base);
    OwnIsValid(env, tools, rows, k, base);
    PresentListed(tools[r].policy, own, policies);
    OneByOneNeverRelaxes(own, policies, Present(tools[r].policy), operation);
  }

  lemma ClearedPolicies(env: Environment, t: Tables, k: nat, row: Tool)
    requires PoliciesValid(env, t.tools)
    ensures PoliciesValid(env, Cleared(t.tools))
    ensures Base(env, Cleared(t.tools), k, row).policy == Before(env, t, k, row).policy
    ensures forall r :: 0 <= r < |t.tools| ==>
              var cleared := Cleared(t.tools)[r];
              && cleared.policy == t.tools[r].policy
              && (Into(env, cleared, Base(env, Cleared(t.tools), k, row)) <==> Into(env, t.tools[r], Before(env, t, k, row)))
  {
  }

  /** Whatever a legacy tool demanded for an operation, the definition it merged into demands after
      the run (a legacy tool without a policy counts as asking its caller). */
  lemma ApprovalNeverRelaxes(env: Environment, t: Tables, k: nat, r: nat, operation: string)
    requires Keyed(t) && PoliciesValid(env, t.tools) && Run(env, t).Done? && k < |Run(env, t).value.tools|
    requires r < |t.tools| && IsLegacy(t.tools[r]) && Into(env, t.tools[r], Before(env, t, k, Run(env, t).value.tools[k]))
    requires ShallowFor(Present(t.tools[r].policy).Read().value, operation)
    ensures var after := Run(env, t).value.tools[k].policy;
            && after.Parsed? && WellFormed(after.policy)
            && NoLooser(ForOperation(Present(t.tools[r].policy).Read().value, operation), after.policy)
  {
    var row := Run(env, t).value.tools[k];
    RunRow(env, t, k);
    ClearedPolicies(env, t, k, row);
    assert Cleared(t.tools)[r].policy == t.tools[r].policy;
    MergedNeverRelaxes(env, Cleared(t.tools), Legacies(t), k, row, r, operation);
  }

  lemma NoLooserThanMiddle(p: Policy, q: Policy, r: Policy)
    requires WellFormed(p) && WellFormed(q) && WellFormed(r) && NoLooser(p, q) && NoLooser(q, r)
    ensures NoLooser(p, r)
  {
    BelowMeansNoLooser(p, q);
    BelowMeansNoLooser(q, r);
    BelowMeansNoLooser(p, r);
    BelowIsAnOrder(EffectOf(p), EffectOf(q), EffectOf(r));
  }

  /** Nor is the definition's own policy relaxed. */
  lemma OwnPolicyNeverRelaxes(env: Environment, tools: seq<Tool>, rows: seq<nat>, k: nat, row: Tool, operation: string)
    requires Listed(tools, rows) && PoliciesValid(env, tools) && RowOk(env, tools, rows, k, row)
    requires var p := Base(env, tools, k, row).policy; p.Read().Some? && ShallowFor(p.Read().value, operation)
    ensures var p := Base(env, tools, k, row).policy;
            row.policy == p || (row.policy.Parsed? && WellFormed(row.policy.policy)
                                && NoLooser(ForOperation(p.Read().value, operation), row.policy.policy))
  {
    var base := Base(env, tools, k, row);
    var own, policies := OwnPolicy(env, tools, rows, k, base).value, PoliciesInto(env, tools, rows, base);
    PoliciesIntoListed(env, tools, rows, base);
    OwnIsValid(env, tools, rows, k, base);
    if k in rows && !Retires(env, tools[k]) {
      ConvertedNeverRelaxes(tools[k], own, policies, row.policy, operation);
    } else {
      RestNeverRelaxes(own, policies, row.policy, operation);
    }
  }

  /** Merging the rest one by one leaves the start alone or relaxes nothing of it. */
  lemma RestNeverRelaxes(own: PolicyValue, policies: seq<PolicyValue>, r: PolicyValue, operation: string)
    requires own.Valid() && own.Read().Some? && ShallowFor(own.Read().value, operation) && AllValid(policies)
    requires OneByOne(own, policies) == Ok(r)
    ensures r == own || (r.Parsed? && WellFormed(r.policy) && NoLooser(ForOperation(own.Read().value, operation), r.policy))
  {
    if policies != [] {
      OneByOneNeverRelaxes(own, policies, own, operation);
    }
  }

  /** A converted row's policy is merged with nothing, which flattens it, and then with the rest. */
  lemma ConvertedNeverRelaxes(tool: Tool, own: PolicyValue, policies: seq<PolicyValue>, r: PolicyValue, operation: string)
    requires tool.policy.Valid() && tool.policy.Read().Some? && ShallowFor(tool.policy.Read().value, operation)
    requires MergedPolicy(tool, tool, true) == Done(own) && AllValid(policies) && OneByOne(own, policies) == Ok(r)
    ensures r.Parsed? && WellFormed(r.policy) && NoLooser(ForOperation(tool.policy.Read().value, operation), r.policy)
  {
    var p := tool.policy.Read().value;
    MergeIsJoin([tool.policy, Absent]);
    MergeNeverRelaxes([tool.policy, Absent], tool.policy, operation);
    RestNeverRelaxes(own, policies, r, operation);
    if r != own {
      ReadIsWellFormed(tool.policy);
      LayerOfOperation(p, operation);
      NoLooserThanMiddle(ForOperation(p, operation), own.policy, r.policy);
    }
  }

  /** Whatever a definition demanded before the run, it demands after it. */
  lemma TargetNeverRelaxes(env: Environment, t: Tables, k: nat, operation: string)
    requires Keyed(t) && PoliciesValid(env, t.tools) && Run(env, t).Done? && k < |Run(env, t).value.tools|
    requires var p := Before(env, t, k, Run(env, t).value.tools[k]).policy;
             p.Read().Some? && ShallowFor(p.Read().value, operation)
    ensures var p, after := Before(env, t, k, Run(env, t).value.tools[k]).policy, Run(env, t).value.tools[k].policy;
            after == p || (after.Parsed? && WellFormed(after.policy)
                           && NoLooser(ForOperation(p.Read().value, operation), after.policy))
  {
    RunRow(env, t, k);
    ClearedPolicies(env, t, k, Run(env, t).value.tools[k]);
    OwnPolicyNeverRelaxes(env, Cleared(t.tools), Legacies(t), k, Run(env, t).value.tools[k], operation);
  }

  // ---------------------------------------------------------------- references

  /** A migration's connection is there, under the builtin the references are pointed at. */
  ghost predicate BoundOk(m: Migration, rows: seq<Connection>) {
    m.connection.Some? ==>
      exists c :: 0 <= c < |rows| && rows[c].id == m.connection.value.id && ServesBuiltin(rows[c], m.key)
                  && (m.connection.value.personal <==> rows[c].scope.UserScope?)
  }

  lemma BoundStays(env: Environment, rows: seq<Connection>, legacy: Tool, key: string, m: Migration)
    requires BoundOk(m, rows) && Connected(env, rows, legacy, key).Done?
    ensures BoundOk(m, Connected(env, rows, legacy, key).value.0)
  {
    if m.connection.Some? {
      var c :| 0 <= c < |rows| && rows[c].id == m.connection.value.id && ServesBuiltin(rows[c], m.key)
               && (m.connection.value.personal <==> rows[c].scope.UserScope?);
      ConnectedStep(env, rows, legacy, key, c);
      assert Connected(env, rows, legacy, key).value.0[c] == rows[c];
    }
  }

  lemma NewBound(env: Environment, rows: seq<Connection>, legacy: Tool, key: string)
    requires Connected(env, rows, legacy, key).Done?
    ensures var r := Connected(env, rows, legacy, key).value;
            && BoundOk(Migration(legacy.id, key, r.1), r.0)
            && (r.1.Some? <==> |Owned(rows, |rows|, legacy.id)| <= 1)
            && (r.1.Some? ==> r.1.value.id != "")
  {
    var r, owned := Connected(env, rows, legacy, key).value, Owned(rows, |rows|, legacy.id);
    if owned == [] {
      assert r.0[|rows|].id == r.1.value.id;
    } else {
      ConnectedStep(env, rows, legacy, key, owned[0]);
      assert rows[owned[0]].service == ForTool(legacy.id) by { assert owned[0] in owned; }
    }
  }

  /** Every migrated tool has its migration, and every migration its connection. */
  ghost predicate MigrationsOk(env: Environment, tools: seq<Tool>, rows: seq<nat>, ms: seq<Migration>, connections: seq<Connection>)
    requires Listed(tools, rows)
  {
    && |ms| == |rows|
    && forall n :: 0 <= n < |ms| ==> ms[n].id == tools[rows[n]].id && BoundOk(ms[n], connections)
                                     && Some(ms[n].key) == KeyOf(env, tools[rows[n]])
                                     && (ms[n].connection.Some? ==> ms[n].connection.value.id != "")
  }

  lemma MigrationsStep(env: Environment, tools: seq<Tool>, rows: seq<nat>, ms: seq<Migration>, t: Tables, i: nat)
    requires Listed(tools, rows) && MigrationsOk(env, tools, rows, ms, t.connections)
    requires i < |tools| && i < |t.tools| && t.tools[i] == tools[i] && MigrateOne(env, t, i).Done?
    ensures MigrationsOk(env, tools, rows + [i], ms + [MigrateOne(env, t, i).value.1], MigrateOne(env, t, i).value.0.connections)
  {
    OneConnected(env, t, i);
    var key := KeyOf(env, tools[i]).value;
    var connected := Connected(env, t.connections, tools[i], key).value;
    NewBound(env, t.connections, tools[i], key);
    forall n | 0 <= n < |ms|
      ensures BoundOk(ms[n], connected.0)
    {
      BoundStays(env, t.connections, tools[i], key, ms[n]);
    }
  }

  lemma {:induction false} MigrationsListed(env: Environment, t: Tables, rows: seq<nat>)
    requires Schedule(t.tools, rows) && UniqueNames(t.tools) && MigrateRows(env, t, rows).Done?
    ensures var after := MigrateRows(env, t, rows).value;
            MigrationsOk(env, t.tools, rows, after.1, after.0.connections)
  {
    if rows != [] {
      var n := |rows| - 1;
      var i, before := rows[n], MigrateRows(env, t, rows[..n]).value;
      LastMigration(env, t, rows);
      MigrationsListed(env, t, rows[..n]);
      StillThere(env, t, rows[..n], i);
      MigrationsStep(env, t.tools, rows[..n], before.1, before.0, i);
    }
  }

  /** In `u` nothing refers to tool `id`: no agent entry and no node of a workflow or a version uses it,
      lists are as long as in `t`, and no agent attaches the builtin `key` twice. */
  predicate NothingRefers(u: Tables, t: Tables, id: string, key: string) {
    && |u.agents| == |t.agents| && |u.workflows| == |t.workflows| && |u.versions| == |t.versions|
    && (forall k :: 0 <= k < |u.agents| ==>
          && !AnyNames(AgentEntry, u.agents[k], id) && |u.agents[k]| == |t.agents[k]|
          && forall i, j :: 0 <= i < j < |u.agents[k]| ==> !(Attaches(u.agents[k][i], key) && Attaches(u.agents[k][j], key)))
    && (forall k :: 0 <= k < |u.workflows| ==> !AnyNames(ToolNode, Nodes(u.workflows[k]), id))
    && (forall k :: 0 <= k < |u.versions| ==> !AnyNames(ToolNode, Nodes(u.versions[k]), id))
  }

  /** After the run nothing refers to a migrated tool, and no agent attaches its builtin twice. */
  lemma ReferencesAreRewritten(env: Environment, t: Tables, r: nat)
    requires Keyed(t) && Run(env, t).Done? && r < |t.tools| && IsLegacy(t.tools[r])
    ensures KeyOf(env, t.tools[r]).Some?
    ensures NothingRefers(Run(env, t).value, t, t.tools[r].id, KeyOf(env, t.tools[r]).value)
  {
    var rows, cleared := Legacies(t), t.(tools := Cleared(t.tools));
    ClearedKeeps(t);
    MigrationsListed(env, cleared, rows);
    AgentsUntouched(env, cleared, rows);
    var after := MigrateRows(env, cleared, rows).value;
    var n :| 0 <= n < |rows| && rows[n] == r;
    var m := after.1[n];
    MigratedReferences(after.0, after.1, m);
    SameReferences(Run(env, t).value, after.0, t, m.id, m.key);
  }

  lemma SameReferences(u: Tables, t: Tables, t1: Tables, id: string, key: string)
    requires NothingRefers(u, t, id, key)
    requires t1.agents == t.agents && t1.workflows == t.workflows && t1.versions == t.versions
    ensures NothingRefers(u, t1, id, key)
  {
  }

  lemma {:induction false} AgentsUntouched(env: Environment, t: Tables, rows: seq<nat>)
    requires Listed(t.tools, rows) && MigrateRows(env, t, rows).Done?
    ensures var u := MigrateRows(env, t, rows).value.0;
            u.agents == t.agents && u.workflows == t.workflows && u.versions == t.versions
  {
    if rows != [] { AgentsUntouched(env, t, rows[..|rows| - 1]); }
  }

  lemma MigratedReferences(t: Tables, ms: seq<Migration>, m: Migration)
    requires m in ms && RewriteReferences(t, ms).Done?
    ensures NothingRefers(RewriteReferences(t, ms).value, t, m.id, m.key)
  {
    var u := RewriteReferences(t, ms).value;
    forall k | 0 <= k < |t.agents|
      ensures !AnyNames(AgentEntry, u.agents[k], m.id) && |u.agents[k]| == |t.agents[k]|
      ensures forall i, j :: 0 <= i < j < |u.agents[k]| ==>
                !(Attaches(u.agents[k][i], m.key) && Attaches(u.agents[k][j], m.key))
    {
      RewritingIsComplete(AgentEntry, t.agents[k], ms);
      AttachableMeansOnce(u.agents[k], ms);
    }
    forall k | 0 <= k < |t.workflows|
      ensures !AnyNames(ToolNode, Nodes(u.workflows[k]), m.id)
    {
      DefinitionIsRewritten(t.workflows[k], ms);
    }
    forall k | 0 <= k < |t.versions|
      ensures !AnyNames(ToolNode, Nodes(u.versions[k]), m.id)
    {
      DefinitionIsRewritten(t.versions[k], ms);
    }
  }

  // ---------------------------------------------------------------- order of the legacy tools

  /** Row `k` carries the name row `r` is to be merged into, and is no builtin. */
  predicate HoldsName(env: Environment, tools: seq<Tool>, r: nat, k: nat)
    requires r < |tools| && k < |tools|
  {
    Into(env, tools[r], tools[k]) && !tools[k].kind.BuiltinTool?
  }

  /** One migration reports the name exactly if a row that is no builtin holds it. */
  lemma NameTakenExactly(env: Environment, t: Tables, r: nat)
    requires UniqueNames(t.tools) && r < |t.tools|
    ensures MigrateOne(env, t, r) == Failed(NameTaken)
            <==> t.tools[r].team.Some? && exists k: nat :: k < |t.tools| && HoldsName(env, t.tools, r, k)
  {
    var legacy := t.tools[r];
    if KeyOf(env, legacy).Some? && legacy.team.Some? {
      var key := KeyOf(env, legacy).value;
      EarlierProblems(env, t.connections, legacy, key);
      var j := FindNamed(t.tools, legacy.team, key);
      if j < |t.tools| && HoldsName(env, t.tools, r, j) {
        assert Located(env, t.tools, r, key) == Failed(NameTaken);
      }
      forall k: nat | k < |t.tools| && HoldsName(env, t.tools, r, k)
        ensures k == j
      {
        NamedOnce(t.tools, legacy.team, key, k);
      }
    }
  }

  /** The earlier problems of a migration: an unknown engine, a tool without a team, a builtin that is
      neither there nor to be had. */
  lemma ProblemOf(env: Environment, t: Tables, r: nat)
    requires r < |t.tools|
    ensures var legacy, p := t.tools[r], MigrateOne(env, t, r);
            var key := KeyOf(env, legacy);
            && (p == Failed(UnsupportedEngine) <==> key.None?)
            && (p == Failed(NoTeam) <==> key.Some? && legacy.team.None?)
            && (p == Failed(NotMaterialized) <==>
                  key.Some? && legacy.team.Some? && !env.materializes(key.value)
                  && forall k :: 0 <= k < |t.tools| ==> t.tools[k].team != legacy.team || t.tools[k].name != key.value)
  {
    var legacy := t.tools[r];
    if KeyOf(env, legacy).Some? {
      var key := KeyOf(env, legacy).value;
      EarlierProblems(env, t.connections, legacy, key);
      var j := FindNamed(t.tools, legacy.team, key);
      assert j < |t.tools| ==> t.tools[j].team == legacy.team && t.tools[j].name == key;
    }
  }

  /** Why a connection of the tool cannot be re-keyed: its secrets do not merge; it is a default, and another
      connection is the default of its scope, team and owner already; or its scope does not go with its team
      and owner. */
  lemma ConnectionProblem(env: Environment, rows: seq<Connection>, k: nat, legacy: Tool, key: string)
    requires k < |rows| && OwnedBy(rows[k], legacy)
    ensures var c, p := rows[k], RekeyRow(env, rows, k, legacy, key);
            var slot := Slot(c.scope, if c.scope.SiteScope? then None else c.team, if c.scope.UserScope? then c.owner else None,
                             ForBuiltin(key));
            var merges := env.merge(legacy.config, legacy.credentials, Some(c.secret), key).Some?;
            var clash := c.isDefault && exists i :: 0 <= i < |rows| && i != k && rows[i].slot == Some(slot);
            var scoped := if c.scope.UserScope? then c.owner.Some? && c.team.Some?
                          else c.owner.None? && (c.team.Some? <==> c.scope.TeamScope?);
            && (p == Failed(BadConfig) <==> !merges)
            && (p == Failed(DefaultClash) <==> merges && clash)
            && (p == Failed(InvalidConnection) <==> merges && !clash && !scoped)
            && (p.Done? <==> merges && !clash && scoped)
  {
  }

  lemma EarlierProblems(env: Environment, rows: seq<Connection>, legacy: Tool, key: string)
    ensures var p := Connected(env, rows, legacy, key);
            p.Done? || p.problem in {BadConfig, DefaultClash, InvalidConnection}
  {
    LaterProblems(env, rows, |rows|, legacy, key);
  }

  lemma {:induction false} LaterProblems(env: Environment, rows: seq<Connection>, n: nat, legacy: Tool, key: string)
    requires n <= |rows|
    ensures var p := RekeyRows(env, rows, n, legacy, key); p.Done? || p.problem in {BadConfig, DefaultClash, InvalidConnection}
  {
    if n > 0 { LaterProblems(env, rows, n - 1, legacy, key); }
  }

  /** A row that was not migrated itself keeps what it is and how it is called; a created one is a builtin. */
  lemma KindKept(env: Environment, t: Tables, rows: seq<nat>, k: nat)
    requires Schedule(t.tools, rows) && UniqueNames(t.tools) && MigrateRows(env, t, rows).Done?
    requires k < |MigrateRows(env, t, rows).value.0.tools|
    ensures var row := MigrateRows(env, t, rows).value.0.tools[k];
            && (row.kind.BuiltinTool? <==> k >= |t.tools| || k in rows || t.tools[k].kind.BuiltinTool?)
            && (k < |t.tools| ==> row.name == t.tools[k].name && row.team == t.tools[k].team)
  {
    RowsMigrated(env, t, rows);
    assert RowOk(env, t.tools, rows, k, MigrateRows(env, t, rows).value.0.tools[k]);
  }

  /** After the migrations before it, the name a legacy tool needs is held by the rows that held it at
      the start and were not migrated themselves. */
  lemma HoldersAfter(env: Environment, t: Tables, rows: seq<nat>, r: nat)
    requires Schedule(t.tools, rows) && UniqueNames(t.tools) && MigrateRows(env, t, rows).Done?
    requires r < |t.tools| && r !in rows && t.tools[r].kind.CustomTool?
    ensures var after := MigrateRows(env, t, rows).value.0.tools;
            && after[r] == t.tools[r]
            && forall k: nat :: k < |after| ==>
                 (HoldsName(env, after, r, k) <==> k < |t.tools| && k !in rows && HoldsName(env, t.tools, r, k))
  {
    StillThere(env, t, rows, r);
    forall k: nat | k < |MigrateRows(env, t, rows).value.0.tools|
      ensures HoldsName(env, MigrateRows(env, t, rows).value.0.tools, r, k)
              <==> k < |t.tools| && k !in rows && HoldsName(env, t.tools, r, k)
    {
      KindKept(env, t, rows, k);
    }
  }

  /** The name legacy tool `r` needs is held by a row that will not have become a builtin when `r` is
      migrated: a custom tool that stays one, an MCP tool, or a legacy tool met after `r`. */
  predicate NeedsTakenName(env: Environment, tools: seq<Tool>, r: nat)
    requires r < |tools|
  {
    exists k: nat :: k < |tools| && HoldsName(env, tools, r, k) && !(k < r && IsLegacy(tools[k]))
  }

  lemma MetBefore(t: Tables, n: nat, k: nat)
    requires Keyed(t) && n < |Legacies(t)| && k < |t.tools|
    ensures k in Legacies(t)[..n] <==> k < Legacies(t)[n] && IsLegacy(t.tools[k])
  {
    var rows := Legacies(t);
    if k < rows[n] && IsLegacy(t.tools[k]) {
      var m :| 0 <= m < |rows| && rows[m] == k;
      assert rows[..n][m] == k;
    }
  }

  /** The tables when the `n`-th legacy tool is due, if the migrations before it succeed. */
  function Due(env: Environment, t: Tables, n: nat): Outcome<(Tables, seq<Migration>)>
    requires Keyed(t) && n <= |Legacies(t)|
  {
    ClearedKeeps(t);
    MigrateRows(env, t.(tools := Cleared(t.tools)), Legacies(t)[..n])
  }

  /** The name is held when the tool is due exactly if it needs a taken one. */
  lemma HeldWhenDue(env: Environment, tools: seq<Tool>, cleared: seq<Tool>, after: seq<Tool>, met: seq<nat>, r: nat)
    requires r < |tools| == |cleared| && r < |after|
    requires forall k: nat :: k < |tools| ==> cleared[k] == ClearedTool(tools[k])
    requires forall k: nat :: k < |tools| ==> (k in met <==> k < r && IsLegacy(tools[k]))
    requires forall k: nat :: k < |after| ==>
               (HoldsName(env, after, r, k) <==> k < |cleared| && k !in met && HoldsName(env, cleared, r, k))
    requires |cleared| <= |after|
    ensures (exists k: nat :: k < |after| && HoldsName(env, after, r, k)) <==> NeedsTakenName(env, tools, r)
  {
    forall k: nat | k < |tools|
      ensures HoldsName(env, cleared, r, k) == HoldsName(env, tools, r, k)
    {
    }
    if k: nat :| k < |tools| && HoldsName(env, tools, r, k) && !(k < r && IsLegacy(tools[k])) {
      assert HoldsName(env, after, r, k);
    }
  }

  /** The `n`-th legacy tool is due and needs a name that is taken. */
  predicate NameMissing(env: Environment, t: Tables, n: nat)
    requires Keyed(t) && n < |Legacies(t)|
  {
    var r := Legacies(t)[n];
    Due(env, t, n).Done? && t.tools[r].team.Some? && NeedsTakenName(env, t.tools, r)
  }

  /** The tool that is due reports the name exactly if it needs a taken one. */
  lemma NameWhenDue(env: Environment, tools: seq<Tool>, t: Tables, met: seq<nat>, r: nat)
    requires Schedule(t.tools, met) && UniqueNames(t.tools) && MigrateRows(env, t, met).Done?
    requires r < |tools| == |t.tools| && r !in met && t.tools[r].kind.CustomTool?
    requires forall k: nat :: k < |tools| ==> t.tools[k] == ClearedTool(tools[k])
    requires forall k: nat :: k < |tools| ==> (k in met <==> k < r && IsLegacy(tools[k]))
    ensures r < |MigrateRows(env, t, met).value.0.tools|
    ensures MigrateOne(env, MigrateRows(env, t, met).value.0, r) == Failed(NameTaken)
            <==> tools[r].team.Some? && NeedsTakenName(env, tools, r)
  {
    var after := MigrateRows(env, t, met).value.0;
    HoldersAfter(env, t, met, r);
    StillThere(env, t, met, r);
    NameTakenExactly(env, after, r);
    HeldWhenDue(env, tools, t.tools, after.tools, met, r);
  }

  /** What becomes of the `n`-th legacy tool when it is due. */
  lemma DueMigration(env: Environment, t: Tables, n: nat)
    requires Keyed(t) && n < |Legacies(t)| && Due(env, t, n).Done?
    ensures Due(env, t, n + 1) == Failed(NameTaken) <==> NameMissing(env, t, n)
  {
    var rows, cleared := Legacies(t), t.(tools := Cleared(t.tools));
    ClearedKeeps(t);
    SchedulePrefix(cleared.tools, rows, n);
    forall k: nat | k < |t.tools|
      ensures k in rows[..n] <==> k < rows[n] && IsLegacy(t.tools[k])
    {
      MetBefore(t, n, k);
    }
    NameWhenDue(env, t.tools, cleared, rows[..n], rows[n]);
    NextDue(env, cleared, rows, n);
  }

  /** A tool that needs a taken name is not migrated. */
  lemma DueIsBlocked(env: Environment, t: Tables, n: nat)
    requires Keyed(t) && n < |Legacies(t)| && Due(env, t, n).Done?
    requires NeedsTakenName(env, t.tools, Legacies(t)[n])
    ensures Due(env, t, n + 1).Failed?
  {
    if t.tools[Legacies(t)[n]].team.Some? {
      DueMigration(env, t, n);
    } else {
      var rows, cleared := Legacies(t), t.(tools := Cleared(t.tools));
      ClearedKeeps(t);
      SchedulePrefix(cleared.tools, rows, n);
      StillThere(env, cleared, rows[..n], rows[n]);
      NextDue(env, cleared, rows, n);
    }
  }

  lemma NextDue(env: Environment, t: Tables, rows: seq<nat>, n: nat)
    requires Schedule(t.tools, rows) && n < |rows| && MigrateRows(env, t, rows[..n]).Done?
    ensures var one := MigrateOne(env, MigrateRows(env, t, rows[..n]).value.0, rows[n]);
            var next := MigrateRows(env, t, rows[..n + 1]);
            if one.Done? then next.Done? else next == Failed(one.problem)
  {
    SchedulePrefix(t.tools, rows, n);
    assert (rows[..n] + [rows[n]])[..n] == rows[..n];
  }

  /** A failing migration fails the run with its own problem. */
  lemma DueFails(env: Environment, t: Tables, n: nat)
    requires Keyed(t) && n <= |Legacies(t)| && Due(env, t, n).Failed?
    ensures Run(env, t) == Failed(Due(env, t, n).problem)
  {
    ClearedKeeps(t);
    MigrationFails(env, t.(tools := Cleared(t.tools)), Legacies(t), n);
  }

  /** A run that reports a taken name fails in one of its migrations. */
  lemma NameFailsInMigration(env: Environment, t: Tables)
    requires Keyed(t) && Run(env, t) == Failed(NameTaken)
    ensures Due(env, t, |Legacies(t)|) == Failed(NameTaken)
  {
    ClearedKeeps(t);
    assert Legacies(t)[..|Legacies(t)|] == Legacies(t);
  }

  /** The first migration that fails among the first `n`. */
  lemma {:induction false} FirstFailure(env: Environment, t: Tables, rows: seq<nat>, n: nat) returns (m: nat)
    requires Listed(t.tools, rows) && n <= |rows| && MigrateRows(env, t, rows[..n]).Failed?
    ensures m < n && MigrateRows(env, t, rows[..m]).Done? && MigrateRows(env, t, rows[..m + 1]).Failed?
  {
    assert n > 0 by { assert rows[..0] == []; }
    m := n - 1;
    if MigrateRows(env, t, rows[..m]).Failed? { m := FirstFailure(env, t, rows, m); }
  }

  lemma FirstDueFailure(env: Environment, t: Tables) returns (m: nat)
    requires Keyed(t) && Due(env, t, |Legacies(t)|).Failed?
    ensures m < |Legacies(t)| && Due(env, t, m).Done? && Due(env, t, m + 1).Failed?
  {
    ClearedKeeps(t);
    m := FirstFailure(env, t.(tools := Cleared(t.tools)), Legacies(t), |Legacies(t)|);
  }

  lemma MissingNameFails(env: Environment, t: Tables, n: nat)
    requires Keyed(t) && n < |Legacies(t)| && NameMissing(env, t, n)
    ensures Run(env, t) == Failed(NameTaken)
  {
    DueMigration(env, t, n);
    DueFails(env, t, n + 1);
  }

  lemma FailureIsMissingName(env: Environment, t: Tables) returns (n: nat)
    requires Keyed(t) && Run(env, t) == Failed(NameTaken)
    ensures n < |Legacies(t)| && NameMissing(env, t, n)
  {
    NameFailsInMigration(env, t);
    n := FirstDueFailure(env, t);
    DueFails(env, t, n + 1);
    DueMigration(env, t, n);
  }

  /** The run reports a taken name exactly if a legacy tool needs one when it is due. */
  lemma TakenNameFailsTheRun(env: Environment, t: Tables)
    requires Keyed(t)
    ensures Run(env, t) == Failed(NameTaken) <==> exists n: nat :: n < |Legacies(t)| && NameMissing(env, t, n)
  {
    if n: nat :| n < |Legacies(t)| && NameMissing(env, t, n) {
      MissingNameFails(env, t, n);
    } else if Run(env, t) == Failed(NameTaken) {
      var n := FailureIsMissingName(env, t);
    }
  }

  /** Whatever else goes wrong before it is due, a legacy tool that needs a taken name makes the run
      fail: a namesake among the legacy tools must be met first. */
  lemma NamesakeComesFirst(env: Environment, t: Tables, r: nat)
    requires Keyed(t) && r < |t.tools| && IsLegacy(t.tools[r]) && NeedsTakenName(env, t.tools, r)
    ensures Run(env, t).Failed?
  {
    var n: nat :| n < |Legacies(t)| && Legacies(t)[n] == r;
    if Due(env, t, n).Done? {
      DueIsBlocked(env, t, n);
      DueFails(env, t, n + 1);
    } else {
      DueFails(env, t, n);
    }
  }

  // ---------------------------------------------------------------- a retired namesake

  const SAMPLE := Environment(config => config, (config, credentials, stored, key) => Some("secret"), key => true, Empty, n => "new")

  function SampleTool(id: Id, name: string, engine: string): Tool {
    Tool(id, Some("team"), name, CustomTool, Some("database"), Some(engine), None, Empty, true, 1, None, false)
  }

  lemma DefaultFlattens()
    ensures Flattened(DEFAULT_POLICY) == Ok(DEFAULT_POLICY)
  {
    DedupeKept([CALLER_GATE]);
  }

  lemma DefaultAbsorbs()
    ensures Absorb(Some(DEFAULT_POLICY), DEFAULT_POLICY) == Ok(DEFAULT_POLICY)
  {
    assert LastRaw([CALLER_GATE], CALLER_GATE) == 0;
    assert MergedGates([CALLER_GATE], [CALLER_GATE]) == [CALLER_GATE];
    DedupeKept([CALLER_GATE]);
  }

  lemma DefaultsMerge(v: PolicyValue)
    requires v.Read() == Some(DEFAULT_POLICY)
    ensures Merged([v, Parsed(DEFAULT_POLICY)]) == Ok(DEFAULT_POLICY)
  {
    DefaultFlattens();
    DefaultAbsorbs();
    RunningOne(v);
    RunningPush([v], Parsed(DEFAULT_POLICY));
    assert [v] + [Parsed(DEFAULT_POLICY)] == [v, Parsed(DEFAULT_POLICY)];
  }

  lemma PoliciesMerge(target: Tool, legacy: Tool)
    requires target.policy.Read() == Some(DEFAULT_POLICY) && legacy.policy == Empty
    ensures MergedPolicy(target, legacy, false) == Done(Parsed(DEFAULT_POLICY))
  {
    DefaultFlattens();
    DefaultsMerge(target.policy);
  }

  lemma {:induction false} NothingToRekey(env: Environment, rows: seq<Connection>, n: nat, legacy: Tool, key: string)
    requires n <= |rows| && forall k :: 0 <= k < |rows| ==> rows[k].service.ForBuiltin?
    ensures RekeyRows(env, rows, n, legacy, key) == Done(rows) && Owned(rows, n, legacy.id) == []
  {
    if n > 0 { NothingToRekey(env, rows, n - 1, legacy, key); }
  }

  /** The migration of a tool without connections and with nothing but default policies around. */
  lemma SampleStep(t: Tables, i: nat, key: string, j: nat)
    requires i < |t.tools| && t.tools[i].config == Some(key) && t.tools[i].team.Some?
    requires forall k :: 0 <= k < |t.connections| ==> t.connections[k].service.ForBuiltin?
    requires t.tools[i].name != key && t.tools[i].policy == Empty && j == FindNamed(t.tools, t.tools[i].team, key)
    requires j < |t.tools| ==> t.tools[j].kind.BuiltinTool? && t.tools[j].policy.Read() == Some(DEFAULT_POLICY)
    ensures var tools := if j < |t.tools| then t.tools else t.tools + [FreshBuiltin(SAMPLE, j, t.tools[i].team, key)];
            var one := MigrateOne(SAMPLE, t, i);
            && one.Done?
            && one.value.0.tools == tools[i := RetiredTool(t.tools[i])][j := MergedTarget(tools[j], t.tools[i], Parsed(DEFAULT_POLICY))]
            && (forall k :: 0 <= k < |one.value.0.connections| ==> one.value.0.connections[k].service.ForBuiltin?)
            && one.value.0.agents == t.agents
  {
    var tools := if j < |t.tools| then t.tools else t.tools + [FreshBuiltin(SAMPLE, j, t.tools[i].team, key)];
    PoliciesMerge(tools[j], t.tools[i]);
    NothingToRekey(SAMPLE, t.connections, |t.connections|, t.tools[i], key);
  }

  lemma TwoMigrations(env: Environment, t: Tables)
    requires |t.tools| == 2 && MigrateOne(env, t, 0).Done?
    requires MigrateOne(env, MigrateOne(env, t, 0).value.0, 1).Done?
    ensures var two := MigrateOne(env, MigrateOne(env, t, 0).value.0, 1).value;
            MigrateRows(env, t, [0, 1]) == Done((two.0, [MigrateOne(env, t, 0).value.1, two.1]))
  {
    assert [0, 1][..1] == [0] && [0][..0] == [];
    var m, n := MigrateOne(env, t, 0).value.1, MigrateOne(env, MigrateOne(env, t, 0).value.0, 1).value.1;
    assert MigrateRows(env, t, [0]) == Done((MigrateOne(env, t, 0).value.0, [] + [m]));
    assert [] + [m] + [n] == [m, n];
  }

  lemma RunWithoutReferences(env: Environment, t: Tables, rows: seq<nat>)
    requires rows == Legacies(t) && rows != [] && t.agents == [] && Listed(Cleared(t.tools), rows)
    requires MigrateRows(env, t.(tools := Cleared(t.tools)), rows).Done?
    ensures Run(env, t).Done? && Run(env, t).value.tools == MigrateRows(env, t.(tools := Cleared(t.tools)), rows).value.0.tools
  {
    AgentsUntouched(env, t.(tools := Cleared(t.tools)), rows);
  }

  /** A legacy tool that carries the builtin name of another engine is retired under that name, and a
      later legacy tool of that engine merges into the retired row: disabled, though both were enabled. */
  lemma RetiredNamesakeIsAdopted(t: Tables)
    requires t.tools == [SampleTool("1", "postgresql_query", "mysql_query"), SampleTool("2", "sales", "postgresql_query")]
    requires t.connections == [] && t.agents == []
    ensures t.tools[0].enabled && t.tools[1].enabled
    ensures Run(SAMPLE, t).Done?
    ensures Into(SAMPLE, t.tools[1], Run(SAMPLE, t).value.tools[0]) && !Run(SAMPLE, t).value.tools[0].enabled
  {
    var cleared := t.(tools := Cleared(t.tools));
    TwoLegacies(t);
    SampleRun(cleared, ClearedTool(t.tools[0]), ClearedTool(t.tools[1]));
    RunWithoutReferences(SAMPLE, t, [0, 1]);
  }

  lemma TwoLegacies(t: Tables)
    requires |t.tools| == 2 && IsLegacy(t.tools[0]) && IsLegacy(t.tools[1])
    ensures Legacies(t) == [0, 1]
  {
    assert LegacyRows(t.tools, 1) == LegacyRows(t.tools, 0) + [0];
    assert LegacyRows(t.tools, 2) == LegacyRows(t.tools, 1) + [1];
  }

  lemma SampleRun(t: Tables, a: Tool, b: Tool)
    requires t.tools == [a, b] && t.connections == []
    requires a == ClearedTool(SampleTool("1", "postgresql_query", "mysql_query"))
    requires b == ClearedTool(SampleTool("2", "sales", "postgresql_query"))
    ensures var run := MigrateRows(SAMPLE, t, [0, 1]);
            run.Done? && run.value.0.tools[0] == MergedTarget(RetiredTool(a), b, Parsed(DEFAULT_POLICY))
  {
    SampleStep(t, 0, "mysql_query", 2);
    var one := MigrateOne(SAMPLE, t, 0).value.0;
    assert one.tools[0] == RetiredTool(a) && one.tools[1] == b;
    SampleStep(one, 1, "postgresql_query", 0);
    TwoMigrations(SAMPLE, t);
  }
}
