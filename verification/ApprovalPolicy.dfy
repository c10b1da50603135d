/** Approval policies and their strict merge.

    A policy is a decision, the gates a required approval must pass, and complete
    policies that replace it for single operations. The cutover folds the overrides
    into the default and merges policies so that nothing becomes more permissive.
  */
module ApprovalPolicy {
  import opened Options

  datatype Decision = Allow | RequireApproval | Deny
  {
    function Rank(): nat {
      match this
      case Allow => 0
      case RequireApproval => 1
      case Deny => 2
    }
  }

  /** The first of the two that ranks highest, as `max` with a key picks it. */
  function Highest(a: Decision, b: Decision): Decision {
    if a.Rank() < b.Rank() then b else a
  }

  datatype GateKind = Caller | User | TeamRole

  /** One validated gate; users and roles hold no duplicates, but their order is free. */
  datatype Gate = Gate(kind: GateKind, users: seq<string>, roles: seq<string>, selfApproval: bool)
  {
    /** The audience as `_merge_gates` compares it: order counts. */
    function Raw(): Spelling {
      (kind, users, roles)
    }

    /** The audience as `gate_signature` compares it: sorted, so order does not count. */
    function Audience(): Audience {
      match kind
      case Caller => (Caller, {})
      case User => (User, set u | u in users)
      case TeamRole => (TeamRole, set r | r in roles)
    }

    /** This gate once a gate for the same audience joins it: self-approval only if both allow it. */
    function Tightened(other: Gate): Gate {
      if selfApproval && !other.selfApproval then this.(selfApproval := false) else this
    }
  }

  type Audience = (GateKind, set<string>)

  const CALLER_GATE := Gate(Caller, [], [], false)
  const MAX_GATES := 20

  /** `overrides` is a dictionary in insertion order. */
  datatype Policy = Policy(decision: Decision, gates: seq<Gate>, overrides: seq<Override>)
  datatype Override = Override(operation: string, policy: Policy)

  datatype Result<+T> = Ok(value: T) | TooManyGates | GatesWithoutApproval

  // ---------------------------------------------------------------- gates

  /** The last gate whose audience is spelled the same way, or -1. */
  function LastRaw(gates: seq<Gate>, g: Gate): (k: int)
    ensures -1 <= k < |gates|
    ensures k >= 0 ==> gates[k].Raw() == g.Raw()
    ensures forall i :: k < i < |gates| ==> gates[i].Raw() != g.Raw()
  {
    if gates == [] then -1
    else if gates[|gates| - 1].Raw() == g.Raw() then |gates| - 1
    else LastRaw(gates[..|gates| - 1], g)
  }

  function AddGate(gates: seq<Gate>, g: Gate): seq<Gate> {
    var k := LastRaw(gates, g);
    if k < 0 then gates + [g] else gates[k := gates[k].Tightened(g)]
  }

  function MergedGates(left: seq<Gate>, right: seq<Gate>): seq<Gate> {
    if right == [] then left
    else AddGate(MergedGates(left, right[..|right| - 1]), right[|right| - 1])
  }

  type Spelling = (GateKind, seq<string>, seq<string>)

  /** Where the loop of `_merge_gates` finds every spelling it has seen: its last gate. */
  ghost predicate Indexed(indexes: map<Spelling, nat>, gates: seq<Gate>) {
    && (forall s :: s in indexes ==> indexes[s] < |gates| && gates[indexes[s]].Raw() == s)
    && (forall i :: 0 <= i < |gates| ==> gates[i].Raw() in indexes && i <= indexes[gates[i].Raw()])
  }

  lemma IndexedPush(indexes: map<Spelling, nat>, gates: seq<Gate>, g: Gate)
    requires Indexed(indexes, gates)
    ensures Indexed(indexes[g.Raw() := |gates|], gates + [g])
  {
  }

  lemma IndexedAdd(indexes: map<Spelling, nat>, gates: seq<Gate>, g: Gate)
    requires Indexed(indexes, gates) && g.Raw() in indexes
    ensures AddGate(gates, g) == gates[indexes[g.Raw()] := gates[indexes[g.Raw()]].Tightened(g)]
    ensures Indexed(indexes, AddGate(gates, g))
  {
    var k := indexes[g.Raw()];
    assert LastRaw(gates, g) == k;
    var after := gates[k := gates[k].Tightened(g)];
    forall i | 0 <= i < |gates|
      ensures after[i].Raw() == gates[i].Raw()
    {
    }
  }

  method MergeGates(left: seq<Gate>, right: seq<Gate>) returns (merged: seq<Gate>)
    ensures merged == MergedGates(left, right)
  {
    merged := left;
    var indexes: map<Spelling, nat> := map[];
    for i := 0 to |left|
      invariant Indexed(indexes, left[..i])
    {
      IndexedPush(indexes, left[..i], left[i]);
      assert left[..i + 1] == left[..i] + [left[i]];
      indexes := indexes[left[i].Raw() := i];
    }
    assert left[..|left|] == left;
    for i := 0 to |right|
      invariant Indexed(indexes, merged)
      invariant merged == MergedGates(left, right[..i])
    {
      var gate := right[i];
      assert right[..i + 1][..i] == right[..i];
      if gate.Raw() !in indexes {
        IndexedPush(indexes, merged, gate);
        indexes := indexes[gate.Raw() := |merged|];
        merged := merged + [gate];
      } else {
        IndexedAdd(indexes, merged, gate);
        var index := indexes[gate.Raw()];
        var existing := merged[index];
        if existing.selfApproval && !gate.selfApproval {
          merged := merged[index := Gate(existing.kind, existing.users, existing.roles, false)];
        }
      }
    }
    assert right[..|right|] == right;
  }

  /** The first gate for the same audience, or the length. */
  function FirstAudience(gates: seq<Gate>, a: Audience): (k: nat)
    ensures k <= |gates|
    ensures k < |gates| ==> gates[k].Audience() == a
    ensures forall i :: 0 <= i < k ==> gates[i].Audience() != a
  {
    if gates == [] || gates[0].Audience() == a then 0 else 1 + FirstAudience(gates[1..], a)
  }

  /** The validator of a policy's gates: one gate per audience, in order of first appearance. */
  function Dedupe(gates: seq<Gate>): seq<Gate> {
    if gates == [] then []
    else
      var kept, g := Dedupe(gates[..|gates| - 1]), gates[|gates| - 1];
      var k := FirstAudience(kept, g.Audience());
      if k < |kept| then kept[k := kept[k].Tightened(g)] else kept + [g]
  }

  /** Building a policy without overrides: gates deduplicated and counted, caller confirmation
      added when an approval names nobody, gates refused on any other decision. */
  function NewPolicy(decision: Decision, gates: seq<Gate>): Result<Policy> {
    var kept := Dedupe(gates);
    if |kept| > MAX_GATES then TooManyGates
    else if decision == RequireApproval then Ok(Policy(decision, if kept == [] then [CALLER_GATE] else kept, []))
    else if kept != [] then GatesWithoutApproval
    else Ok(Policy(decision, [], []))
  }

  const DEFAULT_POLICY := Policy(RequireApproval, [CALLER_GATE], [])

  // ---------------------------------------------------------------- policies

  function Lookup(overrides: seq<Override>, operation: string): Option<Policy> {
    if overrides == [] then None
    else if overrides[0].operation == operation then Some(overrides[0].policy)
    else Lookup(overrides[1..], operation)
  }

  lemma LookupListed(overrides: seq<Override>, operation: string)
    ensures var found := Lookup(overrides, operation);
            found.Some? ==> exists i :: 0 <= i < |overrides| && overrides[i].policy == found.value
  {
    if overrides != [] && overrides[0].operation != operation {
      LookupListed(overrides[1..], operation);
      var found := Lookup(overrides[1..], operation);
      if found.Some? {
        var i :| 0 <= i < |overrides[1..]| && overrides[1..][i].policy == found.value;
        assert overrides[i + 1].policy == found.value;
      }
    }
  }

  /** The policy in force for an operation; overrides of overrides are followed. */
  function ForOperation(p: Policy, operation: string): Policy
    decreases p
  {
    var found := Lookup(p.overrides, operation);
    if found.None? then p
    else
      assert found.value < p by { LookupListed(p.overrides, operation); }
      ForOperation(found.value, operation)
  }

  /** What the validators guarantee of any parsed policy. */
  predicate WellFormed(p: Policy)
    decreases p
  {
    && |p.gates| <= MAX_GATES
    && (forall i, j :: 0 <= i < j < |p.gates| ==> p.gates[i].Audience() != p.gates[j].Audience())
    && (p.decision == RequireApproval <==> p.gates != [])
    && (forall i, j :: 0 <= i < j < |p.overrides| ==> p.overrides[i].operation != p.overrides[j].operation)
    && (forall i :: 0 <= i < |p.overrides| ==> WellFormed(p.overrides[i].policy))
  }

  function FoldedDecision(p: Policy, n: nat): Decision
    requires n <= |p.overrides|
  {
    if n == 0 then p.decision else Highest(FoldedDecision(p, n - 1), p.overrides[n - 1].policy.decision)
  }

  function FoldedGates(p: Policy, n: nat): seq<Gate>
    requires n <= |p.overrides|
  {
    if n == 0 then p.gates else MergedGates(FoldedGates(p, n - 1), p.overrides[n - 1].policy.gates)
  }

  function Flattened(p: Policy): Result<Policy> {
    var decision := FoldedDecision(p, |p.overrides|);
    NewPolicy(decision, if decision == RequireApproval then FoldedGates(p, |p.overrides|) else [])
  }

  method Flatten(p: Policy) returns (r: Result<Policy>)
    ensures r == Flattened(p)
  {
    var decision, gates := p.decision, p.gates;
    for i := 0 to |p.overrides|
      invariant decision == FoldedDecision(p, i) && gates == FoldedGates(p, i)
    {
      var override := p.overrides[i].policy;
      decision := Highest(decision, override.decision);
      gates := MergeGates(gates, override.gates);
    }
    if decision != RequireApproval {
      gates := [];
    }
    r := NewPolicy(decision, gates);
  }

  /** A stored policy: absent (or no mapping at all), an empty mapping, or a parsed one. */
  datatype PolicyValue = Absent | Empty | Parsed(policy: Policy)
  {
    predicate Valid() {
      Parsed? ==> WellFormed(policy)
    }

    /** `_policy`: an empty mapping reads as the fail-closed default. */
    function Read(): Option<Policy> {
      match this
      case Absent => None
      case Empty => Some(DEFAULT_POLICY)
      case Parsed(p) => Some(p)
    }
  }

  /** `flatten_policy`: nothing flattens to an empty mapping. */
  function FlattenValue(v: PolicyValue): Result<PolicyValue> {
    if v.Read().None? then Ok(Empty)
    else
      match Flattened(v.Read().value)
      case Ok(p) => Ok(Parsed(p))
      case TooManyGates => TooManyGates
      case GatesWithoutApproval => GatesWithoutApproval
  }

  /** One step of the merge: the policies so far, and one more flattened policy. */
  function Absorb(merged: Option<Policy>, next: Policy): Result<Policy> {
    if merged.None? then Ok(next)
    else
      var decision := Highest(merged.value.decision, next.decision);
      NewPolicy(decision, if decision == RequireApproval then MergedGates(merged.value.gates, next.gates) else [])
  }

  function AbsorbValue(merged: Option<Policy>, v: PolicyValue): Result<Option<Policy>> {
    if v.Read().None? then Ok(merged)
    else
      match Flattened(v.Read().value)
      case TooManyGates => TooManyGates
      case GatesWithoutApproval => GatesWithoutApproval
      case Ok(flat) =>
        match Absorb(merged, flat)
        case Ok(p) => Ok(Some(p))
        case TooManyGates => TooManyGates
        case GatesWithoutApproval => GatesWithoutApproval
  }

  function Running(values: seq<PolicyValue>): Result<Option<Policy>> {
    if values == [] then Ok(None)
    else
      match Running(values[..|values| - 1])
      case Ok(merged) => AbsorbValue(merged, values[|values| - 1])
      case failure => failure
  }

  function Merged(values: seq<PolicyValue>): Result<Policy> {
    match Running(values)
    case Ok(merged) => Ok(if merged.None? then DEFAULT_POLICY else merged.value)
    case TooManyGates => TooManyGates
    case GatesWithoutApproval => GatesWithoutApproval
  }

  lemma FailureStays(values: seq<PolicyValue>, n: nat)
    requires n <= |values| && !Running(values[..n]).Ok?
    ensures Running(values) == Running(values[..n])
  {
    if n == |values| {
      assert values[..n] == values;
    } else {
      var front := values[..|values| - 1];
      assert front[..n] == values[..n];
      FailureStays(front, n);
    }
  }

  /** `merge_approval_policies`: the first failing policy ends the merge. */
  method MergePolicies(values: seq<PolicyValue>) returns (r: Result<Policy>)
    ensures r == Merged(values)
  {
    var merged: Option<Policy> := None;
    for i := 0 to |values|
      invariant Running(values[..i]) == Ok(merged)
    {
      assert values[..i + 1][..i] == values[..i];
      var policy := values[i].Read();
      if policy.Some? {
        var flattened := Flatten(policy.value);
        if !flattened.Ok? {
          FailureStays(values, i + 1);
          return flattened;
        }
        if merged.None? {
          merged := Some(flattened.value);
        } else {
          var decision := Highest(merged.value.decision, flattened.value.decision);
          var gates := [];
          if decision == RequireApproval {
            gates := MergeGates(merged.value.gates, flattened.value.gates);
          }
          var next := NewPolicy(decision, gates);
          if !next.Ok? {
            FailureStays(values, i + 1);
            return next;
          }
          merged := Some(next.value);
        }
      }
    }
    assert values[..|values|] == values;
    r := Ok(if merged.None? then DEFAULT_POLICY else merged.value);
  }
}
