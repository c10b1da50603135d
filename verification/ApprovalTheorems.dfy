/** Merging approval policies is a least upper bound: on what a policy enforces, the merge is the
    weakest result at least as strict as every decision and gate of every input.
  */
module ApprovalTheorems {
  import opened Options
  import opened ApprovalPolicy

  // ---------------------------------------------------------------- what a policy enforces

  /** The audiences that must approve, and whether one of them may approve their own call. */
  function View(gates: seq<Gate>): map<Audience, bool> {
    map a | a in Audiences(gates) :: SelfApproved(gates, a)
  }

  function Audiences(gates: seq<Gate>): set<Audience> {
    set g | g in gates :: g.Audience()
  }

  predicate SelfApproved(gates: seq<Gate>, a: Audience) {
    forall g :: g in gates && g.Audience() == a ==> g.selfApproval
  }

  /** A decision with the gates it enforces; only a required approval enforces any. */
  datatype Effect = Effect(decision: Decision, view: map<Audience, bool>)
  {
    predicate Proper() {
      decision != RequireApproval ==> view == map[]
    }
  }

  function EffectOf(p: Policy): Effect {
    Effect(p.decision, if p.decision == RequireApproval then View(p.gates) else map[])
  }

  /** At least as strict: no lower decision, and every gate still there with no looser flag. */
  predicate Below(a: Effect, b: Effect) {
    && a.decision.Rank() <= b.decision.Rank()
    && (b.decision == RequireApproval ==>
          forall c :: c in a.view ==> c in b.view && (b.view[c] ==> a.view[c]))
  }

  function JoinViews(a: map<Audience, bool>, b: map<Audience, bool>): map<Audience, bool> {
    map c | c in a.Keys + b.Keys :: (c in a ==> a[c]) && (c in b ==> b[c])
  }

  function Join(a: Effect, b: Effect): Effect {
    var decision := Highest(a.decision, b.decision);
    Effect(decision, if decision == RequireApproval then JoinViews(a.view, b.view) else map[])
  }

  // ---------------------------------------------------------------- the order

  lemma BelowIsAnOrder(a: Effect, b: Effect, c: Effect)
    requires a.Proper() && b.Proper() && c.Proper()
    ensures Below(a, a)
    ensures Below(a, b) && Below(b, c) ==> Below(a, c)
    ensures Below(a, b) && Below(b, a) ==> a == b
  {
    if Below(a, b) && Below(b, a) {
      assert a.decision == b.decision;
      if a.decision == RequireApproval {
        assert a.view.Keys == b.view.Keys;
        assert forall k :: k in a.view ==> a.view[k] == b.view[k];
      }
    }
  }

  lemma JoinIsLeast(a: Effect, b: Effect, u: Effect)
    requires a.Proper() && b.Proper() && u.Proper()
    ensures Join(a, b).Proper() && Below(a, Join(a, b)) && Below(b, Join(a, b))
    ensures Below(a, u) && Below(b, u) ==> Below(Join(a, b), u)
  {
  }

  /** The join of a list; the empty list has none, so the caller names one. */
  function Sup(bottom: Effect, effects: seq<Effect>): Effect {
    if effects == [] then bottom
    else if |effects| == 1 then effects[0]
    else Join(Sup(bottom, effects[..|effects| - 1]), effects[|effects| - 1])
  }

  ghost predicate AllProper(effects: seq<Effect>) {
    forall e :: e in effects ==> e.Proper()
  }

  ghost predicate Bounds(u: Effect, effects: seq<Effect>) {
    forall e :: e in effects ==> Below(e, u)
  }

  lemma {:induction false} SupIsLeast(bottom: Effect, effects: seq<Effect>, u: Effect)
    requires effects != [] && AllProper(effects) && u.Proper()
    ensures Sup(bottom, effects).Proper() && Bounds(Sup(bottom, effects), effects)
    ensures Bounds(u, effects) ==> Below(Sup(bottom, effects), u)
  {
    var n := |effects| - 1;
    var front, last := effects[..n], effects[n];
    if n == 0 {
      BelowIsAnOrder(last, last, last);
    } else {
      SupIsLeast(bottom, front, u);
      var before := Sup(bottom, front);
      JoinIsLeast(before, last, u);
      forall e | e in effects
        ensures Below(e, Join(before, last))
      {
        if e in front { BelowIsAnOrder(e, before, Join(before, last)); }
      }
      assert Bounds(u, effects) ==> Bounds(u, front) && Below(last, u);
    }
  }

  lemma SupPush(bottom: Effect, effects: seq<Effect>, e: Effect)
    requires effects != []
    ensures Sup(bottom, effects + [e]) == Join(Sup(bottom, effects), e)
  {
    assert (effects + [e])[..|effects|] == effects;
  }

  /** Whatever the order and the repetitions, equal sets of effects have one join. */
  lemma SupByContents(bottom: Effect, a: seq<Effect>, b: seq<Effect>)
    requires a != [] && b != [] && AllProper(a) && AllProper(b)
    requires forall e :: e in a <==> e in b
    ensures Sup(bottom, a) == Sup(bottom, b)
  {
    var x, y := Sup(bottom, a), Sup(bottom, b);
    SupIsLeast(bottom, a, a[0]);
    SupIsLeast(bottom, b, b[0]);
    SupIsLeast(bottom, a, y);
    SupIsLeast(bottom, b, x);
    BelowIsAnOrder(x, y, x);
  }

  lemma {:induction false} SupAppend(bottom: Effect, a: seq<Effect>, b: seq<Effect>)
    requires a != [] && b != [] && AllProper(a + b)
    ensures Sup(bottom, a + b) == Join(Sup(bottom, a), Sup(bottom, b))
  {
    var x, y, z := Sup(bottom, a), Sup(bottom, b), Sup(bottom, a + b);
    assert AllProper(a) && AllProper(b);
    SupIsLeast(bottom, a, a[0]);
    SupIsLeast(bottom, b, b[0]);
    SupIsLeast(bottom, a + b, a[0]);
    var j := Join(x, y);
    JoinIsLeast(x, y, z);
    forall e | e in a + b
      ensures Below(e, j)
    {
      if e in a { BelowIsAnOrder(e, x, j); } else { BelowIsAnOrder(e, y, j); }
    }
    SupIsLeast(bottom, a + b, j);
    SupIsLeast(bottom, a, z);
    SupIsLeast(bottom, b, z);
    BelowIsAnOrder(j, z, j);
  }

  // ---------------------------------------------------------------- gates

  lemma ViewOfSum(a: seq<Gate>, b: seq<Gate>)
    ensures View(a + b) == JoinViews(View(a), View(b))
  {
    assert forall g :: g in a + b <==> g in a || g in b;
    assert Audiences(a + b) == Audiences(a) + Audiences(b);
  }

  /** Tightening one gate by another one for the same audience does what adding it would. */
  lemma ViewOfTightened(gates: seq<Gate>, k: nat, g: Gate)
    requires k < |gates| && gates[k].Audience() == g.Audience()
    ensures View(gates[k := gates[k].Tightened(g)]) == View(gates + [g])
  {
    var after := gates[k := gates[k].Tightened(g)];
    forall i | 0 <= i < |gates|
      ensures after[i].Audience() == gates[i].Audience()
    {
    }
    assert Audiences(after) == Audiences(gates + [g]) by {
      forall a | a in Audiences(after)
        ensures a in Audiences(gates + [g])
      {
        var x :| x in after && x.Audience() == a;
        var i :| 0 <= i < |after| && after[i] == x;
        assert (gates + [g])[i].Audience() == a;
      }
      forall a | a in Audiences(gates + [g])
        ensures a in Audiences(after)
      {
        var x :| x in gates + [g] && x.Audience() == a;
        var i :| 0 <= i < |gates + [g]| && (gates + [g])[i] == x;
        assert after[if i < |gates| then i else k].Audience() == a;
      }
    }
    forall a | a in Audiences(after)
      ensures SelfApproved(after, a) <==> SelfApproved(gates + [g], a)
    {
      SelfApprovedTightened(gates, k, g, a);
    }
  }

  lemma SelfApprovedTightened(gates: seq<Gate>, k: nat, g: Gate, a: Audience)
    requires k < |gates| && gates[k].Audience() == g.Audience()
    ensures SelfApproved(gates[k := gates[k].Tightened(g)], a) <==> SelfApproved(gates + [g], a)
  {
    var after, sum := gates[k := gates[k].Tightened(g)], gates + [g];
    assert after[k].selfApproval == (gates[k].selfApproval && g.selfApproval);
    assert after[k].Audience() == g.Audience();
    if SelfApproved(after, a) {
      forall x | x in sum && x.Audience() == a
        ensures x.selfApproval
      {
        var i :| 0 <= i < |sum| && sum[i] == x;
        assert after[if i < |gates| then i else k] in after;
      }
    }
    if SelfApproved(sum, a) {
      forall x | x in after && x.Audience() == a
        ensures x.selfApproval
      {
        var i :| 0 <= i < |after| && after[i] == x;
        assert sum[i] in sum && sum[|gates|] in sum;
      }
    }
  }

  /** The indexed in-place merge enforces exactly what the two lists enforce together, even when
      a list spells an audience twice. */
  lemma {:induction false} MergedGatesEnforceBoth(left: seq<Gate>, right: seq<Gate>)
    ensures View(MergedGates(left, right)) == JoinViews(View(left), View(right))
  {
    ViewOfSum(left, right);
    if right == [] {
      assert left + right == left;
    } else {
      var n := |right| - 1;
      var front, g := right[..n], right[n];
      MergedGatesEnforceBoth(left, front);
      ViewOfSum(left, front);
      ViewOfSum(MergedGates(left, front), [g]);
      ViewOfSum(left + front, [g]);
      assert left + right == left + front + [g];
      var k := LastRaw(MergedGates(left, front), g);
      if k >= 0 {
        SameSpelling(MergedGates(left, front)[k], g);
        ViewOfTightened(MergedGates(left, front), k, g);
      }
    }
  }

  lemma SameSpelling(g: Gate, h: Gate)
    requires g.Raw() == h.Raw()
    ensures g.Audience() == h.Audience()
  {
  }

  predicate OnePerAudience(gates: seq<Gate>) {
    forall i, j :: 0 <= i < j < |gates| ==> gates[i].Audience() != gates[j].Audience()
  }

  lemma {:induction false} DedupeEnforcesTheSame(gates: seq<Gate>)
    ensures View(Dedupe(gates)) == View(gates) && OnePerAudience(Dedupe(gates))
  {
    if gates != [] {
      var n := |gates| - 1;
      var front, g := gates[..n], gates[n];
      DedupeEnforcesTheSame(front);
      assert gates == front + [g];
      ViewOfSum(Dedupe(front), [g]);
      ViewOfSum(front, [g]);
      var kept := Dedupe(front);
      var k := FirstAudience(kept, g.Audience());
      if k < |kept| {
        ViewOfTightened(kept, k, g);
        forall i | 0 <= i < |kept|
          ensures Dedupe(gates)[i].Audience() == kept[i].Audience()
        {
        }
      }
    }
  }

  /** One gate per audience: a list is as long as its view is large. */
  lemma {:induction false} CountByAudience(gates: seq<Gate>)
    requires OnePerAudience(gates)
    ensures |gates| == |View(gates)|
  {
    CountAudiences(gates);
    assert View(gates).Keys == Audiences(gates);
  }

  lemma {:induction false} CountAudiences(gates: seq<Gate>)
    requires OnePerAudience(gates)
    ensures |gates| == |Audiences(gates)|
  {
    if gates == [] {
      assert Audiences(gates) == {};
    } else {
      var n := |gates| - 1;
      var front, g := gates[..n], gates[n];
      CountAudiences(front);
      assert gates == front + [g];
      assert Audiences(gates) == Audiences(front) + {g.Audience()};
      assert g.Audience() !in Audiences(front);
    }
  }

  /** A policy can be built from gates for at most twenty audiences, and enforces them. */
  lemma NewPolicyEnforces(decision: Decision, gates: seq<Gate>)
    requires gates != [] <==> decision == RequireApproval
    ensures NewPolicy(decision, gates).Ok? <==> |View(gates)| <= 20
    ensures NewPolicy(decision, gates).Ok? ==>
              var p := NewPolicy(decision, gates).value;
              WellFormed(p) && p.overrides == [] && EffectOf(p) == Effect(decision, View(gates))
  {
    DedupeEnforcesTheSame(gates);
    CountByAudience(Dedupe(gates));
    if gates == [] {
      assert View(gates) == map[];
    } else {
      assert gates[0].Audience() in View(gates);
    }
  }

  // ---------------------------------------------------------------- flattening

  /** The policies of a policy and of its overrides, one level deep: what `_flatten` looks at. */
  function Layers(p: Policy, n: nat): seq<Effect>
    requires n <= |p.overrides|
  {
    if n == 0 then [EffectOf(p)] else Layers(p, n - 1) + [EffectOf(p.overrides[n - 1].policy)]
  }

  /** The join after one more layer. */
  lemma LayersPush(p: Policy, n: nat)
    requires 0 < n <= |p.overrides|
    ensures Sup(NOTHING, Layers(p, n)) == Join(Sup(NOTHING, Layers(p, n - 1)), EffectOf(p.overrides[n - 1].policy))
  {
    assert Layers(p, n - 1) != [];
    SupPush(NOTHING, Layers(p, n - 1), EffectOf(p.overrides[n - 1].policy));
  }

  function AllLayers(p: Policy): seq<Effect> {
    Layers(p, |p.overrides|)
  }

  const NOTHING := Effect(Allow, map[])

  lemma {:induction false} LayersAreProper(p: Policy, n: nat)
    requires n <= |p.overrides|
    ensures AllProper(Layers(p, n)) && |Layers(p, n)| == n + 1
    ensures EffectOf(p) in Layers(p, n)
    ensures forall i :: 0 <= i < n ==> EffectOf(p.overrides[i].policy) in Layers(p, n)
  {
    if n > 0 { LayersAreProper(p, n - 1); }
  }

  /** A decision and the gates gathered on the way to it enforce `e`. */
  predicate Gathered(e: Effect, d: Decision, gates: seq<Gate>) {
    && e == Effect(d, if d == RequireApproval then View(gates) else map[])
    && (gates == [] ==> d != RequireApproval)
    && (d == Allow ==> gates == [])
  }

  lemma GatherOne(e: Effect, d: Decision, gates: seq<Gate>, q: Policy)
    requires Gathered(e, d, gates) && (q.decision == RequireApproval <==> q.gates != [])
    ensures Gathered(Join(e, EffectOf(q)), Highest(d, q.decision), MergedGates(gates, q.gates))
  {
    MergedGatesEnforceBoth(gates, q.gates);
    NoGatesLost(gates, q.gates);
    assert View([]) == map[];
  }

  lemma GatherFirst(p: Policy)
    requires p.decision == RequireApproval <==> p.gates != []
    ensures Gathered(EffectOf(p), p.decision, p.gates)
  {
  }

  lemma {:induction false} FoldedEffect(p: Policy, n: nat)
    requires n <= |p.overrides| && WellFormed(p)
    ensures Gathered(Sup(NOTHING, Layers(p, n)), FoldedDecision(p, n), FoldedGates(p, n))
  {
    if n == 0 {
      GatherFirst(p);
    } else {
      var q := p.overrides[n - 1].policy;
      assert WellFormed(q);
      FoldedEffect(p, n - 1);
      LayersPush(p, n);
      GatherOne(Sup(NOTHING, Layers(p, n - 1)), FoldedDecision(p, n - 1), FoldedGates(p, n - 1), q);
    }
  }

  lemma {:induction false} NoGatesLost(left: seq<Gate>, right: seq<Gate>)
    ensures MergedGates(left, right) == [] <==> left == [] && right == []
  {
    if right != [] { NoGatesLost(left, right[..|right| - 1]); }
  }

  /** A flattened policy enforces the join of all its layers, and exists if that has at most
      twenty audiences. */
  lemma FlattenIsJoin(p: Policy)
    requires WellFormed(p)
    ensures var sup := Sup(NOTHING, AllLayers(p));
            && (Flattened(p).Ok? <==> |sup.view| <= MAX_GATES)
            && (Flattened(p).Ok? ==>
                  && WellFormed(Flattened(p).value) && Flattened(p).value.overrides == []
                  && EffectOf(Flattened(p).value) == sup)
  {
    var n := |p.overrides|;
    FoldedEffect(p, n);
    var d := FoldedDecision(p, n);
    assert View([]) == map[];
    NewPolicyEnforces(d, if d == RequireApproval then FoldedGates(p, n) else []);
  }

  // ---------------------------------------------------------------- merging

  /** Every layer of every policy that is there, in order. */
  function LayersOf(values: seq<PolicyValue>): seq<Effect> {
    if values == [] then []
    else
      var last := values[|values| - 1].Read();
      LayersOf(values[..|values| - 1]) + (if last.None? then [] else AllLayers(last.value))
  }

  ghost predicate AllValid(values: seq<PolicyValue>) {
    forall v :: v in values ==> v.Valid()
  }

  /** Neither the next flattened policy nor the merge it leads to has more than twenty audiences. */
  predicate FitsNext(v: PolicyValue, layers: seq<Effect>) {
    v.Read().Some? ==>
      && |Sup(NOTHING, AllLayers(v.Read().value)).view| <= MAX_GATES
      && |Sup(NOTHING, layers).view| <= MAX_GATES
  }

  /** Every step of the merge fits. */
  predicate Fits(values: seq<PolicyValue>) {
    values != [] ==> Fits(values[..|values| - 1]) && FitsNext(values[|values| - 1], LayersOf(values))
  }

  lemma ReadIsWellFormed(v: PolicyValue)
    requires v.Valid() && v.Read().Some?
    ensures WellFormed(v.Read().value)
  {
  }

  lemma {:induction false} LayersOfAreProper(values: seq<PolicyValue>)
    ensures AllProper(LayersOf(values))
    ensures forall v, e :: v in values && v.Read().Some? && e in AllLayers(v.Read().value) ==> e in LayersOf(values)
  {
    if values != [] {
      var n := |values| - 1;
      var front, last := values[..n], values[n];
      LayersOfAreProper(front);
      assert values == front + [last];
      if last.Read().Some? {
        LayersAreProper(last.Read().value, |last.Read().value.overrides|);
      }
    }
  }

  /** The merge so far is what its layers join to. */
  ghost predicate JoinedSoFar(merged: Option<Policy>, layers: seq<Effect>) {
    if merged.None? then layers == []
    else
      && layers != [] && WellFormed(merged.value) && merged.value.overrides == []
      && EffectOf(merged.value) == Sup(NOTHING, layers)
  }

  lemma AbsorbJoins(merged: Option<Policy>, layers: seq<Effect>, next: Policy, more: seq<Effect>)
    requires JoinedSoFar(merged, layers) && JoinedSoFar(Some(next), more) && AllProper(layers + more)
    ensures Absorb(merged, next).Ok? <==> |Sup(NOTHING, layers + more).view| <= MAX_GATES
    ensures Absorb(merged, next).Ok? ==> JoinedSoFar(Some(Absorb(merged, next).value), layers + more)
  {
    if merged.None? {
      assert layers + more == more;
      NewPolicyEnforces(next.decision, next.gates);
      DedupeKept(next.gates);
    } else {
      SupAppend(NOTHING, layers, more);
      var d := Highest(merged.value.decision, next.decision);
      MergedGatesEnforceBoth(merged.value.gates, next.gates);
      NoGatesLost(merged.value.gates, next.gates);
      assert View([]) == map[];
      NewPolicyEnforces(d, if d == RequireApproval then MergedGates(merged.value.gates, next.gates) else []);
    }
  }

  /** Gates for different audiences are kept as they are. */
  lemma {:induction false} DedupeKept(gates: seq<Gate>)
    requires OnePerAudience(gates)
    ensures Dedupe(gates) == gates
  {
    if gates != [] {
      DedupeKept(gates[..|gates| - 1]);
    }
  }

  lemma FlattenJoins(p: Policy)
    requires WellFormed(p)
    ensures Flattened(p).Ok? <==> |Sup(NOTHING, AllLayers(p)).view| <= 20
    ensures Flattened(p).Ok? ==> JoinedSoFar(Some(Flattened(p).value), AllLayers(p))
  {
    FlattenIsJoin(p);
    LayersAreProper(p, |p.overrides|);
  }

  lemma AbsorbedValue(merged: Option<Policy>, v: PolicyValue, p: Policy)
    requires v.Read() == Some(p)
    ensures AbsorbValue(merged, v).Ok? <==> Flattened(p).Ok? && Absorb(merged, Flattened(p).value).Ok?
    ensures AbsorbValue(merged, v).Ok? ==> AbsorbValue(merged, v).value == Some(Absorb(merged, Flattened(p).value).value)
  {
  }

  lemma {:induction false} AbsorbValueJoins(merged: Option<Policy>, layers: seq<Effect>, v: PolicyValue)
    requires JoinedSoFar(merged, layers) && v.Valid() && v.Read().Some?
    requires AllProper(layers + AllLayers(v.Read().value))
    ensures var all := layers + AllLayers(v.Read().value);
            && (AbsorbValue(merged, v).Ok? <==> FitsNext(v, all))
            && (AbsorbValue(merged, v).Ok? ==> JoinedSoFar(AbsorbValue(merged, v).value, all))
  {
    var p := v.Read().value;
    ReadIsWellFormed(v);
    FlattenJoins(p);
    AbsorbedValue(merged, v, p);
    var more := AllLayers(p);
    if Flattened(p).Ok? {
      AbsorbJoins(merged, layers, Flattened(p).value, more);
    }
  }

  lemma {:induction false} RunningIsJoin(values: seq<PolicyValue>)
    requires AllValid(values)
    ensures Running(values).Ok? <==> Fits(values)
    ensures Running(values).Ok? ==> JoinedSoFar(Running(values).value, LayersOf(values))
  {
    if values != [] {
      var n := |values| - 1;
      RunningIsJoin(values[..n]);
      LayersOfAreProper(values);
      if values[n].Read().None? {
        assert LayersOf(values[..n]) + [] == LayersOf(values[..n]);
      } else if Running(values[..n]).Ok? {
        AbsorbValueJoins(Running(values[..n]).value, LayersOf(values[..n]), values[n]);
      }
    }
  }

  function DefaultOr(layers: seq<Effect>): Effect {
    if layers == [] then EffectOf(DEFAULT_POLICY) else Sup(NOTHING, layers)
  }

  /** The merge succeeds exactly when nothing on the way has more than twenty audiences; it then
      enforces the join of every decision and gate set, or the default when there is none. */
  lemma MergeIsJoin(values: seq<PolicyValue>)
    requires AllValid(values)
    ensures Merged(values).Ok? <==> Fits(values)
    ensures Merged(values).Ok? ==>
              var p := Merged(values).value;
              WellFormed(p) && p.overrides == [] && EffectOf(p) == DefaultOr(LayersOf(values))
  {
    RunningIsJoin(values);
  }

  /** What asks nobody asks the caller: an empty stored policy, a merge of no policies, and an approval that
      names no audience. */
  lemma CallerIsAsked(values: seq<PolicyValue>)
    requires forall i :: 0 <= i < |values| ==> values[i] == Absent
    ensures var asksCaller := Policy(RequireApproval, [Gate(Caller, [], [], false)], []);
            Empty.Read() == Some(asksCaller) && Merged(values) == Ok(asksCaller) && NewPolicy(RequireApproval, []) == Ok(asksCaller)
  {
    AbsentOnes(values);
  }

  /** Gates are refused on anything but an approval. */
  lemma GatesNeedApproval(decision: Decision, gates: seq<Gate>)
    requires decision != RequireApproval && gates != []
    ensures NewPolicy(decision, gates) == if |View(gates)| <= 20 then GatesWithoutApproval else TooManyGates
  {
    DedupeEnforcesTheSame(gates);
    CountByAudience(Dedupe(gates));
    assert gates[0].Audience() in View(gates);
  }

  lemma {:induction false} AbsentOnes(values: seq<PolicyValue>)
    requires forall i :: 0 <= i < |values| ==> values[i] == Absent
    ensures Running(values) == Ok(None)
  {
    if values != [] { AbsentOnes(values[..|values| - 1]); }
  }

  // ---------------------------------------------------------------- nothing is relaxed

  /** Two gates ask the same people: both the caller, the same users, or the same roles, in any order. */
  ghost predicate AskTheSame(g: Gate, h: Gate) {
    && g.kind == h.kind
    && (g.kind.User? ==> forall u :: u in g.users <==> u in h.users)
    && (g.kind.TeamRole? ==> forall r :: r in g.roles <==> r in h.roles)
  }

  /** That is what one audience means. */
  lemma AudienceIsWhoIsAsked(g: Gate, h: Gate)
    ensures g.Audience() == h.Audience() <==> AskTheSame(g, h)
  {
    var a, b := g.Audience(), h.Audience();
    if AskTheSame(g, h) {
      assert a.1 == b.1;
      assert a == (a.0, a.1) && b == (b.0, b.1);
    } else if g.kind == h.kind && a == b {
      assert g.kind.User? ==> forall u :: u in g.users <==> u in a.1;
      assert h.kind.User? ==> forall u :: u in h.users <==> u in b.1;
      assert g.kind.TeamRole? ==> forall r :: r in g.roles <==> r in a.1;
      assert h.kind.TeamRole? ==> forall r :: r in h.roles <==> r in b.1;
    }
  }

  /** The policy for the operation is at most one override deep. */
  predicate ShallowFor(p: Policy, operation: string) {
    var found := Lookup(p.overrides, operation);
    found.Some? ==> Lookup(found.value.overrides, operation).None?
  }

  /** `p` decides nothing, and asks nobody, that `r` does not. */
  ghost predicate NoLooser(p: Policy, r: Policy) {
    && p.decision.Rank() <= r.decision.Rank()
    && (r.decision == RequireApproval ==> forall g :: g in p.gates ==> Kept(g, r.gates))
  }

  lemma BelowMeansNoLooser(p: Policy, r: Policy)
    requires WellFormed(p) && WellFormed(r)
    ensures NoLooser(p, r) <==> Below(EffectOf(p), EffectOf(r))
  {
    if r.decision == RequireApproval && p.decision == RequireApproval {
      ViewOfGate(p.gates);
      ViewOfGate(r.gates);
      forall g | g in p.gates
        ensures Kept(g, r.gates) <==>
                g.Audience() in View(r.gates) && (View(r.gates)[g.Audience()] ==> View(p.gates)[g.Audience()])
      {
        KeptInView(g, r.gates);
      }
    }
  }

  /** A gate that asks the same people, no looser about self-approval. */
  ghost predicate Kept(g: Gate, gates: seq<Gate>) {
    exists h :: h in gates && AskTheSame(h, g) && (h.selfApproval ==> g.selfApproval)
  }

  lemma KeptInView(g: Gate, gates: seq<Gate>)
    requires OnePerAudience(gates)
    ensures Kept(g, gates) <==> g.Audience() in View(gates) && (View(gates)[g.Audience()] ==> g.selfApproval)
  {
    ViewOfGate(gates);
    forall h | h in gates
      ensures AskTheSame(h, g) <==> h.Audience() == g.Audience()
    {
      AudienceIsWhoIsAsked(h, g);
    }
    if g.Audience() in View(gates) {
      var h :| h in gates && h.Audience() == g.Audience();
      assert View(gates)[g.Audience()] == h.selfApproval;
    }
  }

  lemma ViewOfGate(gates: seq<Gate>)
    requires OnePerAudience(gates)
    ensures forall g :: g in gates ==> g.Audience() in View(gates) && View(gates)[g.Audience()] == g.selfApproval
  {
    forall g | g in gates
      ensures g.Audience() in View(gates) && View(gates)[g.Audience()] == g.selfApproval
    {
      var i :| 0 <= i < |gates| && gates[i] == g;
      forall h | h in gates && h.Audience() == g.Audience()
        ensures h == g
      {
        var j :| 0 <= j < |gates| && gates[j] == h;
        assert i == j;
      }
    }
  }

  lemma LayerOfOperation(p: Policy, operation: string)
    requires WellFormed(p) && ShallowFor(p, operation)
    ensures WellFormed(ForOperation(p, operation))
    ensures EffectOf(ForOperation(p, operation)) in AllLayers(p)
  {
    var found := Lookup(p.overrides, operation);
    LookupListed(p.overrides, operation);
    LayersAreProper(p, |p.overrides|);
    if found.Some? {
      assert ForOperation(found.value, operation) == found.value;
    }
  }

  /** Approval can only become more restrictive: for every policy that goes in and every operation
      it does not override twice over, the merged policy ranks at least as high, and if it asks for
      approval it asks everyone the policy asked, with no looser self-approval. */
  lemma MergeNeverRelaxes(values: seq<PolicyValue>, v: PolicyValue, operation: string)
    requires AllValid(values) && v in values && v.Read().Some? && Merged(values).Ok?
    requires ShallowFor(v.Read().value, operation)
    ensures ForOperation(Merged(values).value, operation) == Merged(values).value
    ensures NoLooser(ForOperation(v.Read().value, operation), Merged(values).value)
  {
    var p, r := v.Read().value, Merged(values).value;
    ReadIsWellFormed(v);
    LayerOfOperation(p, operation);
    LayersOfAreProper(values);
    MergeIsJoin(values);
    var e := EffectOf(ForOperation(p, operation));
    assert e in LayersOf(values);
    SupIsLeast(NOTHING, LayersOf(values), e);
    BelowMeansNoLooser(ForOperation(p, operation), r);
  }

  /** And it is the least such policy: any effect at least as strict as every layer of every
      input is at least as strict as the merge. */
  lemma MergeIsLeast(values: seq<PolicyValue>, u: Effect)
    requires AllValid(values) && Merged(values).Ok? && u.Proper()
    requires LayersOf(values) != [] && Bounds(u, LayersOf(values))
    ensures Below(EffectOf(Merged(values).value), u)
  {
    MergeIsJoin(values);
    LayersOfAreProper(values);
    SupIsLeast(NOTHING, LayersOf(values), u);
  }

  // ---------------------------------------------------------------- overrides of overrides

  function FirstFor(overrides: seq<Override>, operation: string): (k: nat)
    ensures k <= |overrides|
    ensures k < |overrides| ==> overrides[k].operation == operation
    ensures forall i :: 0 <= i < k ==> overrides[i].operation != operation
  {
    if overrides == [] || overrides[0].operation == operation then 0 else 1 + FirstFor(overrides[1..], operation)
  }

  lemma {:induction false} LookupIsFirst(overrides: seq<Override>, operation: string, k: nat)
    requires k <= |overrides| && forall i :: 0 <= i < k ==> overrides[i].operation != operation
    requires k < |overrides| ==> overrides[k].operation == operation
    ensures Lookup(overrides, operation) == if k < |overrides| then Some(overrides[k].policy) else None
  {
    if k > 0 {
      LookupIsFirst(overrides[1..], operation, k - 1);
    }
  }

  /** The policy with another one in force for the operation. */
  function Rewired(p: Policy, operation: string, q: Policy): Policy
    decreases p
  {
    var k := FirstFor(p.overrides, operation);
    if k == |p.overrides| then q
    else p.(overrides := p.overrides[k := Override(operation, Rewired(p.overrides[k].policy, operation, q))])
  }

  lemma {:induction false} RewiredInForce(p: Policy, operation: string, q: Policy)
    requires q.overrides == []
    ensures ForOperation(Rewired(p, operation, q), operation) == q
    decreases p
  {
    var k := FirstFor(p.overrides, operation);
    if k < |p.overrides| {
      RewiredInForce(p.overrides[k].policy, operation, q);
      LookupIsFirst(Rewired(p, operation, q).overrides, operation, k);
    }
  }

  lemma {:induction false} RewiredIsWellFormed(p: Policy, operation: string, q: Policy)
    requires WellFormed(p) && WellFormed(q)
    ensures WellFormed(Rewired(p, operation, q))
    decreases p
  {
    var k := FirstFor(p.overrides, operation);
    if k < |p.overrides| {
      RewiredIsWellFormed(p.overrides[k].policy, operation, q);
    }
  }

  lemma {:induction false} SameFold(p: Policy, q: Policy, n: nat)
    requires n <= |p.overrides| == |q.overrides| && p.decision == q.decision && p.gates == q.gates
    requires forall i :: 0 <= i < |p.overrides| ==> p.overrides[i].policy.decision == q.overrides[i].policy.decision
                                                    && p.overrides[i].policy.gates == q.overrides[i].policy.gates
    ensures FoldedDecision(p, n) == FoldedDecision(q, n) && FoldedGates(p, n) == FoldedGates(q, n)
  {
    if n > 0 { SameFold(p, q, n - 1); }
  }

  /** Flattening does not look at an override of an override. */
  lemma RewiredFlattensTheSame(p: Policy, operation: string, q: Policy)
    requires !ShallowFor(p, operation)
    ensures Flattened(Rewired(p, operation, q)) == Flattened(p)
  {
    var k, r := FirstFor(p.overrides, operation), Rewired(p, operation, q);
    LookupIsFirst(p.overrides, operation, k);
    var inner := p.overrides[k].policy;
    LookupIsFirst(inner.overrides, operation, FirstFor(inner.overrides, operation));
    assert Rewired(inner, operation, q).decision == inner.decision && Rewired(inner, operation, q).gates == inner.gates;
    assert r.overrides[k].policy == Rewired(inner, operation, q);
    SameFold(p, r, |p.overrides|);
  }

  lemma {:induction false} RunningTheSame(values: seq<PolicyValue>, i: nat, v: PolicyValue)
    requires i < |values| && values[i].Read().Some? && v.Read().Some?
    requires Flattened(values[i].Read().value) == Flattened(v.Read().value)
    ensures Running(values[i := v]) == Running(values)
  {
    var n := |values| - 1;
    if i < n {
      assert values[i := v][..n] == values[..n][i := v] && values[i := v][n] == values[n];
      RunningTheSame(values[..n], i, v);
    } else {
      assert values[i := v][..n] == values[..n];
      var p := values[i].Read().value;
      assert forall merged :: AbsorbValue(merged, v) == AbsorbValue(merged, values[i]);
    }
  }

  /** The inputs with another policy in force for the operation at input `i`. */
  function Swapped(values: seq<PolicyValue>, i: nat, operation: string, q: Policy): seq<PolicyValue>
    requires i < |values| && values[i].Read().Some?
  {
    values[i := Parsed(Rewired(values[i].Read().value, operation, q))]
  }

  /** For an operation that a policy overrides twice, the evaluator follows the inner override and the
      merge does not see it: whatever policy is in force there, the merge is the same. So it is safe
      whatever is in force if and only if it denies. */
  lemma InnerOverrideIsIgnored(values: seq<PolicyValue>, i: nat, operation: string)
    requires AllValid(values) && i < |values| && values[i].Read().Some? && Merged(values).Ok?
    requires !ShallowFor(values[i].Read().value, operation)
    ensures forall q: Policy :: WellFormed(q) && q.overrides == [] ==>
              var others := Swapped(values, i, operation, q);
              AllValid(others) && Merged(others) == Merged(values)
              && ForOperation(others[i].Read().value, operation) == q
    ensures (forall q: Policy :: WellFormed(q) && q.overrides == [] ==> NoLooser(q, Merged(values).value))
            <==> Merged(values).value.decision == Deny
  {
    forall q: Policy | WellFormed(q) && q.overrides == []
      ensures var others := Swapped(values, i, operation, q);
              AllValid(others) && Merged(others) == Merged(values)
              && ForOperation(others[i].Read().value, operation) == q
    {
      SwappedMerges(values, i, operation, q);
    }
    assert WellFormed(DENIED);
  }

  const DENIED := Policy(Deny, [], [])

  lemma SwappedMerges(values: seq<PolicyValue>, i: nat, operation: string, q: Policy)
    requires AllValid(values) && i < |values| && values[i].Read().Some? && WellFormed(q) && q.overrides == []
    requires !ShallowFor(values[i].Read().value, operation)
    ensures var others := Swapped(values, i, operation, q);
            AllValid(others) && Merged(others) == Merged(values) && ForOperation(others[i].Read().value, operation) == q
  {
    var p, others := values[i].Read().value, Swapped(values, i, operation, q);
    assert values[i] in values;
    ReadIsWellFormed(values[i]);
    RewiredIsWellFormed(p, operation, q);
    RewiredInForce(p, operation, q);
    RewiredFlattensTheSame(p, operation, q);
    RunningTheSame(values, i, Parsed(Rewired(p, operation, q)));
    assert forall v :: v in others ==> v in values || v == others[i];
  }

  // ---------------------------------------------------------------- order

  lemma {:induction false} SmallerSet<T>(a: set<T>, b: set<T>)
    requires a <= b
    ensures |a| <= |b|
  {
    if a != {} {
      var x :| x in a;
      SmallerSet(a - {x}, b - {x});
    }
  }

  lemma SmallerView(a: Effect, b: Effect)
    requires a.Proper() && b.Proper() && Below(a, b) && b.decision != Deny
    ensures |a.view| <= |b.view|
  {
    assert a.view.Keys <= b.view.Keys;
    SmallerSet(a.view.Keys, b.view.Keys);
    assert |a.view| == |a.view.Keys| && |b.view| == |b.view.Keys|;
  }

  /** Unless something denies, whether the merge succeeds depends on its result alone: at most
      twenty audiences. */
  lemma SucceedsByResult(values: seq<PolicyValue>)
    requires AllValid(values) && LayersOf(values) != [] && Sup(NOTHING, LayersOf(values)).decision != Deny
    ensures Merged(values).Ok? <==> |Sup(NOTHING, LayersOf(values)).view| <= 20
  {
    MergeIsJoin(values);
    if Fits(values) { LastFits(values); }
    if |Sup(NOTHING, LayersOf(values)).view| <= MAX_GATES {
      LayersOfAreProper(values);
      SmallEnough(values, LayersOf(values));
    }
  }

  /** Parts of a small join fit. */
  lemma {:induction false} SmallEnough(values: seq<PolicyValue>, all: seq<Effect>)
    requires all != [] && AllProper(all) && Sup(NOTHING, all).decision != Deny
    requires |Sup(NOTHING, all).view| <= MAX_GATES && forall e :: e in LayersOf(values) ==> e in all
    ensures Fits(values)
  {
    if values != [] {
      var n := |values| - 1;
      SmallEnough(values[..n], all);
      if values[n].Read().Some? {
        var p := values[n].Read().value;
        LayersAreProper(p, |p.overrides|);
        PartIsSmaller(AllLayers(p), all);
        PartIsSmaller(LayersOf(values), all);
      }
    }
  }

  lemma {:induction false} LastFits(values: seq<PolicyValue>)
    requires Fits(values) && LayersOf(values) != []
    ensures |Sup(NOTHING, LayersOf(values)).view| <= MAX_GATES
  {
    var n := |values| - 1;
    if values[n].Read().None? {
      assert LayersOf(values) == LayersOf(values[..n]);
      LastFits(values[..n]);
    }
  }

  lemma PartIsSmaller(part: seq<Effect>, all: seq<Effect>)
    requires part != [] && all != [] && AllProper(all) && Sup(NOTHING, all).decision != Deny
    requires forall e :: e in part ==> e in all
    ensures |Sup(NOTHING, part).view| <= |Sup(NOTHING, all).view|
  {
    assert part[0] in all;
    SupIsLeast(NOTHING, all, all[0]);
    SupIsLeast(NOTHING, part, Sup(NOTHING, all));
    SmallerView(Sup(NOTHING, part), Sup(NOTHING, all));
  }

  lemma {:induction false} LayersListed(values: seq<PolicyValue>, e: Effect)
    ensures e in LayersOf(values) <==> exists v :: v in values && v.Read().Some? && e in AllLayers(v.Read().value)
  {
    LayersOfAreProper(values);
    if values != [] {
      LayersListed(values[..|values| - 1], e);
    }
  }

  lemma SameEmptiness(a: seq<Effect>, b: seq<Effect>)
    requires forall e :: e in a <==> e in b
    ensures a == [] <==> b == []
  {
    assert a != [] ==> a[0] in b;
    assert b != [] ==> b[0] in a;
  }

  lemma PolicyHasLayers(values: seq<PolicyValue>, v: PolicyValue)
    requires v in values && v.Read().Some?
    ensures LayersOf(values) != []
  {
    var p := v.Read().value;
    LayersOfAreProper(values);
    LayersAreProper(p, |p.overrides|);
    assert EffectOf(p) in LayersOf(values);
  }

  lemma {:induction false} NobodyToAsk(values: seq<PolicyValue>)
    requires LayersOf(values) == []
    ensures Fits(values)
  {
    if values != [] {
      NobodyToAsk(values[..|values| - 1]);
      if values[|values| - 1].Read().Some? { PolicyHasLayers(values, values[|values| - 1]); }
    }
  }

  /** Order and repetition do not matter to the merged effect; and unless something denies, they do
      not matter to whether the merge succeeds. */
  lemma OrderDoesNotMatter(a: seq<PolicyValue>, b: seq<PolicyValue>)
    requires AllValid(a) && AllValid(b) && forall v :: v in a <==> v in b
    ensures Merged(a).Ok? && Merged(b).Ok? ==> EffectOf(Merged(a).value) == EffectOf(Merged(b).value)
    ensures Merged(a).Ok? && EffectOf(Merged(a).value).decision != Deny ==> Merged(b).Ok?
  {
    MergeIsJoin(a);
    MergeIsJoin(b);
    LayersOfAreProper(a);
    LayersOfAreProper(b);
    forall e
      ensures e in LayersOf(a) <==> e in LayersOf(b)
    {
      LayersListed(a, e);
      LayersListed(b, e);
    }
    SameEmptiness(LayersOf(a), LayersOf(b));
    if LayersOf(a) == [] {
      NobodyToAsk(b);
    } else {
      assert LayersOf(a)[0] in LayersOf(b);
      SupByContents(NOTHING, LayersOf(a), LayersOf(b));
      if Sup(NOTHING, LayersOf(a)).decision != Deny {
        SucceedsByResult(a);
        SucceedsByResult(b);
      }
    }
  }

  function Crowd(from: nat, n: nat): seq<Gate> {
    seq(n, i requires 0 <= i < n => Gate(User, [seq(from + i, _ => 'u')], [], false))
  }

  lemma CrowdSize(from: nat, n: nat)
    ensures OnePerAudience(Crowd(from, n)) && |View(Crowd(from, n))| == n
  {
    var gates := Crowd(from, n);
    forall i, j | 0 <= i < j < n
      ensures gates[i].Audience() != gates[j].Audience()
    {
      var a, b := gates[i].users[0], gates[j].users[0];
      assert |a| != |b| && a in gates[i].Audience().1;
    }
    CountByAudience(gates);
  }

  lemma CrowdPolicy(from: nat)
    ensures var p := Policy(RequireApproval, Crowd(from, 11), []);
            && WellFormed(p) && Flattened(p) == Ok(p) && AllLayers(p) == [Effect(RequireApproval, View(Crowd(from, 11)))]
  {
    CrowdSize(from, 11);
    DedupeKept(Crowd(from, 11));
  }

  lemma RunningPush(values: seq<PolicyValue>, v: PolicyValue)
    requires Running(values).Ok?
    ensures Running(values + [v]) == AbsorbValue(Running(values).value, v)
  {
    assert (values + [v])[..|values|] == values;
  }

  lemma RunningOne(v: PolicyValue)
    ensures Running([v]) == AbsorbValue(None, v)
  {
    assert [] + [v] == [v];
    RunningPush([], v);
  }

  lemma CrowdsThenDenial(p: Policy, q: Policy)
    requires Flattened(p) == Ok(p) && Flattened(q) == Ok(q) && Absorb(Some(p), q).TooManyGates?
    ensures Merged([Parsed(p), Parsed(q), Parsed(DENIED)]).TooManyGates?
  {
    var values := [Parsed(p), Parsed(q), Parsed(DENIED)];
    RunningOne(Parsed(p));
    RunningPush([Parsed(p)], Parsed(q));
    assert values[..2] == [Parsed(p)] + [Parsed(q)];
    FailureStays(values, 2);
  }

  lemma DenialThenCrowds(p: Policy, q: Policy)
    requires Flattened(p) == Ok(p) && Flattened(q) == Ok(q)
    ensures Merged([Parsed(DENIED), Parsed(p), Parsed(q)]) == Ok(DENIED)
  {
    var d := Parsed(DENIED);
    assert Flattened(DENIED) == Ok(DENIED);
    RunningOne(d);
    RunningPush([d], Parsed(p));
    RunningPush([d] + [Parsed(p)], Parsed(q));
    assert [d] + [Parsed(p)] + [Parsed(q)] == [d, Parsed(p), Parsed(q)];
  }

  function CrowdOf(from: nat): PolicyValue {
    Parsed(Policy(RequireApproval, Crowd(from, 11), []))
  }

  lemma DenialDecides(p: Policy, q: Policy)
    requires Flattened(p) == Ok(p) && Flattened(q) == Ok(q) && Absorb(Some(p), q).TooManyGates?
    ensures Merged([Parsed(p), Parsed(q), Parsed(DENIED)]).TooManyGates?
    ensures Merged([Parsed(DENIED), Parsed(p), Parsed(q)]) == Ok(DENIED)
  {
    CrowdsThenDenial(p, q);
    DenialThenCrowds(p, q);
  }

  lemma ViewOfMerged(a: seq<Gate>, b: seq<Gate>)
    ensures View(MergedGates(a, b)) == View(a + b)
  {
    MergedGatesEnforceBoth(a, b);
    ViewOfSum(a, b);
  }

  lemma CrowdsCollide()
    ensures Absorb(Some(CrowdOf(0).policy), CrowdOf(11).policy).TooManyGates?
  {
    ViewOfMerged(Crowd(0, 11), Crowd(11, 11));
    CrowdsAdd();
    CrowdSize(0, 22);
    TooManyAudiences(MergedGates(Crowd(0, 11), Crowd(11, 11)));
  }

  lemma CrowdsAdd()
    ensures Crowd(0, 11) + Crowd(11, 11) == Crowd(0, 22)
  {
  }

  lemma TooManyAudiences(gates: seq<Gate>)
    requires |View(gates)| > MAX_GATES
    ensures NewPolicy(RequireApproval, gates).TooManyGates?
  {
    DedupeEnforcesTheSame(gates);
    CountByAudience(Dedupe(gates));
  }

  /** With a denial the order decides whether the merge succeeds: two crowds of eleven are too many
      if they meet before the denial drops all gates, and no problem after it. */
  lemma DenialFirstSucceeds()
    ensures Merged([CrowdOf(0), CrowdOf(11), Parsed(DENIED)]).TooManyGates?
    ensures Merged([Parsed(DENIED), CrowdOf(0), CrowdOf(11)]) == Ok(DENIED)
  {
    CrowdPolicy(0);
    CrowdPolicy(11);
    CrowdsCollide();
    DenialDecides(CrowdOf(0).policy, CrowdOf(11).policy);
  }

  // ---------------------------------------------------------------- one by one

  /** What the migration does: every legacy policy is flattened and merged into the target in turn. */
  function OneByOne(target: PolicyValue, legacies: seq<PolicyValue>): Result<PolicyValue> {
    if legacies == [] then Ok(target)
    else
      match OneByOne(target, legacies[..|legacies| - 1])
      case Ok(current) => MergeInto(current, legacies[|legacies| - 1])
      case failure => failure
  }

  function AsValue(r: Result<Policy>): Result<PolicyValue> {
    match r
    case Ok(p) => Ok(Parsed(p))
    case TooManyGates => TooManyGates
    case GatesWithoutApproval => GatesWithoutApproval
  }

  function MergeInto(target: PolicyValue, legacy: PolicyValue): Result<PolicyValue> {
    match FlattenValue(legacy)
    case Ok(flat) => AsValue(Merged([target, flat]))
    case failure => failure
  }

  /** A legacy definition without a policy takes part with the default. */
  function Present(v: PolicyValue): PolicyValue {
    if v.Read().None? then Empty else v
  }

  function AllPresent(values: seq<PolicyValue>): seq<PolicyValue> {
    seq(|values|, i requires 0 <= i < |values| => Present(values[i]))
  }

  lemma LayersOfPush(values: seq<PolicyValue>, v: PolicyValue)
    ensures LayersOf(values + [v]) == LayersOf(values) + (if v.Read().None? then [] else AllLayers(v.Read().value))
  {
    assert (values + [v])[..|values|] == values;
  }

  lemma SupCollapse(layers: seq<Effect>, more: seq<Effect>)
    requires more != [] && AllProper(layers + more)
    ensures Sup(NOTHING, layers + [Sup(NOTHING, more)]) == Sup(NOTHING, layers + more)
    ensures AllProper(layers + [Sup(NOTHING, more)])
  {
    assert AllProper(layers) && AllProper(more);
    SupIsLeast(NOTHING, more, more[0]);
    if layers == [] {
      assert layers + more == more && layers + [Sup(NOTHING, more)] == [Sup(NOTHING, more)];
    } else {
      SupAppend(NOTHING, layers, more);
      SupAppend(NOTHING, layers, [Sup(NOTHING, more)]);
    }
  }

  /** A flattened value has one layer, the join of those it had. */
  lemma FlatLayers(v: PolicyValue)
    requires v.Valid()
    ensures var layers := AllLayers(Present(v).Read().value);
            && (FlattenValue(v).Ok? <==> |Sup(NOTHING, layers).view| <= MAX_GATES)
            && (FlattenValue(v).Ok? ==>
                  var flat := FlattenValue(v).value;
                  flat.Valid() && flat.Read().Some? && AllLayers(flat.Read().value) == [Sup(NOTHING, layers)])
  {
    var p := Present(v).Read().value;
    assert WellFormed(DEFAULT_POLICY);
    FlattenJoins(p);
    if v.Read().None? {
      assert |View([CALLER_GATE])| == 1 by { CountByAudience([CALLER_GATE]); }
      assert AllLayers(DEFAULT_POLICY) == [EffectOf(DEFAULT_POLICY)];
    }
  }

  /** `r` succeeds exactly if `fits`, and then enforces the join of the layers. */
  ghost predicate JoinsIf(r: Result<Policy>, fits: bool, layers: seq<Effect>) {
    && (r.Ok? <==> fits)
    && (r.Ok? ==> JoinedSoFar(Some(r.value), layers))
  }

  ghost predicate ValueJoinsIf(r: Result<PolicyValue>, fits: bool, layers: seq<Effect>) {
    && (r.Ok? <==> fits)
    && (r.Ok? ==> r.value.Parsed? && JoinedSoFar(Some(r.value.policy), layers))
  }

  lemma AsValueJoins(r: Result<Policy>, fits: bool, flatter: seq<Effect>, all: seq<Effect>)
    requires JoinsIf(r, fits, flatter) && all != [] && Sup(NOTHING, flatter) == Sup(NOTHING, all)
    ensures ValueJoinsIf(AsValue(r), fits, all)
  {
  }

  lemma MergedOfRunning(values: seq<PolicyValue>, next: Result<Option<Policy>>)
    requires Running(values) == next && (next.Ok? ==> next.value.Some?)
    ensures Merged(values).Ok? <==> next.Ok?
    ensures next.Ok? ==> Some(Merged(values).value) == next.value
  {
  }

  lemma {:induction false} MergedPair(current: PolicyValue, layers: seq<Effect>, flat: PolicyValue)
    requires flat.Valid() && flat.Read().Some? && Running([current]).Ok?
    requires JoinedSoFar(Running([current]).value, layers) && AllProper(layers + AllLayers(flat.Read().value))
    ensures var all := layers + AllLayers(flat.Read().value);
            JoinsIf(Merged([current, flat]), FitsNext(flat, all), all)
  {
    var merged := Running([current]).value;
    AbsorbValueJoins(merged, layers, flat);
    RunningPair(current, flat);
    var all := layers + AllLayers(flat.Read().value);
    JoinedValue([current, flat], AbsorbValue(merged, flat), FitsNext(flat, all), all);
  }

  lemma RunningPair(current: PolicyValue, flat: PolicyValue)
    requires Running([current]).Ok?
    ensures Running([current, flat]) == AbsorbValue(Running([current]).value, flat)
  {
    RunningPush([current], flat);
    assert [current] + [flat] == [current, flat];
  }

  lemma JoinedValue(values: seq<PolicyValue>, next: Result<Option<Policy>>, fits: bool, all: seq<Effect>)
    requires Running(values) == next && (next.Ok? <==> fits) && all != []
    requires next.Ok? ==> JoinedSoFar(next.value, all)
    ensures JoinsIf(Merged(values), fits, all)
  {
    MergedOfRunning(values, next);
  }

  lemma {:induction false} FlatFits(v: PolicyValue, layers: seq<Effect>)
    requires v.Valid() && AllProper(layers + AllLayers(Present(v).Read().value))
    ensures var all := layers + AllLayers(Present(v).Read().value);
            && (FitsNext(Present(v), all) ==> FlattenValue(v).Ok?)
            && (FlattenValue(v).Ok? ==>
                  var flat := FlattenValue(v).value;
                  var flatter := layers + AllLayers(flat.Read().value);
                  && AllProper(flatter) && flatter != [] && all != [] && Sup(NOTHING, flatter) == Sup(NOTHING, all)
                  && (FitsNext(flat, flatter) <==> FitsNext(Present(v), all)))
  {
    var p := Present(v).Read().value;
    LayersAreProper(p, |p.overrides|);
    FlatLayers(v);
    SupCollapse(layers, AllLayers(p));
  }

  lemma {:induction false} MergeIntoStep(current: PolicyValue, layers: seq<Effect>, legacy: PolicyValue)
    requires legacy.Valid() && Running([current]).Ok?
    requires JoinedSoFar(Running([current]).value, layers)
    requires AllProper(layers + AllLayers(Present(legacy).Read().value))
    ensures var all := layers + AllLayers(Present(legacy).Read().value);
            ValueJoinsIf(MergeInto(current, legacy), FitsNext(Present(legacy), all), all)
  {
    var all := layers + AllLayers(Present(legacy).Read().value);
    FlatLayers(legacy);
    FlatFits(legacy, layers);
    if FlattenValue(legacy).Ok? {
      var flat := FlattenValue(legacy).value;
      var flatter := layers + AllLayers(flat.Read().value);
      MergedPair(current, layers, flat);
      AsValueJoins(Merged([current, flat]), FitsNext(flat, flatter), flatter, all);
    }
  }

  lemma RunningAgain(p: Policy)
    requires WellFormed(p) && p.overrides == []
    ensures Running([Parsed(p)]) == Ok(Some(p))
  {
    RunningOne(Parsed(p));
    DedupeKept(p.gates);
  }

  /** Merging legacy tools one at a time into the target is merging them all at once: it succeeds
      in the same cases and enforces the same. */
  lemma {:induction false} OneByOneIsOneMerge(target: PolicyValue, legacies: seq<PolicyValue>)
    requires target.Valid() && AllValid(legacies) && legacies != []
    ensures var all, one := [target] + AllPresent(legacies), OneByOne(target, legacies);
            && (one.Ok? <==> Merged(all).Ok?)
            && (one.Ok? ==> one.value.Parsed? && WellFormed(one.value.policy)
                            && EffectOf(one.value.policy) == EffectOf(Merged(all).value))
  {
    OneByOneJoins(target, legacies);
    var all := [target] + AllPresent(legacies);
    PresentAreValid(target, legacies);
    MergeIsJoin(all);
  }

  lemma PresentAreValid(target: PolicyValue, legacies: seq<PolicyValue>)
    requires target.Valid() && AllValid(legacies)
    ensures AllValid([target] + AllPresent(legacies))
  {
    var all := [target] + AllPresent(legacies);
    forall v | v in all
      ensures v.Valid()
    {
      var i :| 0 <= i < |all| && all[i] == v;
      if i > 0 { assert legacies[i - 1] in legacies; }
    }
  }

  /** Merging one by one gives the join of all layers, as long as every step fits. */
  ghost predicate OneByOneFits(target: PolicyValue, legacies: seq<PolicyValue>) {
    ValueJoinsIf(OneByOne(target, legacies), Fits([target] + AllPresent(legacies)), LayersOf([target] + AllPresent(legacies)))
  }

  lemma FitsPush(values: seq<PolicyValue>, v: PolicyValue)
    ensures Fits(values + [v]) <==> Fits(values) && FitsNext(v, LayersOf(values + [v]))
  {
    assert (values + [v])[..|values|] == values;
  }

  lemma OneByOnePush(target: PolicyValue, before: seq<PolicyValue>, legacy: PolicyValue)
    ensures OneByOne(target, before).Ok? ==>
              OneByOne(target, before + [legacy]) == MergeInto(OneByOne(target, before).value, legacy)
    ensures !OneByOne(target, before).Ok? ==> !OneByOne(target, before + [legacy]).Ok?
    ensures AllPresent(before + [legacy]) == AllPresent(before) + [Present(legacy)]
  {
    assert (before + [legacy])[..|before|] == before;
  }

  /** One more legacy policy, after at least one. */
  lemma OneByOneNext(target: PolicyValue, before: seq<PolicyValue>, legacy: PolicyValue)
    requires target.Valid() && AllValid(before) && legacy.Valid() && before != [] && OneByOneFits(target, before)
    ensures OneByOneFits(target, before + [legacy])
  {
    var sofar := [target] + AllPresent(before);
    OneByOnePush(target, before, legacy);
    assert [target] + AllPresent(before + [legacy]) == sofar + [Present(legacy)];
    FitsPush(sofar, Present(legacy));
    LayersOfPush(sofar, Present(legacy));
    LayersOfAreProper(sofar + [Present(legacy)]);
    if Fits(sofar) {
      var current := OneByOne(target, before).value;
      RunningAgain(current.policy);
      MergeIntoStep(current, LayersOf(sofar), legacy);
    }
  }

  /** The first legacy policy. */
  lemma OneByOneFirst(target: PolicyValue, legacy: PolicyValue)
    requires target.Valid() && legacy.Valid()
    ensures OneByOneFits(target, [legacy])
  {
    OneByOnePush(target, [], legacy);
    assert [] + [legacy] == [legacy] && AllPresent([]) == [];
    assert [target] + AllPresent([legacy]) == [target] + [Present(legacy)];
    FitsPush([target], Present(legacy));
    LayersOfPush([target], Present(legacy));
    LayersOfAreProper([target] + [Present(legacy)]);
    RunningIsJoin([target]);
    if Fits([target]) {
      MergeIntoStep(target, LayersOf([target]), legacy);
    } else {
      UnreadableTarget(target, legacy);
    }
  }

  lemma {:induction false} OneByOneJoins(target: PolicyValue, legacies: seq<PolicyValue>)
    requires target.Valid() && AllValid(legacies) && legacies != []
    ensures OneByOneFits(target, legacies)
    decreases |legacies|
  {
    var n := |legacies| - 1;
    var before, legacy := legacies[..n], legacies[n];
    assert legacy in legacies && legacies == before + [legacy];
    if n == 0 {
      assert legacies == [legacy];
      OneByOneFirst(target, legacy);
    } else {
      OneByOneJoins(target, before);
      OneByOneNext(target, before, legacy);
    }
  }

  lemma UnreadableTarget(target: PolicyValue, legacy: PolicyValue)
    requires !Running([target]).Ok?
    ensures !MergeInto(target, legacy).Ok?
  {
    if FlattenValue(legacy).Ok? {
      var both := [target, FlattenValue(legacy).value];
      assert both[..1] == [target];
      FailureStays(both, 1);
    }
  }
}
