/** What a request asks for, written out, and that the row and the plan it is frozen into hold exactly that. */
module Requests {
  import opened Options
  import opened JsonText
  import opened Registry
  import opened Lifecycle
  import opened FrozenContent
  import opened Plans

  // ----- one operation -----

  /** The reference is the id of one of this client's targets or, when no target has it as its id, a name that no other
      target has. */
  ghost predicate Refers(cfg: Config, inv: map<string, Target>, ref: string, t: Target) {
    && ref != "" && t.clientId == cfg.client.clientId
    && if ref in inv then t == inv[ref]
       else exists id :: id in inv && inv[id] == t && t.name == ref && forall k :: k in inv && inv[k].name == ref ==> k == id
  }

  /** Looking a reference up finds exactly the target it refers to. */
  lemma LooksUp(cfg: Config, inv: map<string, Target>, ref: string, t: Target)
    ensures Lifecycle.ResolveTarget(cfg, inv, ref) == Some(t) <==> Refers(cfg, inv, ref, t)
  {
    if ref !in inv {
      if Refers(cfg, inv, ref, t) {
        var id :| id in inv && inv[id] == t && t.name == ref && forall k :: k in inv && inv[k].name == ref ==> k == id;
        assert OnlyNamedBy(inv, ref, id);
      }
    }
  }

  /** The operation is registered and not forbidden, the policy allows it, the reference names a target of its adapter and
      kind, and it takes these parameters. */
  ghost predicate Suits(cfg: Config, inv: map<string, Target>, name: string, ref: string, params: Json, t: Target) {
    && GetOperation(name).Some? && name !in FORBIDDEN_OPERATIONS
    && var op := GetOperation(name).value;
       && (op.adapter, name) in cfg.allowed && Refers(cfg, inv, ref, t)
       && t.adapter == op.adapter && t.kind == op.targetKind && Takes(name, params)
  }

  /** The checks pass exactly for what suits, on the target referred to, and keep the meaning of the parameters. */
  lemma ChecksExactly(cfg: Config, inv: map<string, Target>, name: string, ref: string, params: Json, t: Target)
    requires IsDict(params)
    ensures var c := CheckOperation(cfg, inv, name, ref, params);
            && (c.Some? && c.value.target == t <==> Suits(cfg, inv, name, ref, params, t))
            && (c.Some? ==> Some(c.value.op) == GetOperation(name) && IsDict(c.value.clean)
                            && Mean(c.value.clean) == Mean(params))
  {
    if GetOperation(name).Some? {
      AdaptersExactly(name);
      RisksExactly(name);
      LooksUp(cfg, inv, ref, t);
      TakesExactly(name, params);
      CheckedOk(cfg, inv, name, ref, params);
    }
  }

  /** The fields of a plan, or of one of its steps, that say what is called on what. */
  ghost predicate CallsFor(name: string, params: Json, t: Target, j: Json) {
    && GetOperation(name).Some?
    && var op := GetOperation(name).value;
       && Get(j, "adapter") == Str(op.adapter) && Get(j, "operation") == Str(name) && Get(j, "executor") == Str(op.executor)
       && Get(j, "target_id") == Str(t.id) && Get(j, "target_name") == Str(t.name)
       && Get(j, "target_external_id") == Str(t.externalId) && Mean(Get(j, "parameters")) == Mean(params)
  }

  lemma StepFields(c: Checked)
    ensures var j := FrozenStep(c);
            && Get(j, "adapter") == Str(c.op.adapter) && Get(j, "operation") == Str(c.op.name)
            && Get(j, "target_id") == Str(c.target.id) && Get(j, "target_name") == Str(c.target.name)
            && Get(j, "target_external_id") == Str(c.target.externalId) && Get(j, "parameters") == c.clean
            && Get(j, "executor") == Str(c.op.executor)
  {
    var ms := FrozenStep(c).members;
    FindAt(ms, 0); FindAt(ms, 1); FindAt(ms, 2); FindAt(ms, 3); FindAt(ms, 4); FindAt(ms, 5); FindAt(ms, 6);
  }

  /** A frozen step says what was requested. */
  ghost predicate StepAsked(cfg: Config, inv: map<string, Target>, step: StepRequest, j: Json) {
    exists t: Target :: Suits(cfg, inv, step.operation, step.target, step.parameters, t)
                        && CallsFor(step.operation, step.parameters, t, j)
  }

  lemma CheckedStep(cfg: Config, inv: map<string, Target>, step: StepRequest, c: Checked)
    requires IsDict(step.parameters)
    requires CheckOperation(cfg, inv, step.operation, step.target, step.parameters) == Some(c)
    ensures StepAsked(cfg, inv, step, FrozenStep(c)) && c.op.name == step.operation
  {
    ChecksExactly(cfg, inv, step.operation, step.target, step.parameters, c.target);
    AdaptersExactly(step.operation);
    StepFields(c);
    assert CallsFor(step.operation, step.parameters, c.target, FrozenStep(c));
  }

  // ----- the steps of a plan -----

  predicate ChecksAs(cfg: Config, inv: map<string, Target>, step: StepRequest, c: Checked) {
    CheckOperation(cfg, inv, step.operation, step.target, step.parameters) == Some(c)
  }

  predicate AllCheck(cfg: Config, inv: map<string, Target>, steps: seq<StepRequest>, cs: seq<Checked>) {
    |cs| == |steps| && forall i :: 0 <= i < |steps| ==> ChecksAs(cfg, inv, steps[i], cs[i])
  }

  lemma LastChecks(cfg: Config, inv: map<string, Target>, steps: seq<StepRequest>, cs: seq<Checked>)
    returns (init: seq<Checked>, c: Checked)
    requires steps != [] && CheckSteps(cfg, inv, steps) == Some(cs)
    ensures cs == init + [c] && CheckSteps(cfg, inv, steps[..|steps| - 1]) == Some(init)
    ensures ChecksAs(cfg, inv, steps[|steps| - 1], c)
  {
    assert CheckSteps(cfg, inv, steps) == CheckLast(cfg, inv, steps);
    init, c := cs[..|cs| - 1], cs[|cs| - 1];
  }

  lemma AddCheck(cfg: Config, inv: map<string, Target>, steps: seq<StepRequest>, cs: seq<Checked>, c: Checked)
    requires steps != [] && AllCheck(cfg, inv, steps[..|steps| - 1], cs) && ChecksAs(cfg, inv, steps[|steps| - 1], c)
    ensures AllCheck(cfg, inv, steps, cs + [c])
  {
    forall i | 0 <= i < |steps| ensures ChecksAs(cfg, inv, steps[i], (cs + [c])[i]) {
      if i < |cs| { assert steps[..|steps| - 1][i] == steps[i]; }
    }
  }

  lemma {:induction false} StepChecks(cfg: Config, inv: map<string, Target>, steps: seq<StepRequest>, cs: seq<Checked>)
    requires CheckSteps(cfg, inv, steps) == Some(cs)
    ensures AllCheck(cfg, inv, steps, cs)
    decreases |steps|
  {
    if steps == [] {
    } else {
      var init, c := LastChecks(cfg, inv, steps, cs);
      StepChecks(cfg, inv, steps[..|steps| - 1], init);
      AddCheck(cfg, inv, steps, init, c);
    }
  }

  /** A list of steps checks out as soon as each of them does. */
  lemma {:induction false} EachChecks(cfg: Config, inv: map<string, Target>, steps: seq<StepRequest>)
    requires forall i :: 0 <= i < |steps| ==>
               CheckOperation(cfg, inv, steps[i].operation, steps[i].target, steps[i].parameters).Some?
    ensures CheckSteps(cfg, inv, steps).Some?
    decreases |steps|
  {
    if steps == [] {
    } else {
      var n := |steps| - 1;
      assert CheckSteps(cfg, inv, steps) == CheckLast(cfg, inv, steps);
      forall i | 0 <= i < n
        ensures var st := steps[..n][i]; CheckOperation(cfg, inv, st.operation, st.target, st.parameters).Some?
      {
        assert steps[..n][i] == steps[i];
      }
      EachChecks(cfg, inv, steps[..n]);
    }
  }

  lemma {:induction false} FrozenAt(cs: seq<Checked>, i: nat)
    ensures |FrozenSteps(cs)| == |cs|
    ensures i < |cs| ==> FrozenSteps(cs)[i] == FrozenStep(cs[i])
  {
    if cs == [] {
    } else {
      FrozenAt(cs[..|cs| - 1], i);
    }
  }

  /** The risk of a plan is HIGH as soon as one step's is, else DISRUPTIVE as soon as one step's is, else LOW. */
  ghost predicate RiskOfSteps(steps: seq<StepRequest>, r: Risk) {
    var high := exists i :: 0 <= i < |steps| && steps[i].operation in HIGH_OPERATIONS;
    var disruptive := exists i :: 0 <= i < |steps| && steps[i].operation in DISRUPTIVE_OPERATIONS;
    r == if high then HIGH else if disruptive then DISRUPTIVE else LOW
  }

  /** One for one, the frozen steps say what was requested. */
  ghost predicate StepsAsked(cfg: Config, inv: map<string, Target>, steps: seq<StepRequest>, frozen: seq<Json>) {
    |frozen| == |steps| && forall i :: 0 <= i < |steps| ==> StepAsked(cfg, inv, steps[i], frozen[i])
  }

  lemma CheckedSteps(cfg: Config, inv: map<string, Target>, steps: seq<StepRequest>, cs: seq<Checked>)
    requires AllDicts(steps) && CheckSteps(cfg, inv, steps) == Some(cs)
    ensures StepsAsked(cfg, inv, steps, FrozenSteps(cs))
    ensures |cs| == |steps| && forall i :: 0 <= i < |steps| ==> Some(cs[i].op) == GetOperation(steps[i].operation)
    ensures forall i :: 0 <= i < |steps| ==> cs[i].op.risk != FORBIDDEN
  {
    StepChecks(cfg, inv, steps, cs);
    FrozenAt(cs, 0);
    forall i | 0 <= i < |steps|
      ensures StepAsked(cfg, inv, steps[i], FrozenSteps(cs)[i])
      ensures Some(cs[i].op) == GetOperation(steps[i].operation) && cs[i].op.risk != FORBIDDEN
    {
      assert ChecksAs(cfg, inv, steps[i], cs[i]);
      FrozenAt(cs, i);
      CheckedStep(cfg, inv, steps[i], cs[i]);
      ChecksExactly(cfg, inv, steps[i].operation, steps[i].target, steps[i].parameters, cs[i].target);
      RisksExactly(steps[i].operation);
    }
  }

  lemma {:induction false} FoldedRisk(steps: seq<StepRequest>, cs: seq<Checked>)
    requires |cs| == |steps| && forall i :: 0 <= i < |steps| ==> Some(cs[i].op) == GetOperation(steps[i].operation)
    requires forall i :: 0 <= i < |steps| ==> cs[i].op.risk != FORBIDDEN
    ensures RiskOfSteps(steps, FoldRisk(cs))
  {
    FoldRiskIsMaximum(cs);
    forall i | 0 <= i < |steps|
      ensures steps[i].operation in HIGH_OPERATIONS <==> cs[i].op.risk == HIGH
      ensures steps[i].operation in DISRUPTIVE_OPERATIONS <==> cs[i].op.risk == DISRUPTIVE
    {
      RisksExactly(steps[i].operation);
    }
    if FoldRisk(cs) != LOW {
      var i :| 0 <= i < |cs| && cs[i].op.risk == FoldRisk(cs);
      assert steps[i].operation in HIGH_OPERATIONS || steps[i].operation in DISRUPTIVE_OPERATIONS;
    }
  }

  // ----- what is frozen -----

  /** The columns of a row that name its operation and its target. */
  predicate NamesCall(f: Frozen, adapter: string, operation: string, t: Target) {
    f.adapter == adapter && f.operation == operation && f.targetId == t.id && f.targetName == t.name
  }

  /** One operation: columns and plan name it and its target, its parameters mean what was asked, and it has the risk and
      the confirmation its name has. */
  ghost predicate OperationFrozen(name: string, params: Json, t: Target, f: Frozen, plan: Json) {
    && CallsFor(name, params, t, plan) && NamesCall(f, GetOperation(name).value.adapter, name, t)
    && Mean(f.parameters) == Mean(params) && Get(plan, "timeout_seconds") == Int(600)
    && !Has(plan, "steps") && !Has(plan, "script") && !Has(plan, "ai_declared")
    && f.risk == (if name in HIGH_OPERATIONS then HIGH else if name in DISRUPTIVE_OPERATIONS then DISRUPTIVE else LOW)
    && f.confirmation == (if name == "vm.stop" || name == "ct.stop" then "STOP " + t.name
                          else if name == "mock.halt" then "HALT " + t.name else "")
  }

  /** A plan: its steps are those asked for, it stands under the target of the first one, and a HIGH one asks for the
      phrase of plans. */
  ghost predicate PlanFrozen(cfg: Config, inv: map<string, Target>, steps: seq<StepRequest>, declared: Json, t: Target,
                             f: Frozen, plan: Json)
  {
    && 1 <= |steps| <= cfg.maxSteps && StepsAsked(cfg, inv, steps, Steps(plan)) && RiskOfSteps(steps, f.risk)
    && Refers(cfg, inv, Text(Get(Steps(plan)[0], "target_id")), t) && NamesCall(f, t.adapter, "plan.run", t)
    && f.parameters == Obj([]) && Get(plan, "executor") == Str("run_plan") && Get(plan, "timeout_seconds") == Int(600)
    && Get(plan, "ai_declared") == declared && !Has(plan, "script")
    && f.confirmation == (if f.risk == HIGH then "APPROVE PLAN " + t.name else "")
  }

  /** A script: always HIGH, with its own text, timeout and declared purpose. */
  ghost predicate ScriptFrozen(cfg: Config, script: Json, timeout: int, declared: Json, t: Target, f: Frozen, plan: Json) {
    && t.adapter in cfg.adapters && NamesCall(f, t.adapter, "script.run", t) && f.parameters == Obj([])
    && f.risk == HIGH && f.confirmation == "APPROVE " + t.name
    && Get(plan, "executor") == Str("run_script") && Get(plan, "timeout_seconds") == Int(timeout)
    && Get(plan, "script") == script && Get(plan, "ai_declared") == declared && !Has(plan, "steps")
  }

  /** The row's columns and its plan are what the request asked for, on the target it referred to, in the name of the user
      who asked. */
  ghost predicate AskedOf(cfg: Config, inv: map<string, Target>, req: Request, t: Target, f: Frozen, plan: Json) {
    && f.requestUid == req.actor.uid && f.clientId == cfg.client.clientId && ColumnsMatch(f, plan)
    && match req
       case Propose(_, _, name, ref, params) =>
         Suits(cfg, inv, name, ref, params, t) && t.adapter in cfg.adapters && OperationFrozen(name, params, t, f, plan)
       case ProposePlan(_, _, steps, declared) => PlanFrozen(cfg, inv, steps, declared, t, f, plan)
       case ProposeScript(_, _, ref, script, timeout, declared) =>
         Refers(cfg, inv, ref, t) && ScriptFrozen(cfg, script, timeout, declared, t, f, plan)
       case _ => false
  }

  /** What the plan of a draft holds. */
  ghost predicate PlanHolds(plan: Json, d: Draft) {
    && IsDict(plan) && Get(plan, "adapter") == Str(d.adapter) && Get(plan, "operation") == Str(d.operation)
    && Get(plan, "target_id") == Str(d.target.id) && Get(plan, "target_name") == Str(d.target.name)
    && Get(plan, "target_external_id") == Str(d.target.externalId) && Get(plan, "parameters") == d.parameters
    && Get(plan, "executor") == Str(d.executor) && Get(plan, "timeout_seconds") == Int(d.timeout)
    && (d.steps.Some? ==> Get(plan, "steps") == d.steps.value) && (Has(plan, "steps") <==> d.steps.Some?)
    && (d.script.Some? ==> Get(plan, "script") == d.script.value) && (Has(plan, "script") <==> d.script.Some?)
    && (d.declared.Some? ==> Get(plan, "ai_declared") == d.declared.value)
    && (Has(plan, "ai_declared") <==> d.declared.Some?)
  }

  lemma FoundFields(plan: Json, cfg: Config, d: Draft, pre: Json)
    requires IsDict(plan) && plan.Obj? && NamesTarget(plan.members, d.adapter, d.operation, d.target)
    requires Carries(plan.members, d.parameters, d.executor, d.timeout, pre)
    requires Find(plan.members, "steps") == d.steps && Find(plan.members, "script") == d.script
    requires Find(plan.members, "ai_declared") == d.declared
    ensures PlanHolds(plan, d)
  {
    FoundHas(plan.members, "steps");
    FoundHas(plan.members, "script");
    FoundHas(plan.members, "ai_declared");
  }

  lemma DraftPlanHolds(cfg: Config, d: Draft, pre: Json)
    requires DraftOk(d) && IsDict(pre)
    ensures PlanHolds(DraftPlan(cfg, d, pre), d)
  {
    PlanFields(cfg.client, d.adapter, d.operation, d.target, d.parameters, d.executor, d.timeout, pre,
               d.steps, d.script, d.declared);
    FoundFields(DraftPlan(cfg, d, pre), cfg, d, pre);
  }

  lemma OperationIsFrozen(cfg: Config, inv: map<string, Target>, req: Request, d: Draft, f: Frozen, plan: Json)
    requires req.Propose? && IsDict(req.parameters) && Resolved(cfg, inv, req) == Some(d) && PlanHolds(plan, d)
    requires NamesCall(f, d.adapter, d.operation, d.target) && f.parameters == d.parameters
    requires f.risk == d.risk && f.confirmation == d.confirmation
    ensures Suits(cfg, inv, req.operation, req.target, req.parameters, d.target) && d.target.adapter in cfg.adapters
    ensures OperationFrozen(req.operation, req.parameters, d.target, f, plan)
  {
    var c := CheckOperation(cfg, inv, req.operation, req.target, req.parameters).value;
    ChecksExactly(cfg, inv, req.operation, req.target, req.parameters, c.target);
    AdaptersExactly(req.operation);
    RisksExactly(req.operation);
    PhraseExactly(req.operation, c.target.name);
    assert d == OperationDraft(c);
  }

  lemma PlanIsFrozen(cfg: Config, inv: map<string, Target>, req: Request, d: Draft, f: Frozen, plan: Json)
    requires req.ProposePlan? && AllDicts(req.steps) && Resolved(cfg, inv, req) == Some(d) && PlanHolds(plan, d)
    requires NamesCall(f, d.adapter, d.operation, d.target) && f.parameters == d.parameters
    requires f.risk == d.risk && f.confirmation == d.confirmation
    ensures PlanFrozen(cfg, inv, req.steps, req.declared, d.target, f, plan)
  {
    var cs := CheckSteps(cfg, inv, req.steps).value;
    CheckedSteps(cfg, inv, req.steps, cs);
    FoldedRisk(req.steps, cs);
    FrozenAt(cs, 0);
    StepFields(cs[0]);
    LooksUp(cfg, inv, cs[0].target.id, d.target);
  }

  lemma ScriptIsFrozen(cfg: Config, inv: map<string, Target>, req: Request, d: Draft, f: Frozen, plan: Json)
    requires req.ProposeScript? && Resolved(cfg, inv, req) == Some(d) && PlanHolds(plan, d)
    requires NamesCall(f, d.adapter, d.operation, d.target) && f.parameters == d.parameters
    requires f.risk == d.risk && f.confirmation == d.confirmation
    ensures Refers(cfg, inv, req.target, d.target)
    ensures ScriptFrozen(cfg, req.script, req.timeout, req.declared, d.target, f, plan)
  {
    LooksUp(cfg, inv, req.target, d.target);
  }

  /** What a request resolves to is frozen into a row and a plan that hold what it asked for. */
  lemma FrozenAsAsked(cfg: Config, inv: map<string, Target>, req: Request, d: Draft, pre: Json, now: int)
    requires DictRequest(req) && Resolved(cfg, inv, req) == Some(d) && IsDict(pre)
    ensures AskedOf(cfg, inv, req, d.target, NewRow(cfg, req.actor.uid, d, pre, now).frozen, DraftPlan(cfg, d, pre))
  {
    var f, plan := NewRow(cfg, req.actor.uid, d, pre, now).frozen, DraftPlan(cfg, d, pre);
    ResolvedOk(cfg, inv, req);
    DraftPlanHolds(cfg, d, pre);
    NewRowBorn(cfg, req.actor.uid, d, pre, now, 0);
    if req.Propose? { OperationIsFrozen(cfg, inv, req, d, f, plan); }
    else if req.ProposePlan? { PlanIsFrozen(cfg, inv, req, d, f, plan); }
    else { ScriptIsFrozen(cfg, inv, req, d, f, plan); }
  }

  // ----- what is accepted -----

  ghost predicate StepSuits(cfg: Config, inv: map<string, Target>, step: StepRequest, t: Target) {
    Suits(cfg, inv, step.operation, step.target, step.parameters, t)
  }

  ghost predicate Suitable(cfg: Config, inv: map<string, Target>, step: StepRequest) {
    exists t: Target :: StepSuits(cfg, inv, step, t)
  }

  ghost predicate EachSuits(cfg: Config, inv: map<string, Target>, steps: seq<StepRequest>) {
    forall i :: 0 <= i < |steps| ==> Suitable(cfg, inv, steps[i])
  }

  /** The id of a step's target refers to a target. */
  ghost predicate StandsUnder(cfg: Config, inv: map<string, Target>, step: StepRequest) {
    exists t: Target, u: Target :: StepSuits(cfg, inv, step, t) && Refers(cfg, inv, t.id, u)
  }

  /** What the broker asks of a proposal before its precheck. */
  ghost predicate Acceptable(cfg: Config, inv: map<string, Target>, req: Request) {
    match req
    case Propose(_, _, name, ref, params) =>
      exists t: Target :: Suits(cfg, inv, name, ref, params, t) && t.adapter in cfg.adapters
    case ProposePlan(_, _, steps, _) =>
      1 <= |steps| <= cfg.maxSteps && EachSuits(cfg, inv, steps) && StandsUnder(cfg, inv, steps[0])
    case ProposeScript(_, _, ref, _, _, _) => exists t: Target :: Refers(cfg, inv, ref, t) && t.adapter in cfg.adapters
    case _ => false
  }

  lemma OperationAccepted(cfg: Config, inv: map<string, Target>, req: Request)
    requires req.Propose? && IsDict(req.parameters)
    ensures Resolved(cfg, inv, req).Some? <==> Acceptable(cfg, inv, req)
  {
    var c := CheckOperation(cfg, inv, req.operation, req.target, req.parameters);
    forall t: Target
      ensures c.Some? && c.value.target == t <==> Suits(cfg, inv, req.operation, req.target, req.parameters, t)
    {
      ChecksExactly(cfg, inv, req.operation, req.target, req.parameters, t);
    }
  }

  lemma FirstRefers(cfg: Config, inv: map<string, Target>, step: StepRequest, t: Target)
    requires StepSuits(cfg, inv, step, t) && forall v: Target :: StepSuits(cfg, inv, step, v) ==> v == t
    ensures Lifecycle.ResolveTarget(cfg, inv, t.id).Some? <==> StandsUnder(cfg, inv, step)
  {
    forall u: Target ensures Lifecycle.ResolveTarget(cfg, inv, t.id) == Some(u) <==> Refers(cfg, inv, t.id, u) {
      LooksUp(cfg, inv, t.id, u);
    }
    var found := Lifecycle.ResolveTarget(cfg, inv, t.id);
    if found.Some? { assert StepSuits(cfg, inv, step, t) && Refers(cfg, inv, t.id, found.value); }
  }

  lemma PlanResolves(cfg: Config, inv: map<string, Target>, req: Request, cs: seq<Checked>)
    requires req.ProposePlan? && 1 <= |req.steps| <= cfg.maxSteps && CheckSteps(cfg, inv, req.steps) == Some(cs) && cs != []
    ensures Resolved(cfg, inv, req).Some? <==> Lifecycle.ResolveTarget(cfg, inv, cs[0].target.id).Some?
  {
  }

  lemma AllSuitable(cfg: Config, inv: map<string, Target>, req: Request)
    requires req.ProposePlan? && 1 <= |req.steps| <= cfg.maxSteps && EachSuits(cfg, inv, req.steps)
    ensures Acceptable(cfg, inv, req) <==> StandsUnder(cfg, inv, req.steps[0])
  {
  }

  lemma SuitEach(cfg: Config, inv: map<string, Target>, steps: seq<StepRequest>, cs: seq<Checked>)
    requires AllDicts(steps) && CheckSteps(cfg, inv, steps) == Some(cs)
    ensures |cs| == |steps| && forall i :: 0 <= i < |steps| ==> StepSuits(cfg, inv, steps[i], cs[i].target)
    ensures EachSuits(cfg, inv, steps)
  {
    StepChecks(cfg, inv, steps, cs);
    forall i | 0 <= i < |steps| ensures StepSuits(cfg, inv, steps[i], cs[i].target) && Suitable(cfg, inv, steps[i]) {
      assert ChecksAs(cfg, inv, steps[i], cs[i]);
      ChecksExactly(cfg, inv, steps[i].operation, steps[i].target, steps[i].parameters, cs[i].target);
      assert StepSuits(cfg, inv, steps[i], cs[i].target);
    }
  }

  lemma EachResolves(cfg: Config, inv: map<string, Target>, steps: seq<StepRequest>)
    requires AllDicts(steps) && EachSuits(cfg, inv, steps)
    ensures CheckSteps(cfg, inv, steps).Some?
  {
    forall i | 0 <= i < |steps|
      ensures CheckOperation(cfg, inv, steps[i].operation, steps[i].target, steps[i].parameters).Some?
    {
      assert Suitable(cfg, inv, steps[i]);
      var t: Target :| StepSuits(cfg, inv, steps[i], t);
      ChecksExactly(cfg, inv, steps[i].operation, steps[i].target, steps[i].parameters, t);
    }
    EachChecks(cfg, inv, steps);
  }

  lemma PlanAccepted(cfg: Config, inv: map<string, Target>, req: Request, cs: seq<Checked>)
    requires req.ProposePlan? && AllDicts(req.steps) && 1 <= |req.steps| <= cfg.maxSteps
    requires CheckSteps(cfg, inv, req.steps) == Some(cs)
    ensures Resolved(cfg, inv, req).Some? <==> Acceptable(cfg, inv, req)
  {
    var steps := req.steps;
    SuitEach(cfg, inv, steps, cs);
    forall t: Target | StepSuits(cfg, inv, steps[0], t) ensures t == cs[0].target {
      ChecksExactly(cfg, inv, steps[0].operation, steps[0].target, steps[0].parameters, t);
      ChecksExactly(cfg, inv, steps[0].operation, steps[0].target, steps[0].parameters, cs[0].target);
    }
    FirstRefers(cfg, inv, steps[0], cs[0].target);
    PlanResolves(cfg, inv, req, cs);
    AllSuitable(cfg, inv, req);
  }

  lemma PlanUnchecked(cfg: Config, inv: map<string, Target>, req: Request)
    requires req.ProposePlan? && AllDicts(req.steps) && CheckSteps(cfg, inv, req.steps) == None
    ensures !Acceptable(cfg, inv, req)
  {
    if EachSuits(cfg, inv, req.steps) { EachResolves(cfg, inv, req.steps); }
  }

  lemma ScriptAccepted(cfg: Config, inv: map<string, Target>, req: Request)
    requires req.ProposeScript?
    ensures Resolved(cfg, inv, req).Some? <==> Acceptable(cfg, inv, req)
  {
    forall t: Target ensures Lifecycle.ResolveTarget(cfg, inv, req.target) == Some(t) <==> Refers(cfg, inv, req.target, t) {
      LooksUp(cfg, inv, req.target, t);
    }
  }

  /** A request resolves exactly when it is acceptable. */
  lemma AcceptedExactly(cfg: Config, inv: map<string, Target>, req: Request)
    requires DictRequest(req) && (req.Propose? || req.ProposePlan? || req.ProposeScript?)
    ensures Resolved(cfg, inv, req).Some? <==> Acceptable(cfg, inv, req)
  {
    if req.Propose? { OperationAccepted(cfg, inv, req); }
    else if req.ProposeScript? { ScriptAccepted(cfg, inv, req); }
    else if 1 <= |req.steps| <= cfg.maxSteps {
      var cs := CheckSteps(cfg, inv, req.steps);
      if cs.Some? { PlanAccepted(cfg, inv, req, cs.value); } else { PlanUnchecked(cfg, inv, req); }
    }
  }

  /** The row holds a plan and columns that are what the request asked for. */
  ghost predicate RowAsked(cfg: Config, inv: map<string, Target>, req: Request, row: Row) {
    exists t: Target, plan: Json ::
      AskedOf(cfg, inv, req, t, row.frozen, plan) && row.planText == Encode(plan) && row.frozen.hash == PlanHash(plan)
  }

  lemma NewRowAsked(cfg: Config, inv: map<string, Target>, req: Request, d: Draft, pre: Json, now: int)
    requires DictRequest(req) && Resolved(cfg, inv, req) == Some(d) && IsDict(pre)
    ensures RowAsked(cfg, inv, req, NewRow(cfg, req.actor.uid, d, pre, now))
  {
    FrozenAsAsked(cfg, inv, req, d, pre, now);
    var row, plan := NewRow(cfg, req.actor.uid, d, pre, now), DraftPlan(cfg, d, pre);
    assert AskedOf(cfg, inv, req, d.target, row.frozen, plan) && row.planText == Encode(plan);
  }

  /** Steps check out exactly when each of them suits, and then they are frozen as asked, with the risk of the highest. */
  lemma StepsExactly(cfg: Config, inv: map<string, Target>, steps: seq<StepRequest>)
    requires AllDicts(steps)
    ensures var cs := CheckSteps(cfg, inv, steps);
            && (cs.Some? <==> EachSuits(cfg, inv, steps))
            && (cs.Some? ==> StepsAsked(cfg, inv, steps, FrozenSteps(cs.value)) && RiskOfSteps(steps, FoldRisk(cs.value)))
  {
    var cs := CheckSteps(cfg, inv, steps);
    if cs.Some? {
      SuitEach(cfg, inv, steps, cs.value);
      CheckedSteps(cfg, inv, steps, cs.value);
      FoldedRisk(steps, cs.value);
    } else if EachSuits(cfg, inv, steps) {
      EachResolves(cfg, inv, steps);
    }
  }
}
