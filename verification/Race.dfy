/** At-most-once is not unconditional: two approvals that both read a proposal before either locks can both have the
    adapter execute it. */
module Race {
  import opened Options
  import opened JsonText
  import opened JsonProofs
  import opened Registry
  import opened Lifecycle
  import opened FrozenContent
  import opened Approvals
  import Plans
  import Turns

  /** What the first reads leave alone, as far as the calls depend on it. */
  predicate Kept(s: State, r: State, req: Request)
    requires req.Approve?
  {
    && r.mock == s.mock && r.db.inventory == s.db.inventory && req.pid in s.db.rows && req.pid in r.db.rows
    && r.db.rows[req.pid] == s.db.rows[req.pid]
  }

  lemma BeginTwo(cfg: Config, s: State, req: Request, o: Oracle) returns (r: State)
    requires s.jobs == map[] && req.Approve? && req.actor.canApprove && Executable(cfg, s.db, s.clock, req) && Answers(o)
    ensures r == Run(cfg, s, [Begin(req), Begin(req)])
    ensures At(cfg, r, s.next, req, o, Expire) && At(cfg, r, s.next + 1, req, o, Expire)
    ensures r.lock == s.lock && r.log == s.log && r.db == s.db && r.clock == s.clock && r.mock == s.mock
  {
    var one := [Begin(req)];
    assert one[..0] == [] && [Begin(req), Begin(req)][..1] == one;
    assert Run(cfg, s, one) == Next(cfg, Run(cfg, s, []), Begin(req));
    r := Next(cfg, Run(cfg, s, one), Begin(req));
  }

  lemma StillAt(cfg: Config, s: State, r: State, x: Tid, y: Tid, req: Request, o: Oracle, pc: Pc)
    requires x != y && At(cfg, s, y, req, o, pc) && Opened(s, r, x, req)
    ensures At(cfg, r, y, req, o, pc)
  {
    StillExecutable(cfg, s, r, x, req, o);
  }

  /** Both handlers have read the row and neither has locked. */
  lemma OpenBoth(cfg: Config, s: State, x: Tid, y: Tid, req: Request, o: Oracle)
    returns (r: State, q: Proposal, q': Proposal, cs: seq<Choice>)
    requires x != y && At(cfg, s, x, req, o, Expire) && At(cfg, s, y, req, o, Expire)
    requires s.db.rows[req.pid].status == PROPOSED && s.lock == None
    ensures r == Run(cfg, s, cs) && r.lock == None && Kept(s, r, req)
    ensures At(cfg, r, x, req, o, TryLock(q)) && At(cfg, r, y, req, o, TryLock(q'))
    ensures r.clock < q.row.frozen.expiresAt && r.clock < q'.row.frozen.expiresAt
    ensures CallsMade(r.log, req.pid) == CallsMade(s.log, req.pid)
  {
    var m, a, b;
    m, q, a := OpenTurns(cfg, s, x, req, o);
    StillAt(cfg, s, m, x, y, req, o, Expire);
    r, q', b := OpenTurns(cfg, m, y, req, o);
    StillAt(cfg, m, r, y, x, req, o, TryLock(q));
    RunJoin(cfg, s, a, b);
    cs := a + b;
  }

  /** Nothing but the counter of a plan's own calls moves before the second approval. */
  lemma ReadyStays(cfg: Config, s: State, r: State, x: Tid, req: Request, o: Oracle)
    requires req.Approve? && Aside(s, r, x, req.pid) && Fetch(s.db, req.pid).Some? && Ready(cfg, s, req, o) && Recallable(s.db, req.pid)
    ensures Fetch(r.db, req.pid).Some? && Ready(cfg, r, req, o) && Recallable(r.db, req.pid)
  {
  }

  lemma BothCall(cfg: Config, s: State, x: Tid, y: Tid, req: Request, o: Oracle, q: Proposal, q': Proposal)
    returns (cs: seq<Choice>)
    requires x != y && At(cfg, s, x, req, o, TryLock(q)) && At(cfg, s, y, req, o, TryLock(q')) && s.lock == None
    requires s.clock < q.row.frozen.expiresAt && s.clock < q'.row.frozen.expiresAt
    requires Ready(cfg, s, req, o) && Recallable(s.db, req.pid)
    ensures CallsMade(Run(cfg, s, cs).log, req.pid) >= CallsMade(s.log, req.pid) + 2
  {
    var s1, a := WholeApproval(cfg, s, x, req, o, q);
    ReadyStays(cfg, s, s1, x, req, o);
    var s2, b := WholeApproval(cfg, s1, y, req, o, q');
    RunJoin(cfg, s, a, b);
    cs := a + b;
  }

  /** From every state in which a proposal waits, its first call can be made and no handler is alive, two approvals can be
      interleaved so that both make their calls. Only an operation that moves the counter it is compared by is excluded. */
  lemma BothApprovalsCall(cfg: Config, s: State, req: Request, o: Oracle) returns (cs: seq<Choice>)
    requires s.jobs == map[] && s.lock == None && req.Approve? && req.actor.canApprove && Answers(o)
    requires Executable(cfg, s.db, s.clock, req) && s.db.rows[req.pid].status == PROPOSED
    requires Ready(cfg, s, req, o) && Recallable(s.db, req.pid)
    ensures CallsMade(Run(cfg, s, cs).log, req.pid) >= CallsMade(s.log, req.pid) + 2
  {
    var two := [Begin(req), Begin(req)];
    var m := BeginTwo(cfg, s, req, o);
    var r, q, q', a := OpenBoth(cfg, m, s.next, s.next + 1, req, o);
    var b := BothCall(cfg, r, s.next, s.next + 1, req, o, q, q');
    RunJoin(cfg, s, two, a);
    RunJoin(cfg, s, two + a, b);
    cs := two + a + b;
  }

  // ----- what is proposed can be called -----

  predicate Keyed(inv: map<string, Target>) { forall k :: k in inv ==> inv[k].id == k }

  predicate Listed(cfg: Config, inv: map<string, Target>, t: Target) {
    t.id in inv && inv[t.id] == t && t.clientId == cfg.client.clientId
  }

  lemma FoundThere(cfg: Config, inv: map<string, Target>, ref: string)
    requires Keyed(inv)
    ensures ResolveTarget(cfg, inv, ref).Some? ==> Listed(cfg, inv, ResolveTarget(cfg, inv, ref).value)
  {
  }

  predicate GoodStep(cfg: Config, inv: map<string, Target>, c: Checked) {
    Listed(cfg, inv, c.target) && GetOperation(c.op.name) == Some(c.op) && c.target.adapter == c.op.adapter
  }

  lemma CheckedGood(cfg: Config, inv: map<string, Target>, name: string, ref: string, parameters: Json)
    requires Keyed(inv)
    ensures var c := CheckOperation(cfg, inv, name, ref, parameters); c.Some? ==> GoodStep(cfg, inv, c.value) && c.value.op.name == name
  {
    FoundThere(cfg, inv, ref);
    OneParameter(name);
  }

  lemma {:induction false} FirstChecked(cfg: Config, inv: map<string, Target>, steps: seq<StepRequest>)
    requires steps != [] && CheckSteps(cfg, inv, steps).Some?
    ensures var cs := CheckSteps(cfg, inv, steps).value;
            && cs != []
            && CheckOperation(cfg, inv, steps[0].operation, steps[0].target, steps[0].parameters) == Some(cs[0])
  {
    var n := |steps| - 1;
    assert CheckSteps(cfg, inv, steps) == CheckLast(cfg, inv, steps);
    if n == 0 {
      assert CheckSteps(cfg, inv, steps[..n]) == Some([]);
    } else {
      FirstChecked(cfg, inv, steps[..n]);
    }
  }

  lemma StepTexts(c: Checked)
    ensures var step := FrozenStep(c);
            && Text(Get(step, "adapter")) == c.op.adapter && Text(Get(step, "operation")) == c.op.name
            && Text(Get(step, "target_id")) == c.target.id
  {
    FindAt(FrozenStep(c).members, 0); FindAt(FrozenStep(c).members, 1); FindAt(FrozenStep(c).members, 2);
  }

  /** A checked step that was frozen can be called from any copy of it. */
  lemma StepCallable(cfg: Config, inv: map<string, Target>, c: Checked, step: Json, o: Oracle)
    requires GoodStep(cfg, inv, c) && IsDict(c.clean) && c.op.adapter in cfg.adapters && o.ok
    requires IsDict(step) && Mean(step) == Mean(FrozenStep(c))
    ensures StepReady(cfg, inv, step, o)
  {
    FrozenStepDict(c);
    StepTexts(c);
    SameText(step, FrozenStep(c), "adapter");
    SameText(step, FrozenStep(c), "operation");
    SameText(step, FrozenStep(c), "target_id");
  }

  lemma FirstStepCallable(cfg: Config, inv: map<string, Target>, plan: Json, copy: Json, cs: seq<Checked>, o: Oracle)
    requires IsDict(plan) && IsDict(copy) && Mean(copy) == Mean(plan) && Get(plan, "steps") == Arr(FrozenSteps(cs))
    requires cs != [] && GoodStep(cfg, inv, cs[0]) && IsDict(cs[0].clean) && cs[0].op.adapter in cfg.adapters && o.ok
    ensures Steps(copy) != [] && StepReady(cfg, inv, Steps(copy)[0], o)
  {
    FirstFrozen(cs);
    Plans.SameSteps(copy, plan);
    Plans.MeansAt(Steps(copy), Steps(plan), 0);
    GetDict(copy, "steps");
    StepCallable(cfg, inv, cs[0], Steps(copy)[0], o);
  }

  /** The first step's adapter is there; a plan's own adapters are looked up only when it runs. */
  predicate FirstAdapterThere(cfg: Config, inv: map<string, Target>, prop: Request)
    requires prop.ProposePlan?
  {
    prop.steps != [] && GetOperation(prop.steps[0].operation).Some?
    && GetOperation(prop.steps[0].operation).value.adapter in cfg.adapters
  }

  /** A single operation whose observed state passes its own comparison: on a host as the world answers it, and for the
      mock adapter one that leaves the counter alone. */
  predicate SelfConsistent(d: Draft, o: Oracle) {
    if d.adapter == "mock" then d.operation == "mock.fail"
    else o.observed.Some? && Holds(d.adapter, o.observed.value, o.observed.value)
  }

  /** A proposal that the broker would accept now and whose first call can be made when the world answers o. */
  predicate Acceptable(cfg: Config, s: State, prop: Request, o: Oracle) {
    && Turns.IsProposal(prop) && Permitted(prop) && DictRequest(prop) && Answers(o)
    && var d := Resolved(cfg, s.db.inventory, prop);
       && d.Some? && (prop.Propose? ==> SelfConsistent(d.value, o))
       && (prop.ProposePlan? ==> FirstAdapterThere(cfg, s.db.inventory, prop))
  }

  /** What the proposal is frozen with. */
  function Seen(mock: int, prop: Request, d: Draft, o: Oracle): Json {
    if prop.ProposePlan? then Obj([])
    else match Turns.Observed(mock, d, o.observed)
      case Some(pre) => pre
      case None => Obj([])
  }

  /** A copy of the plan a draft is frozen as. */
  predicate CopyOf(cfg: Config, d: Draft, pre: Json, plan: Json) {
    IsDict(plan) && Mean(plan) == Mean(DraftPlan(cfg, d, pre))
  }

  lemma DraftPlanFields(cfg: Config, d: Draft, pre: Json)
    requires DraftOk(d) && IsDict(pre)
    ensures var plan := DraftPlan(cfg, d, pre);
            && IsDict(plan) && (d.steps.Some? ==> Get(plan, "steps") == d.steps.value) && (d.script.Some? ==> Has(plan, "script"))
  {
    PlanFields(cfg.client, d.adapter, d.operation, d.target, d.parameters, d.executor, d.timeout, pre,
               d.steps, d.script, d.declared);
    FoundHas(DraftPlan(cfg, d, pre).members, "script");
  }

  /** The row a draft becomes has these columns, whoever proposed it and when. */
  predicate RowOf(f: Frozen, d: Draft, pre: Json) {
    f.adapter == d.adapter && f.operation == d.operation && f.preState == pre && f.targetId == d.target.id
  }

  lemma OperationPasses(cfg: Config, s: State, prop: Request, o: Oracle, f: Frozen, plan: Json)
    requires prop.Propose? && Acceptable(cfg, s, prop, o)
    requires var d := Resolved(cfg, s.db.inventory, prop).value; RowOf(f, d, Seen(s.mock, prop, d, o))
    ensures Passes(cfg, s.db.inventory, s.mock, f, plan, o)
    ensures f.operation != "plan.run" && (f.adapter == "mock" ==> f.operation == "mock.fail")
  {
    OneParameter(prop.operation);
    var d := Resolved(cfg, s.db.inventory, prop).value;
    FindAt(MockState(s.mock, d.target).members, 0);
  }

  lemma ScriptPasses(cfg: Config, s: State, prop: Request, o: Oracle, f: Frozen, plan: Json)
    requires prop.ProposeScript? && Acceptable(cfg, s, prop, o)
    requires var d := Resolved(cfg, s.db.inventory, prop).value;
             RowOf(f, d, Seen(s.mock, prop, d, o)) && IsDict(Seen(s.mock, prop, d, o)) && CopyOf(cfg, d, Seen(s.mock, prop, d, o), plan)
    ensures Passes(cfg, s.db.inventory, s.mock, f, plan, o) && f.operation == "script.run"
  {
    var d := Resolved(cfg, s.db.inventory, prop).value;
    ResolvedOk(cfg, s.db.inventory, prop);
    DraftPlanFields(cfg, d, Seen(s.mock, prop, d, o));
    GetMean(plan, DraftPlan(cfg, d, Seen(s.mock, prop, d, o)), "script");
  }

  /** What a plan's draft says of its first step. */
  lemma PlanResolved(cfg: Config, inv: map<string, Target>, prop: Request) returns (cs: seq<Checked>)
    requires Keyed(inv) && prop.ProposePlan? && DictRequest(prop) && Resolved(cfg, inv, prop).Some?
    ensures var d := Resolved(cfg, inv, prop).value;
            && d.operation == "plan.run" && d.steps == Some(Arr(FrozenSteps(cs)))
            && cs != [] && GoodStep(cfg, inv, cs[0]) && IsDict(cs[0].clean) && cs[0].op.name == prop.steps[0].operation
  {
    cs := CheckSteps(cfg, inv, prop.steps).value;
    FirstChecked(cfg, inv, prop.steps);
    CheckedGood(cfg, inv, prop.steps[0].operation, prop.steps[0].target, prop.steps[0].parameters);
    CheckedOk(cfg, inv, prop.steps[0].operation, prop.steps[0].target, prop.steps[0].parameters);
  }

  lemma PlanPasses(cfg: Config, s: State, prop: Request, o: Oracle, f: Frozen, plan: Json)
    requires Keyed(s.db.inventory) && prop.ProposePlan? && Acceptable(cfg, s, prop, o)
    requires var d := Resolved(cfg, s.db.inventory, prop).value; RowOf(f, d, Obj([])) && CopyOf(cfg, d, Obj([]), plan)
    ensures Passes(cfg, s.db.inventory, s.mock, f, plan, o) && f.operation == "plan.run"
  {
    var d := Resolved(cfg, s.db.inventory, prop).value;
    ResolvedOk(cfg, s.db.inventory, prop);
    EmptyDict();
    DraftPlanFields(cfg, d, Obj([]));
    var cs := PlanResolved(cfg, s.db.inventory, prop);
    FirstStepCallable(cfg, s.db.inventory, DraftPlan(cfg, d, Obj([])), plan, cs, o);
  }

  // ----- from an empty database -----

  /** Where a handler stands that has made a draft. */
  function Drafted(prop: Request, d: Draft, at: nat): Pc { if prop.ProposePlan? then Insert(d, Obj([]), at) else Pre(d) }

  lemma Observes(g: Turns.Trace, prop: Request, d: Draft, o: Oracle, at: nat) returns (h: Turns.Trace, at': nat)
    requires Turns.Live(g, prop, Drafted(prop, d, at)) && Turns.IsProposal(prop) && DictAnswer(o)
    requires prop.Propose? ==> Turns.Observed(g.s.mock, d, o.observed).Some?
    ensures Turns.Live(h, prop, Insert(d, Seen(g.s.mock, prop, d, o), at')) && IsDict(Seen(g.s.mock, prop, d, o))
    ensures Turns.Onward(g, h, g.s.db, g.s.mock)
  {
    MockStateDict(g.s.mock, d.target);
    EmptyDict();
    if prop.ProposePlan? {
      h, at' := g, at;
    } else {
      h := Turns.PrechecksDraft(g, prop, d, o.observed);
      at' := |g.s.log|;
    }
  }

  lemma Stored(g: Turns.Trace, prop: Request, d: Draft, o: Oracle, at: nat) returns (h: Turns.Trace)
    requires Turns.Live(g, prop, Drafted(prop, d, at)) && Turns.IsProposal(prop) && DictAnswer(o)
    requires (prop.Propose? ==> Turns.Observed(g.s.mock, d, o.observed).Some?) && prop.pid !in g.s.db.rows
    ensures Turns.Between(h) && Turns.Later(g, h) && h.s.clock == g.s.clock && h.s.mock == g.s.mock
    ensures var pre := Seen(g.s.mock, prop, d, o);
            && IsDict(pre)
            && h.s.db == g.s.db.(rows := g.s.db.rows[prop.pid := NewRow(g.cfg, prop.actor.uid, d, pre, g.s.clock)])
  {
    var g1, at' := Observes(g, prop, d, o, at);
    h := Turns.Inserts(g1, prop, d, Seen(g.s.mock, prop, d, o), at');
  }

  lemma DraftMade(cfg: Config, s: State, prop: Request, d: Draft) returns (g: Turns.Trace, at: nat)
    requires Initial(s) && Turns.IsProposal(prop) && Permitted(prop) && DictRequest(prop)
    requires Resolved(cfg, s.db.inventory, prop) == Some(d)
    ensures Turns.Live(g, prop, Drafted(prop, d, at)) && g.cfg == cfg && g.start == s
    ensures g.s.db == s.db && g.s.clock == s.clock && g.s.mock == s.mock
  {
    var g0 := Turns.Starts(cfg, s);
    var g1 := Turns.Begins(g0, prop);
    var g2 := Turns.ExpiresRows(g1, prop);
    assert ExpireRows(map[], s.clock) == map[];
    g := Turns.Resolves(g2, prop);
    at := |g2.s.log|;
  }

  /** The proposal is accepted, and nothing else happens. */
  lemma Accepted(cfg: Config, s: State, prop: Request, o: Oracle) returns (g: Turns.Trace)
    requires Initial(s) && Acceptable(cfg, s, prop, o)
    ensures Turns.Between(g) && g.cfg == cfg && g.start == s && g.s.clock == s.clock && g.s.mock == s.mock
    ensures var d := Resolved(cfg, s.db.inventory, prop).value;
            && IsDict(Seen(s.mock, prop, d, o))
            && g.s.db == s.db.(rows := map[prop.pid := NewRow(cfg, prop.actor.uid, d, Seen(s.mock, prop, d, o), s.clock)])
  {
    var d := Resolved(cfg, s.db.inventory, prop).value;
    var g1, at := DraftMade(cfg, s, prop, d);
    g := Stored(g1, prop, d, o, at);
  }

  /** A draft that would be stored names a listed target, and its adapter is there unless it is a plan. */
  lemma ResolvedListed(cfg: Config, inv: map<string, Target>, prop: Request)
    requires Keyed(inv) && Turns.IsProposal(prop) && Resolved(cfg, inv, prop).Some?
    ensures Listed(cfg, inv, Resolved(cfg, inv, prop).value.target)
  {
    match prop
    case Propose(_, _, operation, target, parameters) => CheckedGood(cfg, inv, operation, target, parameters);
    case ProposePlan(_, _, steps, _) => FoundThere(cfg, inv, CheckSteps(cfg, inv, steps).value[0].target.id);
    case ProposeScript(_, _, target, _, _, _) => FoundThere(cfg, inv, target);
  }

  lemma NewIsExecutable(cfg: Config, db: Db, clock: int, req: Request, d: Draft, pre: Json, uid: int)
    requires req.Approve? && req.pid in db.rows && db.rows[req.pid] == NewRow(cfg, uid, d, pre, clock)
    requires DraftOk(d) && IsDict(pre) && cfg.ttl > 0 && (d.risk == HIGH ==> req.confirmation == d.confirmation)
    requires Listed(cfg, db.inventory, d.target)
    ensures Executable(cfg, db, clock, req) && db.rows[req.pid].status == PROPOSED
    ensures var q := Fetch(db, req.pid).value; CopyOf(cfg, d, pre, q.plan) && RowOf(q.row.frozen, d, pre)
  {
    NewRowBorn(cfg, uid, d, pre, clock, 0);
    StoredRow(db, req.pid, DraftPlan(cfg, d, pre));
    StoreRoundTrip(DraftPlan(cfg, d, pre));
  }

  lemma DraftPasses(cfg: Config, s: State, prop: Request, o: Oracle, f: Frozen, plan: Json)
    requires Keyed(s.db.inventory) && Acceptable(cfg, s, prop, o)
    requires var d := Resolved(cfg, s.db.inventory, prop).value;
             && RowOf(f, d, Seen(s.mock, prop, d, o)) && IsDict(Seen(s.mock, prop, d, o))
             && CopyOf(cfg, d, Seen(s.mock, prop, d, o), plan)
    ensures Passes(cfg, s.db.inventory, s.mock, f, plan, o)
    ensures f.operation == "plan.run" || f.operation == "script.run" || (f.adapter == "mock" ==> f.operation == "mock.fail")
  {
    if prop.Propose? { OperationPasses(cfg, s, prop, o, f, plan); }
    else if prop.ProposePlan? { PlanPasses(cfg, s, prop, o, f, plan); }
    else { ScriptPasses(cfg, s, prop, o, f, plan); }
  }

  /** After the acceptance the proposal waits and its first call can be made. */
  lemma Waits(cfg: Config, s: State, prop: Request, req: Request, o: Oracle) returns (g: Turns.Trace)
    requires Initial(s) && Keyed(s.db.inventory) && cfg.ttl > 0 && Acceptable(cfg, s, prop, o)
    requires req.Approve? && req.pid == prop.pid
    requires var d := Resolved(cfg, s.db.inventory, prop).value; d.risk == HIGH ==> req.confirmation == d.confirmation
    ensures Turns.Between(g) && g.cfg == cfg && g.start == s && g.s.clock == s.clock && g.s.mock == s.mock
    ensures g.s.db.inventory == s.db.inventory
    ensures Executable(cfg, g.s.db, g.s.clock, req) && g.s.db.rows[req.pid].status == PROPOSED
    ensures Ready(cfg, g.s, req, o) && Recallable(g.s.db, req.pid)
  {
    var d := Resolved(cfg, s.db.inventory, prop).value;
    g := Accepted(cfg, s, prop, o);
    ResolvedOk(cfg, s.db.inventory, prop);
    ResolvedListed(cfg, s.db.inventory, prop);
    NewIsExecutable(cfg, g.s.db, g.s.clock, req, d, Seen(s.mock, prop, d, o), prop.actor.uid);
    var q := Fetch(g.s.db, req.pid).value;
    DraftPasses(cfg, s, prop, o, q.row.frozen, q.plan);
  }

  lemma TwoCalls(cfg: Config, s: State, prop: Request, req: Request, o: Oracle) returns (cs: seq<Choice>)
    requires Initial(s) && Keyed(s.db.inventory) && cfg.ttl > 0 && Acceptable(cfg, s, prop, o)
    requires req.Approve? && req.actor.canApprove && req.pid == prop.pid
    requires var d := Resolved(cfg, s.db.inventory, prop).value; d.risk == HIGH ==> req.confirmation == d.confirmation
    ensures CallsMade(Run(cfg, s, cs).log, req.pid) >= 2
  {
    var g := Waits(cfg, s, prop, req, o);
    var both := BothApprovalsCall(cfg, g.s, req, o);
    Turns.ReachedIsARun(g.cfg, g.start, g.cs, g.s);
    RunJoin(cfg, s, g.cs, both);
    cs := g.cs + both;
  }

  /** The code does not execute a proposal at most once. Whatever the broker accepts, a single operation, a script or a
      plan, from an empty database there is a run in which one proposal of it is approved twice and the adapter is called
      twice, provided its first call can be made at all. Only a single operation of the mock adapter that moves the
      counter it is compared by is excluded. */
  lemma TwoApprovalsBothExecute(cfg: Config, s: State, prop: Request, req: Request, o: Oracle)
    requires Initial(s) && Keyed(s.db.inventory) && cfg.ttl > 0 && Acceptable(cfg, s, prop, o)
    requires req.Approve? && req.actor.canApprove && req.pid == prop.pid
    requires var d := Resolved(cfg, s.db.inventory, prop).value; d.risk == HIGH ==> req.confirmation == d.confirmation
    ensures exists cs :: CallsMade(Run(cfg, s, cs).log, req.pid) >= 2
  {
    var cs := TwoCalls(cfg, s, prop, req, o);
  }
}
