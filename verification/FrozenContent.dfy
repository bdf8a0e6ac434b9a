/** Frozen content: nothing the broker does changes what a proposal was frozen with, and whatever a handler executes
    means the plan that was frozen, even when the plan column is edited at any moment. */
module FrozenContent {
  import opened Options
  import opened JsonText
  import opened JsonProofs
  import opened Registry
  import opened Lifecycle
  import opened Threads

  // ----- what a new row is born with -----

  predicate DictOption(j: Option<Json>) { j.Some? ==> IsDict(j.value) }

  predicate DraftOk(d: Draft) {
    && IsDict(d.parameters) && DictOption(d.steps) && DictOption(d.script) && DictOption(d.declared)
    && (d.operation == "plan.run" ==> d.steps.Some? && d.steps.value.Arr?)
  }

  /** The row's columns are the matching fields of its plan. */
  predicate ColumnsMatch(f: Frozen, plan: Json) {
    && Get(plan, "client_id") == Str(f.clientId) && Get(plan, "adapter") == Str(f.adapter) && Get(plan, "operation") == Str(f.operation)
    && Get(plan, "target_id") == Str(f.targetId) && Get(plan, "target_name") == Str(f.targetName)
    && Get(plan, "parameters") == f.parameters && Get(plan, "preconditions") == f.preState
  }

  predicate Born(cfg: Config, f: Frozen, b: Birth) {
    && IsDict(b.plan) && PlanHash(b.plan) == f.hash && ColumnsMatch(f, b.plan)
    && f.expiresAt == f.createdAt + cfg.ttl
    && (f.operation == "plan.run" ==> Get(b.plan, "steps").Arr?)
  }

  lemma PlanGets(cfg: Config, plan: Json, d: Draft, pre: Json)
    requires plan.Obj? && NamesSite(plan.members, cfg.client) && NamesTarget(plan.members, d.adapter, d.operation, d.target)
    requires Carries(plan.members, d.parameters, d.executor, d.timeout, pre) && Find(plan.members, "steps") == d.steps
    ensures Get(plan, "client_id") == Str(cfg.client.clientId)
    ensures Get(plan, "adapter") == Str(d.adapter) && Get(plan, "operation") == Str(d.operation)
    ensures Get(plan, "target_id") == Str(d.target.id) && Get(plan, "target_name") == Str(d.target.name)
    ensures Get(plan, "parameters") == d.parameters && Get(plan, "preconditions") == pre
    ensures d.steps.Some? ==> Get(plan, "steps") == d.steps.value
  {
  }

  lemma NewRowBorn(cfg: Config, uid: int, d: Draft, pre: Json, now: int, at: nat)
    requires DraftOk(d) && IsDict(pre)
    ensures Born(cfg, NewRow(cfg, uid, d, pre, now).frozen, Birth(DraftPlan(cfg, d, pre), at))
  {
    PlanFields(cfg.client, d.adapter, d.operation, d.target, d.parameters, d.executor, d.timeout, pre,
               d.steps, d.script, d.declared);
    PlanGets(cfg, DraftPlan(cfg, d, pre), d, pre);
  }

  lemma OneParameter(name: string)
    ensures GetOperation(name).Some? ==> |GetOperation(name).value.params| <= 1
    ensures GetOperation(name).Some? ==> GetOperation(name).value.name == name
    ensures GetOperation("plan.run") == None && GetOperation("script.run") == None
  {
  }

  lemma CheckedOk(cfg: Config, inv: map<string, Target>, name: string, ref: string, parameters: Json)
    requires IsDict(parameters)
    ensures var c := CheckOperation(cfg, inv, name, ref, parameters);
            c.Some? ==> IsDict(c.value.clean) && Mean(c.value.clean) == Mean(parameters) && c.value.op.name == name
                        && name != "plan.run" && name != "script.run"
  {
    OneParameter(name);
    if GetOperation(name).Some? { CleanKeepsParameters(GetOperation(name).value, parameters); }
  }

  lemma FrozenStepDict(c: Checked)
    requires IsDict(c.clean)
    ensures IsDict(FrozenStep(c))
  {
    FieldsByIndex(FrozenStep(c).members);
  }

  lemma {:induction false} AppendDicts(a: seq<Json>, j: Json)
    requires AreDicts(a) && IsDict(j)
    ensures AreDicts(a + [j])
  {
    if a == [] {
    } else {
      AppendDicts(a[1..], j);
      assert (a + [j])[1..] == a[1..] + [j];
    }
  }

  lemma {:induction false} FirstFrozen(cs: seq<Checked>)
    requires cs != []
    ensures FrozenSteps(cs) != [] && FrozenSteps(cs)[0] == FrozenStep(cs[0])
  {
    if |cs| == 1 {
      assert FrozenSteps(cs) == [FrozenStep(cs[0])];
    } else {
      FirstFrozen(cs[..|cs| - 1]);
    }
  }

  lemma {:induction false} StepsOk(cfg: Config, inv: map<string, Target>, steps: seq<StepRequest>)
    requires AllDicts(steps)
    ensures CheckSteps(cfg, inv, steps).Some? ==> AreDicts(FrozenSteps(CheckSteps(cfg, inv, steps).value))
  {
    if steps == [] {
    } else {
      var n := |steps| - 1;
      StepsOk(cfg, inv, steps[..n]);
      CheckedOk(cfg, inv, steps[n].operation, steps[n].target, steps[n].parameters);
      assert CheckSteps(cfg, inv, steps) == CheckLast(cfg, inv, steps);
      if CheckSteps(cfg, inv, steps).Some? {
        var cs, c := CheckSteps(cfg, inv, steps[..n]).value,
                     CheckOperation(cfg, inv, steps[n].operation, steps[n].target, steps[n].parameters).value;
        assert (cs + [c])[..|cs + [c]| - 1] == cs;
        FrozenStepDict(c);
        AppendDicts(FrozenSteps(cs), FrozenStep(c));
      }
    }
  }

  lemma ResolvedOk(cfg: Config, inv: map<string, Target>, req: Request)
    requires DictRequest(req)
    ensures Resolved(cfg, inv, req).Some? ==> DraftOk(Resolved(cfg, inv, req).value)
  {
    if req.Propose? { CheckedOk(cfg, inv, req.operation, req.target, req.parameters); }
    if req.ProposePlan? { StepsOk(cfg, inv, req.steps); }
  }

  // ----- every run -----

  function Held(pc: Pc): Option<Proposal> {
    match pc
    case TryLock(p) => Some(p)
    case CheckTime(p) => Some(p)
    case Recheck(p) => Some(p)
    case FindTarget(p) => Some(p)
    case MarkExecuting(p, _) => Some(p)
    case Precheck(p, _) => Some(p)
    case Step(p, _) => Some(p)
    case Call(p, _, _) => Some(p)
    case Returning(p, _, _, _) => Some(p)
    case _ => None
  }

  predicate Rehashed(pc: Pc) { pc.Recheck? || pc.FindTarget? || pc.MarkExecuting? || Running(pc) }

  /** What a handler carries, whatever became of its row: dictionaries, and a copy whose plan has the hash of its row. */
  predicate CarryOk(j: Job) {
    && DictRequest(j.req)
    && (Held(j.pc).Some? ==> IsDict(Held(j.pc).value.plan) && (Rehashed(j.pc) ==> HashOk(Held(j.pc).value)))
    && (j.pc.Pre? || j.pc.Insert? ==> DraftOk(j.pc.d))
    && (j.pc.Insert? ==> IsDict(j.pc.pre))
  }

  /** The copy has the frozen columns its row has. */
  predicate SameColumns(rows: map<Pid, Row>, j: Job) {
    Held(j.pc).Some? ==> PidOf(j.req) in rows && Held(j.pc).value.row.frozen == rows[PidOf(j.req)].frozen
  }

  predicate CopyOk(rows: map<Pid, Row>, j: Job) { CarryOk(j) && SameColumns(rows, j) }

  /** The plan entered for execution means the plan the row was born with. */
  predicate EntryFaithful(births: map<Pid, Birth>, e: Event)
    requires e.Entered?
  {
    e.pid in births && IsDict(e.plan) && Mean(e.plan) == Mean(births[e.pid].plan)
  }

  ghost predicate FrozenInv(cfg: Config, s: State) {
    && (forall p :: p in s.births <==> p in s.db.rows)
    && (forall p :: p in s.db.rows ==> Born(cfg, s.db.rows[p].frozen, s.births[p]))
    && (forall t :: t in s.jobs ==> CopyOk(s.db.rows, s.jobs[t]))
    && (forall k :: 0 <= k < |s.log| && s.log[k].Entered? ==> EntryFaithful(s.births, s.log[k]))
  }

  /** A handler past the second hash check carries a copy of its row whose plan hashes to what the row was born with. */
  lemma HeldFacts(cfg: Config, s: State, t: Tid)
    requires FrozenInv(cfg, s) && t in s.jobs && Held(s.jobs[t].pc).Some? && Rehashed(s.jobs[t].pc)
    ensures var p, pid := Held(s.jobs[t].pc).value, PidOf(s.jobs[t].req);
            && pid in s.births && IsDict(p.plan) && HashOk(p) && Born(cfg, p.row.frozen, s.births[pid])
  {
    assert CopyOk(s.db.rows, s.jobs[t]);
  }

  /** What one step keeps of the frozen columns, the plan texts and the births. */
  ghost predicate KeepsFrozen(cfg: Config, s: State, a: Act) {
    && (forall p :: p in s.db.rows ==>
          p in a.db.rows && a.db.rows[p].frozen == s.db.rows[p].frozen && a.db.rows[p].planText == s.db.rows[p].planText)
    && (forall p :: p in s.births ==> p in a.births && a.births[p] == s.births[p])
    && (forall p :: p in a.births <==> p in a.db.rows)
    && (forall p :: p in a.db.rows && p !in s.db.rows ==>
          Born(cfg, a.db.rows[p].frozen, a.births[p]) && a.db.rows[p].planText == Encode(a.births[p].plan))
  }

  predicate NextCarry(a: Act, j: Job) { a.pc.Some? ==> CarryOk(Job(j.req, a.pc.value, a.sawAt, a.lockedAt)) }

  predicate NextColumns(rows: map<Pid, Row>, a: Act, j: Job) {
    a.pc.Some? ==> SameColumns(rows, Job(j.req, a.pc.value, a.sawAt, a.lockedAt))
  }

  predicate NextCopy(rows: map<Pid, Row>, a: Act, j: Job) { NextCarry(a, j) && NextColumns(rows, a, j) }

  lemma FetchedDict(db: Db, pid: Pid)
    ensures Fetch(db, pid).Some? ==> pid in db.rows && Fetch(db, pid).value.row == db.rows[pid] && IsDict(Fetch(db, pid).value.plan)
  {
    if Fetch(db, pid).Some? { DedupDict(ReadText(Skip(db.rows[pid].planText)).value.value); }
  }

  lemma PatchKeeps(cfg: Config, s: State, j: Job, a: Act)
    requires RowsByPatch(s, j, a) && (forall p :: p in s.births <==> p in s.db.rows)
    ensures KeepsFrozen(cfg, s, a)
  {
  }

  lemma OpeningCarry(cfg: Config, s: State, tid: Tid, j: Job, o: Oracle)
    requires j.req.Approve? && CarryOk(j) && (j.pc.Read? || j.pc.MarkTampered? || j.pc.TryLock?)
    ensures NextCarry(Opening(cfg, s, tid, j, o), j)
    ensures SameColumns(s.db.rows, j) ==> NextColumns(s.db.rows, Opening(cfg, s, tid, j, o), j)
  {
    FetchedDict(s.db, j.req.pid);
  }

  lemma LockingCarry(cfg: Config, s: State, tid: Tid, j: Job, o: Oracle)
    requires j.req.Approve? && CarryOk(j) && Holding(j.pc) && StillToEnter(j.pc)
    ensures NextCarry(Locking(cfg, s, tid, j, o), j)
    ensures SameColumns(s.db.rows, j) ==> NextColumns(s.db.rows, Locking(cfg, s, tid, j, o), j)
  {
    FetchedDict(s.db, j.req.pid);
  }

  lemma ExecutingCarry(cfg: Config, s: State, tid: Tid, j: Job, o: Oracle)
    requires j.req.Approve? && CarryOk(j) && Running(j.pc)
    ensures NextCarry(Executing(cfg, s, tid, j, o), j)
    ensures SameColumns(s.db.rows, j) ==> NextColumns(s.db.rows, Executing(cfg, s, tid, j, o), j)
  {
  }

  /** The other points carry no copy. */
  lemma PlainCarry(cfg: Config, s: State, tid: Tid, j: Job, o: Oracle)
    requires Fits(j.req, j.pc) && CarryOk(j) && !j.req.Propose? && !j.req.ProposePlan? && !j.req.ProposeScript?
    requires j.req.Approve? ==> j.pc.Expire? || j.pc.Finish? || j.pc.GetFinal? || j.pc.WriteReceipt? || j.pc.Unlock?
    ensures var a := Do(cfg, s, tid, j, o); NextCarry(a, j) && NextColumns(s.db.rows, a, j)
  {
  }

  lemma MockStateDict(n: int, t: Target)
    ensures IsDict(MockState(n, t))
  {
    FieldsByIndex(MockState(n, t).members);
  }

  lemma EmptyDict()
    ensures IsDict(Obj([]))
  {
  }

  lemma ResolveCarry(cfg: Config, s: State, j: Job, o: Oracle)
    requires j.req.Propose? || j.req.ProposePlan? || j.req.ProposeScript?
    requires j.pc.Resolve? && CarryOk(j)
    ensures NextCarry(Proposing(cfg, s, j, o), j) && NextColumns(s.db.rows, Proposing(cfg, s, j, o), j)
  {
    ResolvedOk(cfg, s.db.inventory, j.req);
    EmptyDict();
  }

  lemma PreCarry(cfg: Config, s: State, j: Job, o: Oracle)
    requires j.req.Propose? || j.req.ProposePlan? || j.req.ProposeScript?
    requires j.pc.Pre? && CarryOk(j) && DictAnswer(o)
    ensures NextCarry(Proposing(cfg, s, j, o), j) && NextColumns(s.db.rows, Proposing(cfg, s, j, o), j)
  {
    MockStateDict(s.mock, j.pc.d.target);
    EmptyDict();
  }

  lemma ProposingCarry(cfg: Config, s: State, j: Job, o: Oracle)
    requires j.req.Propose? || j.req.ProposePlan? || j.req.ProposeScript?
    requires Fits(j.req, j.pc) && !j.pc.Expire? && CarryOk(j) && DictAnswer(o)
    ensures NextCarry(Proposing(cfg, s, j, o), j) && NextColumns(s.db.rows, Proposing(cfg, s, j, o), j)
  {
    if j.pc.Resolve? { ResolveCarry(cfg, s, j, o); }
    else if j.pc.Pre? { PreCarry(cfg, s, j, o); }
  }

  lemma InsertKeeps(cfg: Config, s: State, a: Act, pid: Pid, row: Row, b: Birth)
    requires pid !in s.db.rows && a.db.rows == s.db.rows[pid := row] && a.births == s.births[pid := b]
    requires Born(cfg, row.frozen, b) && row.planText == Encode(b.plan) && (forall p :: p in s.births <==> p in s.db.rows)
    ensures KeepsFrozen(cfg, s, a)
  {
  }

  lemma ProposingKeeps(cfg: Config, s: State, j: Job, o: Oracle)
    requires j.req.Propose? || j.req.ProposePlan? || j.req.ProposeScript?
    requires CarryOk(j) && (forall p :: p in s.births <==> p in s.db.rows)
    ensures KeepsFrozen(cfg, s, Proposing(cfg, s, j, o))
  {
    var a := Proposing(cfg, s, j, o);
    if j.pc.Insert? && j.req.pid !in s.db.rows {
      NewRowBorn(cfg, j.req.actor.uid, j.pc.d, j.pc.pre, s.clock, j.pc.checkedAt);
      InsertKeeps(cfg, s, a, j.req.pid, NewRow(cfg, j.req.actor.uid, j.pc.d, j.pc.pre, s.clock),
                  Birth(DraftPlan(cfg, j.pc.d, j.pc.pre), j.pc.checkedAt));
    } else {
      assert a.db.rows == s.db.rows && a.births == s.births;
    }
  }

  lemma ExpireKeeps(cfg: Config, s: State, tid: Tid, j: Job)
    requires forall p :: p in s.births <==> p in s.db.rows
    ensures KeepsFrozen(cfg, s, ExpireAct(s, tid, j))
  {
  }

  lemma CopyTransport(rows: map<Pid, Row>, later: map<Pid, Row>, j: Job)
    requires CopyOk(rows, j) && forall p :: p in rows ==> p in later && later[p].frozen == rows[p].frozen
    ensures CopyOk(later, j)
  {
  }

  lemma DoKeeps(cfg: Config, s: State, tid: Tid, j: Job, o: Oracle)
    requires Fits(j.req, j.pc) && CarryOk(j) && (forall p :: p in s.births <==> p in s.db.rows)
    ensures KeepsFrozen(cfg, s, Do(cfg, s, tid, j, o))
  {
    if j.pc.Expire? { ExpireKeeps(cfg, s, tid, j); }
    else if j.req.Approve? || j.req.Close? {
      DoPatch(cfg, s, tid, j, o);
      PatchKeeps(cfg, s, j, Do(cfg, s, tid, j, o));
    }
    else { ProposingKeeps(cfg, s, j, o); }
  }

  /** What a handler carries stays right whatever its row says, and its copy keeps the columns of the row if it had them. */
  lemma DoCarry(cfg: Config, s: State, tid: Tid, j: Job, o: Oracle)
    requires Fits(j.req, j.pc) && CarryOk(j) && DictAnswer(o)
    ensures NextCarry(Do(cfg, s, tid, j, o), j)
    ensures SameColumns(s.db.rows, j) ==> NextColumns(s.db.rows, Do(cfg, s, tid, j, o), j)
  {
    if j.req.Approve? && (j.pc.Read? || j.pc.MarkTampered? || j.pc.TryLock?) { OpeningCarry(cfg, s, tid, j, o); }
    else if j.req.Approve? && Running(j.pc) { ExecutingCarry(cfg, s, tid, j, o); }
    else if j.req.Approve? && Holding(j.pc) && StillToEnter(j.pc) { LockingCarry(cfg, s, tid, j, o); }
    else if (j.req.Propose? || j.req.ProposePlan? || j.req.ProposeScript?) && !j.pc.Expire? { ProposingCarry(cfg, s, j, o); }
    else if j.req.Propose? || j.req.ProposePlan? || j.req.ProposeScript? { }
    else { PlainCarry(cfg, s, tid, j, o); }
  }

  lemma SameHashSameMeaning(p: Proposal, plan: Json)
    requires IsDict(p.plan) && IsDict(plan) && HashOk(p) && PlanHash(plan) == p.row.frozen.hash
    ensures Mean(p.plan) == Mean(plan)
  {
    CanonicalDecides(p.plan, plan);
  }

  lemma EntryIsFaithful(cfg: Config, s: State, j: Job, e: Event)
    requires j.req.Approve? && j.pc.MarkExecuting? && CopyOk(s.db.rows, j)
    requires j.req.pid in s.births && Born(cfg, s.db.rows[j.req.pid].frozen, s.births[j.req.pid])
    requires e.Entered? && e.pid == j.req.pid && e.plan == j.pc.p.plan
    ensures EntryFaithful(s.births, e)
  {
    SameHashSameMeaning(j.pc.p, s.births[j.req.pid].plan);
  }

  lemma ApplyFrozen(cfg: Config, s: State, tid: Tid, a: Act)
    requires FrozenInv(cfg, s) && tid in s.jobs && KeepsFrozen(cfg, s, a) && NextCopy(s.db.rows, a, s.jobs[tid])
    requires |a.events| <= 1 && (|a.events| == 1 && a.events[0].Entered? ==> EntryFaithful(s.births, a.events[0]))
    ensures FrozenInv(cfg, Apply(s, tid, a))
  {
    var r := Apply(s, tid, a);
    forall t | t in r.jobs ensures CopyOk(r.db.rows, r.jobs[t]) {
      if t == tid {
        CopyTransport(s.db.rows, r.db.rows, r.jobs[tid]);
      } else {
        CopyTransport(s.db.rows, r.db.rows, s.jobs[t]);
      }
    }
    forall k | 0 <= k < |r.log| && r.log[k].Entered? ensures EntryFaithful(r.births, r.log[k]) {
      if k < |s.log| { assert EntryFaithful(s.births, s.log[k]); }
    }
  }

  /** What any step of the system keeps of the frozen columns. */
  ghost predicate Undisturbed(s: State, r: State) {
    && (forall p :: p in s.db.rows ==> p in r.db.rows && r.db.rows[p].frozen == s.db.rows[p].frozen)
    && (forall p :: p in s.births ==> p in r.births && r.births[p] == s.births[p])
  }

  lemma FrozenGo(cfg: Config, s: State, tid: Tid, o: Oracle)
    requires LockInv(s) && HistoryInv(s) && FrozenInv(cfg, s) && tid in s.jobs && DictAnswer(o)
    ensures var a := Do(cfg, s, tid, s.jobs[tid], o); FrozenInv(cfg, Apply(s, tid, a)) && Undisturbed(s, Apply(s, tid, a))
  {
    var j := s.jobs[tid];
    var a := Do(cfg, s, tid, j, o);
    GoFullStep(cfg, s, tid, o);
    DoKeeps(cfg, s, tid, j, o);
    DoCarry(cfg, s, tid, j, o);
    if |a.events| == 1 && a.events[0].Entered? { EntryIsFaithful(cfg, s, j, a.events[0]); }
    ApplyFrozen(cfg, s, tid, a);
  }

  lemma FrozenFrame(cfg: Config, s: State, r: State)
    requires FrozenInv(cfg, s) && Frame(s, r)
    ensures FrozenInv(cfg, r) && Undisturbed(s, r)
  {
    forall t | t in r.jobs ensures CopyOk(r.db.rows, r.jobs[t]) {
      if t in s.jobs && r.jobs[t] == s.jobs[t] { CopyTransport(s.db.rows, r.db.rows, s.jobs[t]); }
    }
  }

  lemma FrozenNext(cfg: Config, s: State, c: Choice)
    requires LockInv(s) && HistoryInv(s) && FrozenInv(cfg, s)
    ensures FrozenInv(cfg, Next(cfg, s, c)) && Undisturbed(s, Next(cfg, s, c))
  {
    if Enabled(s, c) {
      NextApply(cfg, s, c);
      FrozenGo(cfg, s, c.tid, c.o);
    } else {
      NextFrame(cfg, s, c);
      FrozenFrame(cfg, s, Next(cfg, s, c));
    }
  }

  lemma {:induction false} RunJoin(cfg: Config, s: State, a: seq<Choice>, b: seq<Choice>)
    ensures Run(cfg, s, a + b) == Run(cfg, Run(cfg, s, a), b)
  {
    if b == [] {
      assert a + b == a;
    } else {
      RunJoin(cfg, s, a, b[..|b| - 1]);
      assert (a + b)[..|a + b| - 1] == a + b[..|b| - 1];
    }
  }

  lemma {:induction false} UndisturbedRun(cfg: Config, s: State, cs: seq<Choice>)
    requires LockInv(s) && HistoryInv(s) && FrozenInv(cfg, s)
    ensures var r := Run(cfg, s, cs); LockInv(r) && HistoryInv(r) && FrozenInv(cfg, r) && Undisturbed(s, r)
  {
    if cs == [] {
    } else {
      var m, c := Run(cfg, s, cs[..|cs| - 1]), cs[|cs| - 1];
      UndisturbedRun(cfg, s, cs[..|cs| - 1]);
      LockInvNext(cfg, m, c);
      HistoryInvNext(cfg, m, c);
      FrozenNext(cfg, m, c);
    }
  }

  lemma FrozenRun(cfg: Config, s: State, cs: seq<Choice>)
    requires Initial(s)
    ensures LockInv(Run(cfg, s, cs)) && HistoryInv(Run(cfg, s, cs)) && FrozenInv(cfg, Run(cfg, s, cs))
  {
    UndisturbedRun(cfg, s, cs);
  }

  /** Over every run, from any point of it on, no step changes a frozen column of an inserted row. */
  lemma ColumnsNeverChange(cfg: Config, s: State, before: seq<Choice>, later: seq<Choice>, p: Pid)
    requires Initial(s) && p in Run(cfg, s, before).db.rows
    ensures var a, b := Run(cfg, s, before), Run(cfg, s, before + later);
            && p in b.db.rows && b.db.rows[p].frozen == a.db.rows[p].frozen
            && p in a.births && p in b.births && b.births[p] == a.births[p]
  {
    FrozenRun(cfg, s, before);
    UndisturbedRun(cfg, Run(cfg, s, before), later);
    RunJoin(cfg, s, before, later);
  }

  /** Over every run the columns of a row stay the matching fields of the plan it was hashed with. */
  lemma ColumnsMatchPlan(cfg: Config, s: State, cs: seq<Choice>, p: Pid)
    requires Initial(s) && p in Run(cfg, s, cs).db.rows
    ensures var r := Run(cfg, s, cs);
            && p in r.births && r.db.rows[p].frozen.hash == PlanHash(r.births[p].plan)
            && ColumnsMatch(r.db.rows[p].frozen, r.births[p].plan)
            && r.db.rows[p].frozen.expiresAt == r.db.rows[p].frozen.createdAt + cfg.ttl
  {
    FrozenRun(cfg, s, cs);
  }

  /** Over every run, with the plan columns edited at will: a plan entered for execution means the plan its row was
      proposed with. */
  lemma ExecutedPlanIsTheFrozenOne(cfg: Config, s: State, cs: seq<Choice>, k: nat)
    requires Initial(s) && k < |Run(cfg, s, cs).log| && Run(cfg, s, cs).log[k].Entered?
    ensures var r := Run(cfg, s, cs); r.log[k].pid in r.births && Mean(r.log[k].plan) == Mean(r.births[r.log[k].pid].plan)
  {
    FrozenRun(cfg, s, cs);
    assert EntryFaithful(Run(cfg, s, cs).births, Run(cfg, s, cs).log[k]);
  }

  // ----- runs in which nobody edits the database -----

  ghost predicate Untampered(cs: seq<Choice>) { forall i :: 0 <= i < |cs| ==> !cs[i].Tamper? }

  ghost predicate TextInv(s: State) {
    forall p :: p in s.db.rows ==> p in s.births && s.db.rows[p].planText == Encode(s.births[p].plan)
  }

  lemma TextNext(cfg: Config, s: State, c: Choice)
    requires LockInv(s) && HistoryInv(s) && FrozenInv(cfg, s) && TextInv(s) && !c.Tamper?
    ensures TextInv(Next(cfg, s, c))
  {
    if Enabled(s, c) {
      NextApply(cfg, s, c);
      DoKeeps(cfg, s, c.tid, s.jobs[c.tid], c.o);
    }
  }

  lemma {:induction false} TextRun(cfg: Config, s: State, cs: seq<Choice>)
    requires Initial(s) && Untampered(cs)
    ensures TextInv(Run(cfg, s, cs))
  {
    if cs == [] {
    } else {
      TextRun(cfg, s, cs[..|cs| - 1]);
      FrozenRun(cfg, s, cs[..|cs| - 1]);
      TextNext(cfg, Run(cfg, s, cs[..|cs| - 1]), cs[|cs| - 1]);
    }
  }

  lemma StoredRow(db: Db, p: Pid, plan: Json)
    requires p in db.rows && db.rows[p].planText == Encode(plan) && IsDict(plan) && PlanHash(plan) == db.rows[p].frozen.hash
    ensures Fetch(db, p) == Some(Proposal(db.rows[p], Normalize(plan))) && HashOk(Fetch(db, p).value)
  {
    StoreRoundTrip(plan);
  }

  /** The hash recomputed from a stored row equals the one taken at proposal, as long as nobody edits the row. */
  lemma StoredHashHolds(cfg: Config, s: State, cs: seq<Choice>, p: Pid)
    requires Initial(s) && Untampered(cs) && p in Run(cfg, s, cs).db.rows
    ensures Fetch(Run(cfg, s, cs).db, p).Some? && HashOk(Fetch(Run(cfg, s, cs).db, p).value)
  {
    FrozenRun(cfg, s, cs);
    TextRun(cfg, s, cs);
    var r := Run(cfg, s, cs);
    assert Born(cfg, r.db.rows[p].frozen, r.births[p]);
    StoredRow(r.db, p, r.births[p].plan);
  }
}
