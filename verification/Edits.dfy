/** Edits behind the broker's back: between any two steps any row of the proposals table may be replaced by any other
    row. The hash covers the plan column alone, while a single operation is called on the target the row names and with
    the row's parameters; so which edits change what a host runs is a question of its own. */
module Edits {
  import opened Options
  import opened JsonText
  import opened JsonProofs
  import opened Registry
  import opened Lifecycle
  import opened Threads
  import opened FrozenContent
  import opened Approvals
  import opened Delivery
  import HostPath
  import Race
  import Turns

  // ----- runs with edits -----

  datatype EditChoice = Broker(c: Choice) | Edit(pid: Pid, row: Row)

  function EditedNext(cfg: Config, s: State, e: EditChoice): State {
    match e
    case Broker(c) => Next(cfg, s, c)
    case Edit(pid, row) => if pid in s.db.rows then s.(db := s.db.(rows := s.db.rows[pid := row])) else s
  }

  function EditedRun(cfg: Config, s: State, es: seq<EditChoice>): State {
    if es == [] then s else EditedNext(cfg, EditedRun(cfg, s, es[..|es| - 1]), es[|es| - 1])
  }

  predicate HeldKnown(rows: map<Pid, Row>, req: Request, pc: Pc) { Held(pc).Some? ==> PidOf(req) in rows }

  /** What holds whatever is edited. */
  ghost predicate EditInv(s: State) {
    && LockInv(s)
    && (forall p :: p in s.births <==> p in s.db.rows)
    && (forall p :: p in s.births ==> IsDict(s.births[p].plan))
    && (forall t :: t in s.jobs ==> CarryOk(s.jobs[t]) && HeldKnown(s.db.rows, s.jobs[t].req, s.jobs[t].pc))
  }

  predicate NextKnown(rows: map<Pid, Row>, a: Act, j: Job) { a.pc.Some? ==> HeldKnown(rows, j.req, a.pc.value) }

  lemma OpeningKnown(cfg: Config, s: State, tid: Tid, j: Job, o: Oracle)
    requires j.req.Approve? && HeldKnown(s.db.rows, j.req, j.pc) && (j.pc.Read? || j.pc.MarkTampered? || j.pc.TryLock?)
    ensures NextKnown(s.db.rows, Opening(cfg, s, tid, j, o), j)
  {
  }

  lemma LockingKnown(cfg: Config, s: State, tid: Tid, j: Job, o: Oracle)
    requires j.req.Approve? && HeldKnown(s.db.rows, j.req, j.pc) && Holding(j.pc) && StillToEnter(j.pc)
    ensures NextKnown(s.db.rows, Locking(cfg, s, tid, j, o), j)
  {
  }

  lemma ExecutingKnown(cfg: Config, s: State, tid: Tid, j: Job, o: Oracle)
    requires j.req.Approve? && HeldKnown(s.db.rows, j.req, j.pc) && Running(j.pc)
    ensures NextKnown(s.db.rows, Executing(cfg, s, tid, j, o), j)
  {
  }

  lemma PlainKnown(cfg: Config, s: State, tid: Tid, j: Job, o: Oracle)
    requires Fits(j.req, j.pc) && !j.req.Propose? && !j.req.ProposePlan? && !j.req.ProposeScript?
    requires j.req.Approve? ==> j.pc.Expire? || j.pc.Finish? || j.pc.GetFinal? || j.pc.WriteReceipt? || j.pc.Unlock?
    ensures NextKnown(s.db.rows, Do(cfg, s, tid, j, o), j)
  {
  }

  lemma DoKnown(cfg: Config, s: State, tid: Tid, j: Job, o: Oracle)
    requires Fits(j.req, j.pc) && HeldKnown(s.db.rows, j.req, j.pc)
    ensures NextKnown(s.db.rows, Do(cfg, s, tid, j, o), j)
  {
    if j.pc.Expire? { }
    else if j.req.Approve? && (j.pc.Read? || j.pc.MarkTampered? || j.pc.TryLock?) { OpeningKnown(cfg, s, tid, j, o); }
    else if j.req.Approve? && Running(j.pc) { ExecutingKnown(cfg, s, tid, j, o); }
    else if j.req.Approve? && Holding(j.pc) && StillToEnter(j.pc) { LockingKnown(cfg, s, tid, j, o); }
    else if j.req.Propose? || j.req.ProposePlan? || j.req.ProposeScript? { ProposingQuiet(cfg, s, j, o); }
    else { PlainKnown(cfg, s, tid, j, o); }
  }

  lemma EditApply(cfg: Config, s: State, tid: Tid, a: Act)
    requires EditInv(s) && tid in s.jobs && LockInv(Apply(s, tid, a))
    requires KeepsFrozen(cfg, s, a) && NextCarry(a, s.jobs[tid]) && NextKnown(s.db.rows, a, s.jobs[tid])
    ensures EditInv(Apply(s, tid, a))
  {
    var r := Apply(s, tid, a);
    forall t | t in r.jobs ensures CarryOk(r.jobs[t]) && HeldKnown(r.db.rows, r.jobs[t].req, r.jobs[t].pc) {
      if t != tid { assert r.jobs[t] == s.jobs[t]; }
    }
    forall p | p in r.births ensures IsDict(r.births[p].plan) {
      if p !in s.births { assert Born(cfg, a.db.rows[p].frozen, a.births[p]); }
    }
  }

  ghost predicate BirthsKept(s: State, r: State) { forall p :: p in s.births ==> p in r.births && r.births[p] == s.births[p] }

  lemma EditFrame(cfg: Config, s: State, c: Choice)
    requires EditInv(s) && !Enabled(s, c) && LockInv(Next(cfg, s, c))
    ensures EditInv(Next(cfg, s, c)) && BirthsKept(s, Next(cfg, s, c))
  {
    NextFrame(cfg, s, c);
  }

  lemma EditInvNext(cfg: Config, s: State, e: EditChoice)
    requires EditInv(s)
    ensures EditInv(EditedNext(cfg, s, e)) && BirthsKept(s, EditedNext(cfg, s, e))
  {
    if e.Broker? {
      var c := e.c;
      LockInvNext(cfg, s, c);
      if Enabled(s, c) {
        NextApply(cfg, s, c);
        DoKeeps(cfg, s, c.tid, s.jobs[c.tid], c.o);
        DoCarry(cfg, s, c.tid, s.jobs[c.tid], c.o);
        DoKnown(cfg, s, c.tid, s.jobs[c.tid], c.o);
        EditApply(cfg, s, c.tid, Do(cfg, s, c.tid, s.jobs[c.tid], c.o));
      } else {
        EditFrame(cfg, s, c);
      }
    }
  }

  lemma {:induction false} EditInvRun(cfg: Config, s: State, es: seq<EditChoice>)
    requires EditInv(s)
    ensures EditInv(EditedRun(cfg, s, es)) && BirthsKept(s, EditedRun(cfg, s, es))
  {
    if es == [] {
    } else {
      EditInvRun(cfg, s, es[..|es| - 1]);
      EditInvNext(cfg, EditedRun(cfg, s, es[..|es| - 1]), es[|es| - 1]);
    }
  }

  // ----- the plan -----

  lemma HashDecides(p: Proposal, plan: Json)
    requires IsDict(p.plan) && IsDict(plan) && HashOk(p)
    ensures Mean(p.plan) == Mean(plan) <==> p.row.frozen.hash == PlanHash(plan)
  {
    CanonicalDecides(p.plan, plan);
  }

  /** Over every run, whatever is edited at whatever moment: the plan a handler executes means the one that was proposed if
      and only if the hash column its second read found is the one that was stored at the proposal. */
  lemma ExecutedPlanExactly(cfg: Config, s: State, es: seq<EditChoice>, tid: Tid)
    requires Initial(s)
    requires var r := EditedRun(cfg, s, es); tid in r.jobs && Rehashed(r.jobs[tid].pc)
    ensures var r := EditedRun(cfg, s, es);
            var p, pid := Held(r.jobs[tid].pc).value, PidOf(r.jobs[tid].req);
            && pid in r.births
            && (Mean(p.plan) == Mean(r.births[pid].plan) <==> p.row.frozen.hash == PlanHash(r.births[pid].plan))
  {
    EditInvRun(cfg, s, es);
    var r := EditedRun(cfg, s, es);
    assert CarryOk(r.jobs[tid]) && HeldKnown(r.db.rows, r.jobs[tid].req, r.jobs[tid].pc);
    HashDecides(Held(r.jobs[tid].pc).value, r.births[PidOf(r.jobs[tid].req)].plan);
  }

  // ----- what a host runs -----

  /** The argument list one single operation sends to the host; the mock adapter sends none. */
  function HostRuns(p: Proposal, t: Target): Option<seq<string>> {
    if p.row.frozen.adapter == "mock" then None else CallArgv(p, t)
  }

  /** Two parameters give the same word: they are the same text, or neither is a text. */
  predicate SameWord(a: Json, b: Json) { a.Str? || b.Str? ==> a == b }

  /** The one argument the executor takes from the row is still the plan's: the target's external id for a guest, the pool
      for a scrub, the unit for a restart. */
  predicate SameArgument(executor: string, externalId: string, parameters: Json, plan: Json) {
    if HostPath.Ext(executor).Some? then externalId == Text(Get(plan, "target_external_id"))
    else if executor == "zpool_scrub" then SameWord(Get(parameters, "pool"), Get(Get(plan, "parameters"), "pool"))
    else if executor == "service_restart" then SameWord(Get(parameters, "unit"), Get(Get(plan, "parameters"), "unit"))
    else true
  }

  lemma GuestWords(executor: string, a: string, b: string, p: Json, q: Json)
    requires HostPath.Ext(executor).Some?
    ensures HostPath.Argv(executor, a, p) == HostPath.Argv(executor, b, q) <==> a == b
  {
    var (tool, action) := HostPath.Ext(executor).value;
    assert (["exec"] + [tool, action, a])[3] == a && (["exec"] + [tool, action, b])[3] == b;
  }

  lemma NodeWords(a: string, b: string, verb: string, action: string)
    ensures ["exec"] + [verb, action, a] == ["exec"] + [verb, action, b] <==> a == b
  {
    assert (["exec"] + [verb, action, a])[3] == a && (["exec"] + [verb, action, b])[3] == b;
  }

  /** For any copy of a row and any target: what is sent is what the copy's own plan asks for if and only if that one
      argument is the plan's. No other column matters, the operation's name included. */
  lemma ArgvExactly(p: Proposal, t: Target)
    ensures CallArgv(p, t) == FrozenArgv(p.plan) <==>
              SameArgument(Text(Get(p.plan, "executor")), t.externalId, p.row.frozen.parameters, p.plan)
  {
    var executor := Text(Get(p.plan, "executor"));
    var mine, plans := p.row.frozen.parameters, Get(p.plan, "parameters");
    if HostPath.Ext(executor).Some? {
      GuestWords(executor, t.externalId, Text(Get(p.plan, "target_external_id")), mine, plans);
    } else if executor == "zpool_scrub" {
      NodeWords(Text(Get(mine, "pool")), Text(Get(plans, "pool")), "zpool", "scrub");
    } else if executor == "service_restart" {
      NodeWords(Text(Get(mine, "unit")), Text(Get(plans, "unit")), "systemctl", "restart");
    }
  }

  /** Plans that mean the same ask for the same. */
  lemma SamePlanSameArgv(a: Json, b: Json)
    requires IsDict(a) && IsDict(b) && Mean(a) == Mean(b)
    ensures FrozenArgv(a) == FrozenArgv(b)
    ensures forall e, x, q :: SameArgument(e, x, q, a) <==> SameArgument(e, x, q, b)
  {
    SameText(a, b, "executor"); SameText(a, b, "target_external_id");
    GetMean(a, b, "parameters"); GetDict(a, "parameters"); GetDict(b, "parameters");
    SameText(Get(a, "parameters"), Get(b, "parameters"), "pool");
    SameText(Get(a, "parameters"), Get(b, "parameters"), "unit");
  }

  /** The columns and the target a single operation is called with still give what the plan asks for: nothing is sent where
      nothing can be, and otherwise the adapter column does not say mock and the argument is the plan's. */
  predicate StillPlanned(f: Frozen, t: Target, plan: Json) {
    var same := SameArgument(Text(Get(plan, "executor")), t.externalId, f.parameters, plan);
    if FrozenArgv(plan).Some? then f.adapter != "mock" && same else f.adapter == "mock" || same
  }

  lemma RunsExactly(p: Proposal, t: Target, plan: Json)
    requires IsDict(p.plan) && IsDict(plan) && Mean(p.plan) == Mean(plan)
    ensures HostRuns(p, t) == FrozenArgv(plan) <==> StillPlanned(p.row.frozen, t, plan)
  {
    SamePlanSameArgv(p.plan, plan);
    SameText(p.plan, plan, "executor");
    ArgvExactly(p, t);
  }

  /** Over every run, whatever is edited at whatever moment, as long as the second read finds the stored hash: what a single
      operation sends to the host is what its proposal was frozen to send if and only if the adapter column and the one
      argument taken from the row and its target are still planned. */
  lemma CalledArgvExactly(cfg: Config, s: State, es: seq<EditChoice>, tid: Tid)
    requires Initial(s)
    requires var r := EditedRun(cfg, s, es);
             && tid in r.jobs && r.jobs[tid].pc.Call? && r.jobs[tid].pc.w.Single?
             && (PidOf(r.jobs[tid].req) in r.births ==>
                   r.jobs[tid].pc.p.row.frozen.hash == PlanHash(r.births[PidOf(r.jobs[tid].req)].plan))
    ensures var r := EditedRun(cfg, s, es);
            var p, t, pid := r.jobs[tid].pc.p, r.jobs[tid].pc.t, PidOf(r.jobs[tid].req);
            && pid in r.births
            && (HostRuns(p, t) == FrozenArgv(r.births[pid].plan) <==> StillPlanned(p.row.frozen, t, r.births[pid].plan))
  {
    EditInvRun(cfg, s, es);
    ExecutedPlanExactly(cfg, s, es, tid);
    var r := EditedRun(cfg, s, es);
    assert CarryOk(r.jobs[tid]);
    RunsExactly(r.jobs[tid].pc.p, r.jobs[tid].pc.t, r.births[PidOf(r.jobs[tid].req)].plan);
  }

  // ----- the operation column -----

  /** What one call does to the mock adapter: its exit status, the target it leaves and the message it leaves. */
  function MockDoes(p: Proposal, t: Target): (int, Option<string>, Option<string>) {
    var operation := p.row.frozen.operation;
    if operation == "mock.fail" then (1, None, None)
    else (0, Some(t.id), if operation == "mock.echo" then Some(Text(Get(p.row.frozen.parameters, "message"))) else None)
  }

  lemma MockDoesRight(p: Proposal, t: Target, o: Oracle)
    requires p.row.frozen.adapter == "mock"
    ensures MockDoes(p, t).0 == CallRc(p, Single, o) && (MockDoes(p, t).1.Some? <==> Counts(p, Single))
  {
  }

  function Renamed(p: Proposal, operation: string): Proposal {
    p.(row := p.row.(frozen := p.row.frozen.(operation := operation)))
  }

  /** An edited operation column passes the hash check and leaves what a host runs as it was; it changes what the mock
      adapter does exactly when one of the two names fails or echoes and the other does not. */
  lemma OperationColumn(p: Proposal, t: Target, operation: string)
    ensures HashOk(Renamed(p, operation)) <==> HashOk(p)
    ensures HostRuns(Renamed(p, operation), t) == HostRuns(p, t)
    ensures var was := p.row.frozen.operation;
            MockDoes(Renamed(p, operation), t) == MockDoes(p, t) <==>
              (was == "mock.fail" <==> operation == "mock.fail") && (was == "mock.echo" <==> operation == "mock.echo")
  {
  }

  // ----- edited rows are executed -----

  function Lift(cs: seq<Choice>): seq<EditChoice> { seq(|cs|, i requires 0 <= i < |cs| => Broker(cs[i])) }

  lemma {:induction false} LiftRun(cfg: Config, s: State, cs: seq<Choice>)
    ensures EditedRun(cfg, s, Lift(cs)) == Run(cfg, s, cs)
  {
    if cs == [] {
    } else {
      var n := |cs| - 1;
      LiftRun(cfg, s, cs[..n]);
      assert Lift(cs)[..n] == Lift(cs[..n]);
    }
  }

  lemma {:induction false} EditedJoin(cfg: Config, s: State, a: seq<EditChoice>, b: seq<EditChoice>)
    ensures EditedRun(cfg, s, a + b) == EditedRun(cfg, EditedRun(cfg, s, a), b)
  {
    if b == [] {
      assert a + b == a;
    } else {
      EditedJoin(cfg, s, a, b[..|b| - 1]);
      assert (a + b)[..|a + b| - 1] == a + b[..|b| - 1];
    }
  }

  /** Handler x is about to make the single call of the row as it now stands, on the target that row names. */
  predicate AboutToCall(s: State, x: Tid, pid: Pid, f: Frozen) {
    && x in s.jobs && s.jobs[x].req.Approve? && s.jobs[x].req.pid == pid && s.jobs[x].pc.Call? && s.jobs[x].pc.w.Single?
    && s.jobs[x].pc.p.row.frozen == f
    && f.targetId in s.db.inventory && s.jobs[x].pc.t == s.db.inventory[f.targetId]
  }

  lemma BeginOne(cfg: Config, s: State, req: Request, o: Oracle) returns (r: State)
    requires s.jobs == map[] && req.Approve? && req.actor.canApprove && Executable(cfg, s.db, s.clock, req) && Answers(o)
    ensures r == Run(cfg, s, [Begin(req)]) && At(cfg, r, s.next, req, o, Expire)
    ensures r.lock == s.lock && r.db == s.db && r.clock == s.clock && r.mock == s.mock && r.births == s.births
  {
    assert [Begin(req)][..0] == [];
    assert Run(cfg, s, []) == s;
    r := Next(cfg, s, Begin(req));
  }

  predicate SingleRow(db: Db, pid: Pid) {
    pid in db.rows && db.rows[pid].frozen.operation != "plan.run" && db.rows[pid].frozen.operation != "script.run"
  }

  lemma ToCallPoint(cfg: Config, s: State, x: Tid, req: Request, o: Oracle, q: Proposal) returns (r: State, cs: seq<Choice>)
    requires At(cfg, s, x, req, o, TryLock(q)) && s.lock == None && s.clock < q.row.frozen.expiresAt && Ready(cfg, s, req, o)
    requires SingleRow(s.db, req.pid) && Recallable(s.db, req.pid)
    ensures r == Run(cfg, s, cs) && AboutToCall(r, x, req.pid, s.db.rows[req.pid].frozen) && Aside(s, r, x, req.pid)
  {
    var m, p, t, n := ToExecution(cfg, s, x, req, o, q);
    PassesStays(cfg, s, m, x, req, o, p);
    PrecheckPasses(cfg, m, x, req, o, p, t);
    WalkOn(cfg, s, x, req, o, n, m, 0, 0);
    r := Turn(cfg, m, x, o);
    cs := Gos(x, o, n + 1);
  }

  /** From any state in which such a row waits, one approval brings its call about. */
  lemma ApprovalCalls(cfg: Config, s: State, req: Request, o: Oracle) returns (r: State, cs: seq<Choice>)
    requires s.jobs == map[] && s.lock == None && req.Approve? && req.actor.canApprove && Answers(o)
    requires Executable(cfg, s.db, s.clock, req) && s.db.rows[req.pid].status == PROPOSED
    requires Ready(cfg, s, req, o) && SingleRow(s.db, req.pid) && Recallable(s.db, req.pid)
    ensures r == Run(cfg, s, cs) && AboutToCall(r, s.next, req.pid, s.db.rows[req.pid].frozen)
    ensures r.db.inventory == s.db.inventory
  {
    var one := [Begin(req)];
    var m := BeginOne(cfg, s, req, o);
    var m', q, a := OpenTurns(cfg, m, s.next, req, o);
    var b;
    r, b := ToCallPoint(cfg, m', s.next, req, o, q);
    RunJoin(cfg, s, one, a);
    RunJoin(cfg, s, one + a, b);
    cs := one + a + b;
  }

  /** What was proposed, as the row was stored. */
  function Stored(cfg: Config, s: State, prop: Request, o: Oracle): Row
    requires Race.Acceptable(cfg, s, prop, o)
  {
    var d := Resolved(cfg, s.db.inventory, prop).value;
    NewRow(cfg, prop.actor.uid, d, Race.Seen(s.mock, prop, d, o), s.clock)
  }

  /** Edited columns that get through an approval under `req`: of a single operation on a host that has the stored hash, is
      in time, is confirmed, has a target of this client, and whose observed state still holds. */
  predicate GetsThrough(cfg: Config, s: State, f: Frozen, hash: Digest, req: Request, o: Oracle)
    requires req.Approve?
  {
    && f.hash == hash && f.clientId == cfg.client.clientId && s.clock < f.expiresAt
    && (f.risk == HIGH ==> req.confirmation == f.confirmation)
    && f.targetId in s.db.inventory && s.db.inventory[f.targetId].clientId == cfg.client.clientId
    && f.operation != "plan.run" && f.operation != "script.run"
    && f.adapter in cfg.adapters && f.adapter != "mock" && o.observed.Some? && Holds(f.adapter, f.preState, o.observed.value)
  }

  lemma EditedWaits(cfg: Config, s: State, pid: Pid, f: Frozen, req: Request, o: Oracle)
    requires req.Approve? && req.pid == pid && Fetch(s.db, pid).Some? && HashOk(Fetch(s.db, pid).value)
    requires GetsThrough(cfg, s, f, s.db.rows[pid].frozen.hash, req, o)
    ensures var r := EditedNext(cfg, s, Edit(pid, s.db.rows[pid].(frozen := f)));
            && Executable(cfg, r.db, r.clock, req) && Ready(cfg, r, req, o) && SingleRow(r.db, pid) && Recallable(r.db, pid)
            && r == s.(db := r.db) && r.db.inventory == s.db.inventory
            && r.db.rows[pid] == s.db.rows[pid].(frozen := f)
  {
  }

  /** The plan a row was born with means the draft's. */
  lemma BornAsDraft(cfg: Config, s: State, cs: seq<Choice>, pid: Pid, uid: int, d: Draft, pre: Json, now: int)
    requires Initial(s) && DraftOk(d) && IsDict(pre)
    requires pid in Run(cfg, s, cs).db.rows && Run(cfg, s, cs).db.rows[pid] == NewRow(cfg, uid, d, pre, now)
    ensures var r := Run(cfg, s, cs);
            pid in r.births && IsDict(r.births[pid].plan) && Mean(r.births[pid].plan) == Mean(DraftPlan(cfg, d, pre))
  {
    FrozenRun(cfg, s, cs);
    var r := Run(cfg, s, cs);
    assert Born(cfg, r.db.rows[pid].frozen, r.births[pid]);
    NewRowBorn(cfg, uid, d, pre, now, 0);
    CanonicalDecides(r.births[pid].plan, DraftPlan(cfg, d, pre));
  }

  /** A proposal was accepted: its row is there, readable and waiting. */
  lemma AcceptedRow(cfg: Config, s: State, prop: Request, o: Oracle) returns (g: Turns.Trace)
    requires Initial(s) && prop.Propose? && Race.Acceptable(cfg, s, prop, o)
    ensures Turns.Between(g) && g.cfg == cfg && g.start == s && g.s.clock == s.clock
    ensures g.s.db == s.db.(rows := map[prop.pid := Stored(cfg, s, prop, o)])
    ensures Fetch(g.s.db, prop.pid).Some? && HashOk(Fetch(g.s.db, prop.pid).value)
    ensures g.s == Run(cfg, s, g.cs)
    ensures prop.pid in g.s.births && IsDict(g.s.births[prop.pid].plan)
    ensures var d := Resolved(cfg, s.db.inventory, prop).value;
            DraftOk(d) && Mean(g.s.births[prop.pid].plan) == Mean(DraftPlan(cfg, d, Race.Seen(s.mock, prop, d, o)))
  {
    var d := Resolved(cfg, s.db.inventory, prop).value;
    var pre := Race.Seen(s.mock, prop, d, o);
    g := Race.Accepted(cfg, s, prop, o);
    Turns.ReachedIsARun(g.cfg, g.start, g.cs, g.s);
    ResolvedOk(cfg, s.db.inventory, prop);
    NewRowBorn(cfg, prop.actor.uid, d, pre, s.clock, 0);
    StoredRow(g.s.db, prop.pid, DraftPlan(cfg, d, pre));
    BornAsDraft(cfg, s, g.cs, prop.pid, prop.actor.uid, d, pre, s.clock);
  }

  lemma BirthsStay(cfg: Config, s: State, a: seq<EditChoice>, b: seq<EditChoice>, m: State)
    requires Initial(s) && m == EditedRun(cfg, s, a)
    ensures BirthsKept(m, EditedRun(cfg, s, a + b))
  {
    EditInvRun(cfg, s, a);
    EditInvRun(cfg, m, b);
    EditedJoin(cfg, s, a, b);
  }

  lemma EditedRunIs(cfg: Config, s: State, a: seq<Choice>, e: EditChoice, b: seq<Choice>)
    ensures EditedRun(cfg, s, Lift(a) + [e] + Lift(b)) == Run(cfg, EditedNext(cfg, Run(cfg, s, a), e), b)
  {
    EditedJoin(cfg, s, Lift(a), [e]);
    EditedJoin(cfg, s, Lift(a) + [e], Lift(b));
    LiftRun(cfg, s, a);
    assert [e][..0] == [] && EditedRun(cfg, Run(cfg, s, a), []) == Run(cfg, s, a);
    LiftRun(cfg, EditedNext(cfg, Run(cfg, s, a), e), b);
  }

  /** Whatever single operation the broker accepts, and whatever its columns are then edited to as long as they get through
      an approval: there is a run in which it is called with those columns, on the target they name. */
  lemma EditedRowIsCalled(cfg: Config, s: State, prop: Request, req: Request, o: Oracle, f: Frozen)
    returns (es: seq<EditChoice>, x: Tid)
    requires Initial(s) && prop.Propose? && Race.Acceptable(cfg, s, prop, o)
    requires req.Approve? && req.actor.canApprove && req.pid == prop.pid
    requires GetsThrough(cfg, s, f, Stored(cfg, s, prop, o).frozen.hash, req, o)
    ensures var r := EditedRun(cfg, s, es);
            var d := Resolved(cfg, s.db.inventory, prop).value;
            && AboutToCall(r, x, prop.pid, f) && r.jobs[x].pc.t == s.db.inventory[f.targetId]
            && prop.pid in r.births && IsDict(r.births[prop.pid].plan)
            && Mean(r.births[prop.pid].plan) == Mean(DraftPlan(cfg, d, Race.Seen(s.mock, prop, d, o)))
  {
    var pid := prop.pid;
    var g := AcceptedRow(cfg, s, prop, o);
    var e := Edit(pid, g.s.db.rows[pid].(frozen := f));
    EditedWaits(cfg, g.s, pid, f, req, o);
    var m := EditedNext(cfg, g.s, e);
    var r, cs := ApprovalCalls(cfg, m, req, o);
    x := m.next;
    es := Lift(g.cs) + [e] + Lift(cs);
    EditedRunIs(cfg, s, g.cs, e, cs);
    LiftRun(cfg, s, g.cs);
    assert es == Lift(g.cs) + ([e] + Lift(cs));
    BirthsStay(cfg, s, Lift(g.cs), [e] + Lift(cs), g.s);
  }

  lemma DraftArgv(cfg: Config, d: Draft, pre: Json)
    requires DraftOk(d) && IsDict(pre)
    ensures FrozenArgv(DraftPlan(cfg, d, pre)) == HostPath.Argv(d.executor, d.target.externalId, d.parameters)
    ensures Text(Get(DraftPlan(cfg, d, pre), "executor")) == d.executor && IsDict(DraftPlan(cfg, d, pre))
  {
    PlanFields(cfg.client, d.adapter, d.operation, d.target, d.parameters, d.executor, d.timeout, pre,
               d.steps, d.script, d.declared);
  }

  lemma GuestOnHost(name: string)
    requires GetOperation(name).Some? && HostPath.Ext(GetOperation(name).value.executor).Some?
    ensures GetOperation(name).value.adapter == "proxmox"
  {
  }

  /** What an accepted guest operation resolves to. */
  lemma GuestDraft(cfg: Config, inv: map<string, Target>, prop: Request)
    requires prop.Propose? && Resolved(cfg, inv, prop).Some? && HostPath.Ext(Resolved(cfg, inv, prop).value.executor).Some?
    ensures var d := Resolved(cfg, inv, prop).value;
            d.adapter == "proxmox" && d.adapter in cfg.adapters && d.operation != "plan.run" && d.operation != "script.run"
  {
    OneParameter(prop.operation);
    GuestOnHost(prop.operation);
  }

  /** The proposal's own columns but for the target get through. */
  lemma RetargetedGetsThrough(cfg: Config, s: State, prop: Request, req: Request, o: Oracle, other: string)
    requires prop.Propose? && Race.Acceptable(cfg, s, prop, o) && req.Approve? && cfg.ttl > 0
    requires HostPath.Ext(Resolved(cfg, s.db.inventory, prop).value.executor).Some?
    requires var d := Resolved(cfg, s.db.inventory, prop).value; d.risk == HIGH ==> req.confirmation == d.confirmation
    requires other in s.db.inventory && s.db.inventory[other].clientId == cfg.client.clientId
    ensures var f := Stored(cfg, s, prop, o).frozen;
            GetsThrough(cfg, s, f.(targetId := other), f.hash, req, o)
  {
    GuestDraft(cfg, s.db.inventory, prop);
  }

  /** The argument lists of a guest operation, as called and as frozen. */
  lemma GuestSends(cfg: Config, p: Proposal, t: Target, plan: Json, d: Draft, pre: Json)
    requires DraftOk(d) && IsDict(pre) && IsDict(plan) && Mean(plan) == Mean(DraftPlan(cfg, d, pre))
    requires IsDict(p.plan) && HashOk(p) && p.row.frozen.hash == PlanHash(DraftPlan(cfg, d, pre))
    requires p.row.frozen.adapter != "mock" && HostPath.Ext(d.executor).Some?
    ensures var (tool, action) := HostPath.Ext(d.executor).value;
            && HostRuns(p, t) == Some(["exec", tool, action, t.externalId])
            && FrozenArgv(plan) == Some(["exec", tool, action, d.target.externalId])
  {
    var (tool, action) := HostPath.Ext(d.executor).value;
    assert ["exec"] + [tool, action, t.externalId] == ["exec", tool, action, t.externalId];
    assert ["exec"] + [tool, action, d.target.externalId] == ["exec", tool, action, d.target.externalId];
    DraftArgv(cfg, d, pre);
    CanonicalDecides(p.plan, DraftPlan(cfg, d, pre));
    SameText(p.plan, DraftPlan(cfg, d, pre), "executor");
    SamePlanSameArgv(plan, DraftPlan(cfg, d, pre));
  }

  lemma CarriedAtCall(cfg: Config, s: State, es: seq<EditChoice>, x: Tid, pid: Pid, f: Frozen)
    requires Initial(s) && AboutToCall(EditedRun(cfg, s, es), x, pid, f)
    ensures var p := EditedRun(cfg, s, es).jobs[x].pc.p; IsDict(p.plan) && HashOk(p)
  {
    EditInvRun(cfg, s, es);
    assert CarryOk(EditedRun(cfg, s, es).jobs[x]);
  }

  /** The hash does not protect the target: whatever guest operation the broker accepts, and whatever other target of the
      client the target column is then edited to, there is a run in which both hash checks pass and the host is sent the
      operation on the other target's external id, while the frozen plan asks for the operation on its own. */
  lemma OtherTargetRuns(cfg: Config, s: State, prop: Request, req: Request, o: Oracle, other: string)
    returns (es: seq<EditChoice>, x: Tid)
    requires Initial(s) && prop.Propose? && Race.Acceptable(cfg, s, prop, o) && cfg.ttl > 0
    requires req.Approve? && req.actor.canApprove && req.pid == prop.pid
    requires HostPath.Ext(Resolved(cfg, s.db.inventory, prop).value.executor).Some?
    requires var d := Resolved(cfg, s.db.inventory, prop).value; d.risk == HIGH ==> req.confirmation == d.confirmation
    requires other in s.db.inventory && s.db.inventory[other].clientId == cfg.client.clientId
    ensures var r := EditedRun(cfg, s, es);
            var d := Resolved(cfg, s.db.inventory, prop).value;
            var (tool, action) := HostPath.Ext(d.executor).value;
            && x in r.jobs && r.jobs[x].pc.Call? && r.jobs[x].pc.w.Single? && prop.pid in r.births
            && HostRuns(r.jobs[x].pc.p, r.jobs[x].pc.t) == Some(["exec", tool, action, s.db.inventory[other].externalId])
            && FrozenArgv(r.births[prop.pid].plan) == Some(["exec", tool, action, d.target.externalId])
  {
    var d := Resolved(cfg, s.db.inventory, prop).value;
    var f := Stored(cfg, s, prop, o).frozen.(targetId := other);
    RetargetedGetsThrough(cfg, s, prop, req, o, other);
    es, x := EditedRowIsCalled(cfg, s, prop, req, o, f);
    var r := EditedRun(cfg, s, es);
    CarriedAtCall(cfg, s, es, x, prop.pid, f);
    ResolvedOk(cfg, s.db.inventory, prop);
    GuestDraft(cfg, s.db.inventory, prop);
    GuestSends(cfg, r.jobs[x].pc.p, r.jobs[x].pc.t, r.births[prop.pid].plan, d, Race.Seen(s.mock, prop, d, o));
  }
}
