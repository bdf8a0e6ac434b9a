/** Where rows and executions come from, over every run: each row holds what some request asked for, and each execution of
    a HIGH one was begun by an approver who typed the phrase that its operation and target spell. */
module Origins {
  import opened Options
  import opened JsonText
  import opened Registry
  import opened Lifecycle
  import opened Threads
  import opened FrozenContent
  import opened Requests

  predicate Proposes(req: Request) { req.Propose? || req.ProposePlan? || req.ProposeScript? }

  // ----- what happened at which choice -----

  /** The state in which choice i was made. */
  function StateAt(cfg: Config, s: State, cs: seq<Choice>, i: nat): State
    requires i <= |cs|
  {
    Run(cfg, s, cs[..i])
  }

  /** Choice i began the request, and it became handler t. */
  ghost predicate BegunAt(cfg: Config, s: State, cs: seq<Choice>, t: Tid, req: Request, i: nat) {
    i < |cs| && cs[i] == Begin(req) && Permitted(req) && DictRequest(req) && StateAt(cfg, s, cs, i).next == t
  }

  ghost predicate Begun(cfg: Config, s: State, cs: seq<Choice>, t: Tid, req: Request) {
    exists i: nat :: BegunAt(cfg, s, cs, t, req, i)
  }

  /** The request was resolved against the inventory of choice k. */
  ghost predicate DraftedAt(cfg: Config, s: State, cs: seq<Choice>, req: Request, d: Draft, k: nat) {
    k < |cs| && Resolved(cfg, StateAt(cfg, s, cs, k).db.inventory, req) == Some(d)
  }

  ghost predicate Drafted(cfg: Config, s: State, cs: seq<Choice>, req: Request, d: Draft) {
    exists k: nat :: DraftedAt(cfg, s, cs, req, d, k)
  }

  /** The state a proposal is frozen with: the mock adapter's counter, what the host answered, nothing for a plan, and
      nothing for a script whose host did not answer. */
  predicate Observes(mock: int, req: Request, adapter: string, id: string, answer: Option<Json>, pre: Json) {
    if req.ProposePlan? then pre == Obj([])
    else if adapter == "mock" then pre == Obj([Member("counter", Int(mock)), Member("target", Str(id))])
    else answer == Some(pre) || (answer == None && req.ProposeScript? && pre == Obj([]))
  }

  ghost predicate SeenAt(cfg: Config, s: State, cs: seq<Choice>, t: Tid, req: Request, d: Draft, pre: Json, m: nat) {
    && m < |cs| && cs[m].Go? && cs[m].tid == t && IsDict(pre)
    && Observes(StateAt(cfg, s, cs, m).mock, req, d.adapter, d.target.id, cs[m].o.observed, pre)
  }

  ghost predicate Seen(cfg: Config, s: State, cs: seq<Choice>, t: Tid, req: Request, d: Draft, pre: Json) {
    exists m: nat :: SeenAt(cfg, s, cs, t, req, d, pre, m)
  }

  lemma Earlier(cfg: Config, s: State, cs: seq<Choice>, c: Choice, i: nat)
    requires i <= |cs|
    ensures StateAt(cfg, s, cs + [c], i) == StateAt(cfg, s, cs, i)
    ensures i < |cs| ==> (cs + [c])[i] == cs[i]
  {
    assert (cs + [c])[..i] == cs[..i];
  }

  lemma StillBegun(cfg: Config, s: State, cs: seq<Choice>, c: Choice, t: Tid, req: Request)
    requires Begun(cfg, s, cs, t, req)
    ensures Begun(cfg, s, cs + [c], t, req)
  {
    var i: nat :| BegunAt(cfg, s, cs, t, req, i);
    Earlier(cfg, s, cs, c, i);
    assert BegunAt(cfg, s, cs + [c], t, req, i);
  }

  lemma StillDrafted(cfg: Config, s: State, cs: seq<Choice>, c: Choice, req: Request, d: Draft)
    requires Drafted(cfg, s, cs, req, d)
    ensures Drafted(cfg, s, cs + [c], req, d)
  {
    var k: nat :| DraftedAt(cfg, s, cs, req, d, k);
    Earlier(cfg, s, cs, c, k);
    assert DraftedAt(cfg, s, cs + [c], req, d, k);
  }

  lemma StillSeen(cfg: Config, s: State, cs: seq<Choice>, c: Choice, t: Tid, req: Request, d: Draft, pre: Json)
    requires Seen(cfg, s, cs, t, req, d, pre)
    ensures Seen(cfg, s, cs + [c], t, req, d, pre)
  {
    var m: nat :| SeenAt(cfg, s, cs, t, req, d, pre, m);
    Earlier(cfg, s, cs, c, m);
    assert SeenAt(cfg, s, cs + [c], t, req, d, pre, m);
  }

  lemma NowIs(cfg: Config, s: State, cs: seq<Choice>, c: Choice)
    ensures StateAt(cfg, s, cs + [c], |cs|) == Run(cfg, s, cs) && (cs + [c])[|cs|] == c
    ensures Run(cfg, s, cs + [c]) == Next(cfg, Run(cfg, s, cs), c)
  {
    assert (cs + [c])[..|cs|] == cs;
    assert (cs + [c])[..|cs + [c]| - 1] == cs;
  }

  // ----- rows -----

  /** Where a row comes from: its request, begun as this handler, the draft it resolved to, the state it was frozen with and
      the choice that inserted it. */
  datatype Origin = Origin(tid: Tid, req: Request, d: Draft, pre: Json, at: nat)

  ghost predicate StemsFrom(cfg: Config, s: State, cs: seq<Choice>, p: Pid, f: Frozen, plan: Json, o: Origin) {
    && Proposes(o.req) && o.req.pid == p && Begun(cfg, s, cs, o.tid, o.req) && Drafted(cfg, s, cs, o.req, o.d)
    && Seen(cfg, s, cs, o.tid, o.req, o.d, o.pre) && o.at < |cs|
    && f == NewRow(cfg, o.req.actor.uid, o.d, o.pre, StateAt(cfg, s, cs, o.at).clock).frozen
    && plan == DraftPlan(cfg, o.d, o.pre)
  }

  ghost predicate Stems(cfg: Config, s: State, cs: seq<Choice>, p: Pid, f: Frozen, plan: Json) {
    exists o: Origin :: StemsFrom(cfg, s, cs, p, f, plan, o)
  }

  lemma StillStems(cfg: Config, s: State, cs: seq<Choice>, c: Choice, p: Pid, f: Frozen, plan: Json)
    requires Stems(cfg, s, cs, p, f, plan)
    ensures Stems(cfg, s, cs + [c], p, f, plan)
  {
    var o: Origin :| StemsFrom(cfg, s, cs, p, f, plan, o);
    StillBegun(cfg, s, cs, c, o.tid, o.req);
    StillDrafted(cfg, s, cs, c, o.req, o.d);
    StillSeen(cfg, s, cs, c, o.tid, o.req, o.d, o.pre);
    Earlier(cfg, s, cs, c, o.at);
    assert StemsFrom(cfg, s, cs + [c], p, f, plan, o);
  }

  // ----- handlers -----

  /** A handler past its checks has typed the confirmation of a HIGH row. */
  predicate Typed(rows: map<Pid, Row>, j: Job) {
    j.pc.TryLock? || Holding(j.pc) ==>
      && j.req.Approve? && j.req.pid in rows
      && (rows[j.req.pid].frozen.risk == HIGH ==> j.req.confirmation == rows[j.req.pid].frozen.confirmation)
  }

  /** A handler was begun as its request, and what it carries of a proposal was resolved and observed before. */
  ghost predicate JobStems(cfg: Config, s: State, cs: seq<Choice>, t: Tid, j: Job) {
    && Begun(cfg, s, cs, t, j.req)
    && (j.pc.Pre? || j.pc.Insert? ==> Drafted(cfg, s, cs, j.req, j.pc.d)) && (j.pc.Pre? ==> !j.req.ProposePlan?)
    && (j.pc.Insert? ==> Seen(cfg, s, cs, t, j.req, j.pc.d, j.pc.pre))
  }

  lemma StillJob(cfg: Config, s: State, cs: seq<Choice>, c: Choice, t: Tid, j: Job)
    requires JobStems(cfg, s, cs, t, j)
    ensures JobStems(cfg, s, cs + [c], t, j)
  {
    StillBegun(cfg, s, cs, c, t, j.req);
    if j.pc.Pre? || j.pc.Insert? { StillDrafted(cfg, s, cs, c, j.req, j.pc.d); }
    if j.pc.Insert? { StillSeen(cfg, s, cs, c, t, j.req, j.pc.d, j.pc.pre); }
  }

  /** An execution, or a call of one, belongs to an approval begun for its row, which typed what a HIGH row asks for. */
  ghost predicate ApprovalOf(cfg: Config, s: State, cs: seq<Choice>, rows: map<Pid, Row>, e: Event, req: Request) {
    && req.Approve? && Begun(cfg, s, cs, e.tid, req)
    && (e.Entered? || e.Called?) && req.pid == e.pid && e.pid in rows
    && (rows[e.pid].frozen.risk == HIGH ==> req.confirmation == rows[e.pid].frozen.confirmation)
  }

  ghost predicate EventTyped(cfg: Config, s: State, cs: seq<Choice>, rows: map<Pid, Row>, e: Event) {
    e.Entered? || e.Called? ==> exists req: Request :: ApprovalOf(cfg, s, cs, rows, e, req)
  }

  // ----- one step -----

  /** What a proposing handler carries after a step: what it carried, what its request resolves to, what it observed. */
  predicate CarriesOn(cfg: Config, m: State, j: Job, o: Oracle, a: Act) {
    a.pc.Some? ==>
      match a.pc.value
      case Pre(d) => !j.req.ProposePlan? && (j.pc == Pre(d) || Resolved(cfg, m.db.inventory, j.req) == Some(d))
      case Insert(d, pre, _) =>
        && (j.pc == Pre(d) || Resolved(cfg, m.db.inventory, j.req) == Some(d))
        && IsDict(pre) && Observes(m.mock, j.req, d.adapter, d.target.id, o.observed, pre)
      case _ => true
  }

  /** A row that appears is the draft its handler carried, frozen. */
  predicate AddsOnly(cfg: Config, m: State, j: Job, a: Act) {
    forall p :: p in a.db.rows && p !in m.db.rows ==>
      && Proposes(j.req) && j.pc.Insert? && p == j.req.pid && p in a.births
      && a.db.rows[p].frozen == NewRow(cfg, j.req.actor.uid, j.pc.d, j.pc.pre, m.clock).frozen
      && a.births[p].plan == DraftPlan(cfg, j.pc.d, j.pc.pre)
  }

  lemma ResolveCarries(cfg: Config, m: State, j: Job, o: Oracle)
    requires Proposes(j.req) && j.pc.Resolve?
    ensures CarriesOn(cfg, m, j, o, Proposing(cfg, m, j, o))
  {
    EmptyDict();
  }

  lemma PreCarries(cfg: Config, m: State, j: Job, o: Oracle)
    requires Proposes(j.req) && !j.req.ProposePlan? && j.pc.Pre? && DictAnswer(o)
    ensures CarriesOn(cfg, m, j, o, Proposing(cfg, m, j, o))
  {
    EmptyDict();
    MockStateDict(m.mock, j.pc.d.target);
  }

  lemma InsertAdds(cfg: Config, m: State, j: Job, o: Oracle)
    requires Proposes(j.req)
    ensures AddsOnly(cfg, m, j, Proposing(cfg, m, j, o))
    ensures j.pc.Insert? ==> Proposing(cfg, m, j, o).pc.None?
  {
  }

  lemma ApproveAdds(cfg: Config, m: State, tid: Tid, j: Job, o: Oracle)
    requires (j.req.Approve? || j.req.Close?) && Fits(j.req, j.pc) && !j.pc.Expire?
    ensures AddsOnly(cfg, m, j, Do(cfg, m, tid, j, o))
  {
    DoPatch(cfg, m, tid, j, o);
  }

  lemma ExpireAdds(cfg: Config, m: State, tid: Tid, j: Job)
    ensures AddsOnly(cfg, m, j, ExpireAct(m, tid, j))
  {
  }

  predicate Drafting(pc: Pc) { pc.Pre? || pc.Insert? }

  lemma ElsewhereCarries(cfg: Config, m: State, tid: Tid, j: Job, o: Oracle, a: Act)
    requires a.pc.Some? ==> !Drafting(a.pc.value)
    ensures CarriesOn(cfg, m, j, o, a)
  {
  }

  lemma NotDrafting(cfg: Config, m: State, tid: Tid, j: Job, o: Oracle)
    requires Fits(j.req, j.pc) && (Holding(j.pc) ==> m.lock == Some(tid)) && (!Proposes(j.req) || j.pc.Expire?)
    ensures var a := Do(cfg, m, tid, j, o); a.pc.Some? ==> !Drafting(a.pc.value)
  {
    DoLock(cfg, m, tid, j, o);
  }

  lemma DoCarriesOn(cfg: Config, m: State, tid: Tid, j: Job, o: Oracle)
    requires Fits(j.req, j.pc) && (Holding(j.pc) ==> m.lock == Some(tid)) && DictAnswer(o)
    requires j.pc.Pre? ==> !j.req.ProposePlan?
    ensures CarriesOn(cfg, m, j, o, Do(cfg, m, tid, j, o))
  {
    if !Proposes(j.req) || j.pc.Expire? {
      NotDrafting(cfg, m, tid, j, o);
      ElsewhereCarries(cfg, m, tid, j, o, Do(cfg, m, tid, j, o));
    }
    else if j.pc.Resolve? { ResolveCarries(cfg, m, j, o); }
    else if j.pc.Pre? { PreCarries(cfg, m, j, o); }
    else { InsertAdds(cfg, m, j, o); }
  }

  lemma DoAdds(cfg: Config, m: State, tid: Tid, j: Job, o: Oracle)
    requires Fits(j.req, j.pc)
    ensures AddsOnly(cfg, m, j, Do(cfg, m, tid, j, o))
  {
    if j.pc.Expire? { ExpireAdds(cfg, m, tid, j); }
    else if j.req.Approve? || j.req.Close? { ApproveAdds(cfg, m, tid, j, o); }
    else if Proposes(j.req) { InsertAdds(cfg, m, j, o); }
  }

  predicate NextTyped(rows: map<Pid, Row>, a: Act, j: Job) {
    a.pc.Some? ==> Typed(rows, Job(j.req, a.pc.value, a.sawAt, a.lockedAt))
  }

  /** An execution and a call are events of an approval that holds the lock. */
  predicate OwnCalls(tid: Tid, j: Job, a: Act) {
    forall e :: e in a.events && (e.Entered? || e.Called?) ==>
      j.req.Approve? && Holding(j.pc) && e.pid == j.req.pid && e.tid == tid
  }

  lemma OpeningTyped(cfg: Config, m: State, tid: Tid, j: Job, o: Oracle)
    requires j.req.Approve? && Typed(m.db.rows, j) && (j.pc.Read? || j.pc.MarkTampered? || j.pc.TryLock?)
    ensures var a := Opening(cfg, m, tid, j, o); NextTyped(m.db.rows, a, j) && OwnCalls(tid, j, a)
  {
  }

  lemma LockingTyped(cfg: Config, m: State, tid: Tid, j: Job, o: Oracle)
    requires j.req.Approve? && Typed(m.db.rows, j) && Holding(j.pc) && StillToEnter(j.pc)
    ensures var a := Locking(cfg, m, tid, j, o); NextTyped(m.db.rows, a, j) && OwnCalls(tid, j, a)
  {
  }

  lemma ExecutingTyped(cfg: Config, m: State, tid: Tid, j: Job, o: Oracle)
    requires j.req.Approve? && Typed(m.db.rows, j) && Running(j.pc)
    ensures var a := Executing(cfg, m, tid, j, o); NextTyped(m.db.rows, a, j) && OwnCalls(tid, j, a)
  {
  }

  lemma EndingTyped(cfg: Config, m: State, tid: Tid, j: Job)
    requires j.req.Approve? && Typed(m.db.rows, j) && (j.pc.Finish? || j.pc.GetFinal? || j.pc.WriteReceipt? || j.pc.Unlock?)
    ensures var a := Ending(m, tid, j); NextTyped(m.db.rows, a, j) && OwnCalls(tid, j, a)
  {
  }

  lemma OthersTyped(cfg: Config, m: State, tid: Tid, j: Job, o: Oracle)
    requires Fits(j.req, j.pc) && (!j.req.Approve? || j.pc.Expire?)
    ensures var a := Do(cfg, m, tid, j, o); NextTyped(m.db.rows, a, j) && OwnCalls(tid, j, a)
  {
    if Proposes(j.req) && !j.pc.Expire? { ProposingQuiet(cfg, m, j, o); }
  }

  lemma DoTyped(cfg: Config, m: State, tid: Tid, j: Job, o: Oracle)
    requires Fits(j.req, j.pc) && Typed(m.db.rows, j)
    ensures var a := Do(cfg, m, tid, j, o); NextTyped(m.db.rows, a, j) && OwnCalls(tid, j, a)
  {
    if !j.req.Approve? || j.pc.Expire? { OthersTyped(cfg, m, tid, j, o); }
    else if j.pc.Read? || j.pc.MarkTampered? || j.pc.TryLock? { OpeningTyped(cfg, m, tid, j, o); }
    else if Running(j.pc) { ExecutingTyped(cfg, m, tid, j, o); }
    else if StillToEnter(j.pc) { LockingTyped(cfg, m, tid, j, o); }
    else { EndingTyped(cfg, m, tid, j); }
  }

  // ----- every run -----

  ghost predicate JobsStem(cfg: Config, s: State, cs: seq<Choice>, r: State) {
    forall t :: t in r.jobs ==> JobStems(cfg, s, cs, t, r.jobs[t]) && Typed(r.db.rows, r.jobs[t])
  }

  ghost predicate RowsStem(cfg: Config, s: State, cs: seq<Choice>, r: State) {
    forall p :: p in r.db.rows ==> p in r.births && Stems(cfg, s, cs, p, r.db.rows[p].frozen, r.births[p].plan)
  }

  ghost predicate LogTyped(cfg: Config, s: State, cs: seq<Choice>, r: State) {
    forall k :: 0 <= k < |r.log| ==> EventTyped(cfg, s, cs, r.db.rows, r.log[k])
  }

  lemma StillEvent(cfg: Config, s: State, cs: seq<Choice>, c: Choice, rows: map<Pid, Row>, later: map<Pid, Row>, e: Event)
    requires EventTyped(cfg, s, cs, rows, e)
    requires forall p :: p in rows ==> p in later && later[p].frozen == rows[p].frozen
    ensures EventTyped(cfg, s, cs + [c], later, e)
  {
    if e.Entered? || e.Called? {
      var req: Request :| ApprovalOf(cfg, s, cs, rows, e, req);
      StillBegun(cfg, s, cs, c, e.tid, req);
      assert ApprovalOf(cfg, s, cs + [c], later, e, req);
    }
  }

  /** What the handler of a step carries after it comes from before or from this step. */
  lemma StepStems(cfg: Config, s: State, cs: seq<Choice>, m: State, c: Choice, a: Act)
    requires m == Run(cfg, s, cs) && c.Go? && c.tid in m.jobs && JobStems(cfg, s, cs, c.tid, m.jobs[c.tid])
    requires CarriesOn(cfg, m, m.jobs[c.tid], c.o, a) && a.pc.Some?
    ensures JobStems(cfg, s, cs + [c], c.tid, Job(m.jobs[c.tid].req, a.pc.value, a.sawAt, a.lockedAt))
  {
    var j := m.jobs[c.tid];
    NowIs(cfg, s, cs, c);
    StillJob(cfg, s, cs, c, c.tid, j);
    if Drafting(a.pc.value) {
      var d := a.pc.value.d;
      if j.pc != Pre(d) { assert DraftedAt(cfg, s, cs + [c], j.req, d, |cs|); }
      if a.pc.value.Insert? { assert SeenAt(cfg, s, cs + [c], c.tid, j.req, d, a.pc.value.pre, |cs|); }
    }
  }

  lemma JobsStemGo(cfg: Config, s: State, cs: seq<Choice>, m: State, c: Choice, a: Act)
    requires m == Run(cfg, s, cs) && c.Go? && c.tid in m.jobs && JobsStem(cfg, s, cs, m)
    requires CarriesOn(cfg, m, m.jobs[c.tid], c.o, a) && NextTyped(m.db.rows, a, m.jobs[c.tid]) && KeepsFrozen(cfg, m, a)
    ensures JobsStem(cfg, s, cs + [c], Apply(m, c.tid, a))
  {
    var r := Apply(m, c.tid, a);
    forall t | t in r.jobs ensures JobStems(cfg, s, cs + [c], t, r.jobs[t]) && Typed(r.db.rows, r.jobs[t]) {
      if t == c.tid { StepStems(cfg, s, cs, m, c, a); } else { StillJob(cfg, s, cs, c, t, m.jobs[t]); }
    }
  }

  lemma NewStems(cfg: Config, s: State, cs: seq<Choice>, m: State, c: Choice, p: Pid, f: Frozen, plan: Json)
    requires m == Run(cfg, s, cs) && c.Go? && c.tid in m.jobs && JobStems(cfg, s, cs, c.tid, m.jobs[c.tid])
    requires Proposes(m.jobs[c.tid].req) && m.jobs[c.tid].pc.Insert? && p == m.jobs[c.tid].req.pid
    requires f == NewRow(cfg, m.jobs[c.tid].req.actor.uid, m.jobs[c.tid].pc.d, m.jobs[c.tid].pc.pre, m.clock).frozen
    requires plan == DraftPlan(cfg, m.jobs[c.tid].pc.d, m.jobs[c.tid].pc.pre)
    ensures Stems(cfg, s, cs + [c], p, f, plan)
  {
    var j := m.jobs[c.tid];
    NowIs(cfg, s, cs, c);
    StillJob(cfg, s, cs, c, c.tid, j);
    assert StemsFrom(cfg, s, cs + [c], p, f, plan, Origin(c.tid, j.req, j.pc.d, j.pc.pre, |cs|));
  }

  lemma RowsStemGo(cfg: Config, s: State, cs: seq<Choice>, m: State, c: Choice, a: Act)
    requires m == Run(cfg, s, cs) && c.Go? && c.tid in m.jobs && JobsStem(cfg, s, cs, m) && RowsStem(cfg, s, cs, m)
    requires AddsOnly(cfg, m, m.jobs[c.tid], a) && KeepsFrozen(cfg, m, a)
    ensures RowsStem(cfg, s, cs + [c], Apply(m, c.tid, a))
  {
    var r, j := Apply(m, c.tid, a), m.jobs[c.tid];
    forall p | p in r.db.rows ensures p in r.births && Stems(cfg, s, cs + [c], p, r.db.rows[p].frozen, r.births[p].plan) {
      if p in m.db.rows {
        StillStems(cfg, s, cs, c, p, r.db.rows[p].frozen, r.births[p].plan);
      } else {
        NewStems(cfg, s, cs, m, c, p, r.db.rows[p].frozen, r.births[p].plan);
      }
    }
  }

  lemma LogTypedGo(cfg: Config, s: State, cs: seq<Choice>, m: State, c: Choice, a: Act)
    requires m == Run(cfg, s, cs) && c.Go? && c.tid in m.jobs && JobsStem(cfg, s, cs, m) && LogTyped(cfg, s, cs, m)
    requires OwnCalls(c.tid, m.jobs[c.tid], a) && KeepsFrozen(cfg, m, a)
    ensures LogTyped(cfg, s, cs + [c], Apply(m, c.tid, a))
  {
    var r, j := Apply(m, c.tid, a), m.jobs[c.tid];
    forall k | 0 <= k < |r.log| ensures EventTyped(cfg, s, cs + [c], r.db.rows, r.log[k]) {
      if k >= |m.log| && (r.log[k].Entered? || r.log[k].Called?) {
        assert r.log[k] in a.events;
        assert ApprovalOf(cfg, s, cs, m.db.rows, r.log[k], j.req);
      }
      StillEvent(cfg, s, cs, c, m.db.rows, r.db.rows, r.log[k]);
    }
  }

  lemma StemsFrame(cfg: Config, s: State, cs: seq<Choice>, m: State, c: Choice, r: State)
    requires m == Run(cfg, s, cs) && Frame(m, r) && RowsStem(cfg, s, cs, m) && LogTyped(cfg, s, cs, m)
    ensures RowsStem(cfg, s, cs + [c], r) && LogTyped(cfg, s, cs + [c], r)
  {
    forall p | p in r.db.rows ensures p in r.births && Stems(cfg, s, cs + [c], p, r.db.rows[p].frozen, r.births[p].plan) {
      StillStems(cfg, s, cs, c, p, r.db.rows[p].frozen, r.births[p].plan);
    }
    forall k | 0 <= k < |r.log| ensures EventTyped(cfg, s, cs + [c], r.db.rows, r.log[k]) {
      StillEvent(cfg, s, cs, c, m.db.rows, r.db.rows, r.log[k]);
    }
  }

  lemma BeginStems(cfg: Config, s: State, cs: seq<Choice>, m: State, c: Choice)
    requires m == Run(cfg, s, cs) && c.Begin? && Permitted(c.req) && DictRequest(c.req)
    ensures JobStems(cfg, s, cs + [c], m.next, Job(c.req, Expire, 0, 0)) && Typed(m.db.rows, Job(c.req, Expire, 0, 0))
  {
    NowIs(cfg, s, cs, c);
    assert BegunAt(cfg, s, cs + [c], m.next, c.req, |cs|);
  }

  lemma JobsStemFrame(cfg: Config, s: State, cs: seq<Choice>, m: State, c: Choice)
    requires m == Run(cfg, s, cs) && !Enabled(m, c) && JobsStem(cfg, s, cs, m)
    ensures JobsStem(cfg, s, cs + [c], Next(cfg, m, c))
  {
    var r := Next(cfg, m, c);
    NowIs(cfg, s, cs, c);
    NextFrame(cfg, m, c);
    forall t | t in r.jobs ensures JobStems(cfg, s, cs + [c], t, r.jobs[t]) && Typed(r.db.rows, r.jobs[t]) {
      if t in m.jobs && r.jobs[t] == m.jobs[t] {
        StillJob(cfg, s, cs, c, t, m.jobs[t]);
      } else {
        BeginStems(cfg, s, cs, m, c);
      }
    }
  }

  ghost predicate OriginInv(cfg: Config, s: State, cs: seq<Choice>, r: State) {
    r == Run(cfg, s, cs) && JobsStem(cfg, s, cs, r) && RowsStem(cfg, s, cs, r) && LogTyped(cfg, s, cs, r)
  }

  lemma OriginGo(cfg: Config, s: State, cs: seq<Choice>, m: State, c: Choice)
    requires OriginInv(cfg, s, cs, m) && LockInv(m) && HistoryInv(m) && FrozenInv(cfg, m) && Enabled(m, c)
    ensures OriginInv(cfg, s, cs + [c], Next(cfg, m, c))
  {
    var j := m.jobs[c.tid];
    var a := Do(cfg, m, c.tid, j, c.o);
    assert CopyOk(m.db.rows, j);
    NextApply(cfg, m, c);
    DoKeeps(cfg, m, c.tid, j, c.o);
    DoCarriesOn(cfg, m, c.tid, j, c.o);
    DoAdds(cfg, m, c.tid, j, c.o);
    DoTyped(cfg, m, c.tid, j, c.o);
    JobsStemGo(cfg, s, cs, m, c, a);
    RowsStemGo(cfg, s, cs, m, c, a);
    LogTypedGo(cfg, s, cs, m, c, a);
    NowIs(cfg, s, cs, c);
  }

  lemma OriginNext(cfg: Config, s: State, cs: seq<Choice>, m: State, c: Choice)
    requires OriginInv(cfg, s, cs, m) && LockInv(m) && HistoryInv(m) && FrozenInv(cfg, m)
    ensures OriginInv(cfg, s, cs + [c], Next(cfg, m, c))
  {
    if Enabled(m, c) {
      OriginGo(cfg, s, cs, m, c);
    } else {
      NextFrame(cfg, m, c);
      StemsFrame(cfg, s, cs, m, c, Next(cfg, m, c));
      JobsStemFrame(cfg, s, cs, m, c);
      NowIs(cfg, s, cs, c);
    }
  }

  lemma {:induction false} OriginRun(cfg: Config, s: State, cs: seq<Choice>)
    requires Initial(s)
    ensures OriginInv(cfg, s, cs, Run(cfg, s, cs))
  {
    if cs == [] {
    } else {
      var init, c := cs[..|cs| - 1], cs[|cs| - 1];
      OriginRun(cfg, s, init);
      FrozenRun(cfg, s, init);
      OriginNext(cfg, s, init, Run(cfg, s, init), c);
      assert init + [c] == cs;
    }
  }

  // ----- the theorems -----

  /** Over every run, every row: somebody who may read began a request for it; its columns and the plan it was hashed with
      are what that request asked for, checked against the inventory of the moment it was resolved; the state it was frozen
      with is what was observed then; and its lifetime counts from the clock of its insertion. */
  lemma RowIsAsked(cfg: Config, s: State, cs: seq<Choice>, p: Pid)
    returns (req: Request, t: Target, i: nat, k: nat, m: nat, n: nat)
    requires Initial(s) && p in Run(cfg, s, cs).db.rows
    ensures i < |cs| && cs[i] == Begin(req) && Proposes(req) && req.actor.canRead && req.pid == p
    ensures k < |cs| && m < |cs| && n < |cs| && p in Run(cfg, s, cs).births
    ensures var f, plan := Run(cfg, s, cs).db.rows[p].frozen, Run(cfg, s, cs).births[p].plan;
            && AskedOf(cfg, StateAt(cfg, s, cs, k).db.inventory, req, t, f, plan)
            && f.createdAt == StateAt(cfg, s, cs, n).clock && f.expiresAt == f.createdAt + cfg.ttl
            && cs[m].Go? && Observes(StateAt(cfg, s, cs, m).mock, req, f.adapter, f.targetId, cs[m].o.observed, f.preState)
  {
    OriginRun(cfg, s, cs);
    var r := Run(cfg, s, cs);
    var o: Origin :| StemsFrom(cfg, s, cs, p, r.db.rows[p].frozen, r.births[p].plan, o);
    req, t := o.req, o.d.target;
    i :| BegunAt(cfg, s, cs, o.tid, req, i);
    k :| DraftedAt(cfg, s, cs, req, o.d, k);
    m :| SeenAt(cfg, s, cs, o.tid, req, o.d, o.pre, m);
    n := o.at;
    FrozenAsAsked(cfg, StateAt(cfg, s, cs, k).db.inventory, req, o.d, o.pre, StateAt(cfg, s, cs, n).clock);
  }

  predicate HighStep(step: Json) {
    Get(step, "operation").Str? && Get(step, "operation").s in {"mock.halt", "vm.stop", "ct.stop"}
  }

  /** What has to be typed for the row: the phrase of a HIGH operation, of a script, of a plan with a HIGH step. */
  ghost predicate Spells(f: Frozen, plan: Json, typed: string) {
    && (f.operation == "vm.stop" || f.operation == "ct.stop" ==> typed == "STOP " + f.targetName)
    && (f.operation == "mock.halt" ==> typed == "HALT " + f.targetName)
    && (f.operation == "script.run" ==> typed == "APPROVE " + f.targetName)
    && (f.operation == "plan.run" && (exists i :: 0 <= i < |Steps(plan)| && HighStep(Steps(plan)[i])) ==>
          typed == "APPROVE PLAN " + f.targetName)
  }

  lemma NamesApart(name: string)
    ensures GetOperation(name).Some? ==> name != "plan.run" && name != "script.run"
    ensures name in HIGH_OPERATIONS <==> name == "mock.halt" || name == "vm.stop" || name == "ct.stop"
  {
    OneParameter(name);
  }

  lemma PlanSpells(cfg: Config, inv: map<string, Target>, steps: seq<StepRequest>, declared: Json, t: Target, f: Frozen,
                   plan: Json)
    requires PlanFrozen(cfg, inv, steps, declared, t, f, plan)
    ensures (exists i :: 0 <= i < |Steps(plan)| && HighStep(Steps(plan)[i])) ==> f.risk == HIGH
    ensures f.risk == HIGH ==> f.confirmation == "APPROVE PLAN " + f.targetName
  {
    forall i | 0 <= i < |Steps(plan)| && HighStep(Steps(plan)[i]) ensures steps[i].operation in HIGH_OPERATIONS {
      assert StepAsked(cfg, inv, steps[i], Steps(plan)[i]);
    }
  }

  lemma ConfirmationSpells(cfg: Config, inv: map<string, Target>, req: Request, t: Target, f: Frozen, plan: Json,
                           typed: string)
    requires AskedOf(cfg, inv, req, t, f, plan) && (f.risk == HIGH ==> typed == f.confirmation)
    ensures Spells(f, plan, typed)
  {
    NamesApart(f.operation);
    if req.ProposePlan? { PlanSpells(cfg, inv, req.steps, req.declared, t, f, plan); }
  }

  /** Over every run: each execution and each call of a row was made by a handler that an approver began for that row, and
      who typed the phrase if the row is a HIGH operation, a script or a plan with a HIGH step. */
  lemma ExecutedByPhrase(cfg: Config, s: State, cs: seq<Choice>, k: nat) returns (actor: Actor, typed: string, i: nat)
    requires Initial(s) && k < |Run(cfg, s, cs).log| && (Run(cfg, s, cs).log[k].Entered? || Run(cfg, s, cs).log[k].Called?)
    ensures var e := Run(cfg, s, cs).log[k];
            && i < |cs| && cs[i] == Begin(Approve(actor, e.pid, typed)) && actor.canApprove
            && StateAt(cfg, s, cs, i).next == e.tid
    ensures var r, p := Run(cfg, s, cs), Run(cfg, s, cs).log[k].pid;
            p in r.db.rows && p in r.births && Spells(r.db.rows[p].frozen, r.births[p].plan, typed)
  {
    OriginRun(cfg, s, cs);
    var r, e := Run(cfg, s, cs), Run(cfg, s, cs).log[k];
    assert EventTyped(cfg, s, cs, r.db.rows, e);
    var req: Request :| ApprovalOf(cfg, s, cs, r.db.rows, e, req);
    actor, typed := req.actor, req.confirmation;
    i :| BegunAt(cfg, s, cs, e.tid, req, i);
    var asked, t, _, at, _, _ := RowIsAsked(cfg, s, cs, e.pid);
    ConfirmationSpells(cfg, StateAt(cfg, s, cs, at).db.inventory, asked, t, r.db.rows[e.pid].frozen, r.births[e.pid].plan,
                       typed);
  }
}
