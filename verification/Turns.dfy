/** The run of the step machine that goes along with a call of the service: one lemma for each step a method makes. */
module Turns {
  import opened Options
  import opened JsonText
  import opened Registry
  import opened Lifecycle
  import opened Serial
  import opened Receipts
  import Threads

  /** A run: the choices made from `start`, and the state they lead to. */
  datatype Trace = Trace(cfg: Config, start: State, cs: seq<Choice>, s: State)

  /** The state is reached from an initial one by serving requests one at a time without breaking any. The two
      predicates are one definition in two halves, which keeps it folded where it is only passed on. */
  ghost predicate Reached(cfg: Config, start: State, cs: seq<Choice>, s: State)
    decreases |cs|, 1
  {
    ReachedBy(cfg, start, cs, s)
  }

  ghost predicate ReachedBy(cfg: Config, start: State, cs: seq<Choice>, s: State)
    decreases |cs|, 0
  {
    if cs == [] then Initial(start) && s == start
    else exists m ::
      && Reached(cfg, start, cs[..|cs| - 1], m) && s == Next(cfg, m, cs[|cs| - 1])
      && (cs[|cs| - 1].Begin? ==> m.jobs == map[]) && !Breaks(m, cs[|cs| - 1])
  }

  ghost predicate Sound(g: Trace) { Reached(g.cfg, g.start, g.cs, g.s) }

  lemma Starts(cfg: Config, s: State) returns (g: Trace)
    requires Initial(s)
    ensures Sound(g) && g == Trace(cfg, s, [], s)
  {
    g := Trace(cfg, s, [], s);
    assert ReachedBy(cfg, s, [], s);
  }

  lemma Extend(g: Trace, c: Choice) returns (h: Trace)
    requires Sound(g) && (c.Begin? ==> g.s.jobs == map[]) && !Breaks(g.s, c)
    ensures Sound(h) && h == Trace(g.cfg, g.start, g.cs + [c], Next(g.cfg, g.s, c))
  {
    var cs, s := g.cs + [c], Next(g.cfg, g.s, c);
    assert cs[..|cs| - 1] == g.cs;
    assert ReachedBy(g.cfg, g.start, cs, s);
    h := Trace(g.cfg, g.start, cs, s);
  }

  /** A sound trace is a serialized, unbroken run of the step machine. */
  lemma {:induction false} ReachedIsARun(cfg: Config, start: State, cs: seq<Choice>, s: State)
    requires Reached(cfg, start, cs, s)
    ensures Initial(start) && s == Run(cfg, start, cs) && OneAtATime(cfg, start, cs) && Unbroken(cfg, start, cs)
  {
    assert ReachedBy(cfg, start, cs, s);
    if cs == [] {
    } else {
      var init := cs[..|cs| - 1];
      var m :| Reached(cfg, start, init, m) && s == Next(cfg, m, cs[|cs| - 1])
               && (cs[|cs| - 1].Begin? ==> m.jobs == map[]) && !Breaks(m, cs[|cs| - 1]);
      ReachedIsARun(cfg, start, init, m);
    }
  }

  // ----- where the one handler is -----

  /** One live handler, the newest, at `pc` of `req`. */
  ghost predicate Solo(s: State, req: Request, pc: Pc) {
    && s.next > 0 && s.jobs.Keys == {s.next - 1} && s.jobs[s.next - 1].req == req && s.jobs[s.next - 1].pc == pc
    && s.lock == if Holding(pc) then Some(s.next - 1) else None
  }

  ghost predicate Gone(s: State) { s.jobs == map[] && s.lock == None }

  /** What every sound trace says of a row between requests. */
  lemma SoundTables(g: Trace, p: Pid)
    requires Sound(g) && Gone(g.s)
    ensures p in g.s.db.receipts <==> p in g.s.db.rows && Closed(g.s.db.rows[p])
    ensures p in g.s.db.receipts ==> Agrees(g.s.db.receipts[p], g.s.db.rows[p])
    ensures Threads.Entries(g.s.log, p) <= 1
  {
    ReachedIsARun(g.cfg, g.start, g.cs, g.s);
    ReceiptsExactly(g.cfg, g.start, g.cs, p);
    SerialExecutesOnce(g.cfg, g.start, g.cs, p);
  }

  ghost predicate Live(g: Trace, req: Request, pc: Pc) { Sound(g) && Solo(g.s, req, pc) }

  ghost predicate Between(g: Trace) { Sound(g) && Gone(g.s) }

  predicate Later(g: Trace, h: Trace) { h.cfg == g.cfg && h.start == g.start && g.cs <= h.cs }

  /** The run got longer, and its last state differs only in these tables, this counter and who is where. */
  predicate Onward(g: Trace, h: Trace, db: Db, mock: int) {
    Later(g, h) && h.s.db == db && h.s.mock == mock && h.s.clock == g.s.clock
  }

  function Rows(g: Trace, pid: Pid, p: Patch): Db { g.s.db.(rows := Update(g.s.db.rows, pid, p)) }

  function Handler(g: Trace): Tid { if g.s.next > 0 then g.s.next - 1 else 0 }

  lemma Turn(g: Trace, o: Oracle) returns (h: Trace)
    requires Sound(g) && g.s.next > 0
    ensures Sound(h) && Later(g, h) && h.s == Next(g.cfg, g.s, Go(g.s.next - 1, o))
  {
    h := Extend(g, Go(g.s.next - 1, o));
  }

  // ----- every request -----

  lemma Begins(g: Trace, req: Request) returns (h: Trace)
    requires Between(g) && Permitted(req) && DictRequest(req)
    ensures Live(h, req, Expire) && Onward(g, h, g.s.db, g.s.mock)
  {
    h := Extend(g, Begin(req));
  }

  lemma Ticks(g: Trace, t: int) returns (h: Trace)
    requires Sound(g)
    ensures Sound(h) && Later(g, h) && h.s == g.s.(clock := t)
  {
    h := Extend(g, Tick(t));
  }

  lemma ExpiresRows(g: Trace, req: Request) returns (h: Trace)
    requires Live(g, req, Expire) && !req.Look?
    ensures Live(h, req, First(req))
    ensures Onward(g, h, g.s.db.(rows := ExpireRows(g.s.db.rows, g.s.clock)), g.s.mock)
  {
    h := Turn(g, SILENT);
  }

  lemma LooksOnly(g: Trace, req: Request) returns (h: Trace)
    requires Live(g, req, Expire) && req.Look?
    ensures Between(h) && Onward(g, h, g.s.db.(rows := ExpireRows(g.s.db.rows, g.s.clock)), g.s.mock)
  {
    h := Turn(g, SILENT);
  }

  lemma Restarts(g: Trace, synced: map<string, Target>) returns (h: Trace)
    requires Between(g)
    ensures Between(h) && Onward(g, h, g.s.db.(inventory := g.s.db.inventory + synced), g.s.mock)
  {
    h := Extend(g, Restart(synced));
  }

  /** A step that takes the handler to another point outside the lock and leaves the tables and the counter alone. */
  predicate Passing(s: State, a: Act, to_: Pc) {
    a.db == s.db && a.mock == s.mock && a.lock == s.lock && a.pc == Some(to_)
  }

  lemma Moves(g: Trace, h: Trace, req: Request, from: Pc, to_: Pc, a: Act)
    requires Live(g, req, from) && Sound(h) && Later(g, h) && !Holding(from) && !Holding(to_)
    requires Passing(g.s, a, to_) && h.s == Apply(g.s, g.s.next - 1, a)
    ensures Live(h, req, to_) && Onward(g, h, g.s.db, g.s.mock)
  {
  }

  lemma StepsTo(g: Trace, req: Request, from: Pc, to_: Pc, o: Oracle, a: Act) returns (h: Trace)
    requires Live(g, req, from) && !Holding(from) && !Holding(to_) && DictAnswer(o)
    requires a == Do(g.cfg, g.s, g.s.next - 1, g.s.jobs[g.s.next - 1], o) && Passing(g.s, a, to_)
    ensures Live(h, req, to_) && Onward(g, h, g.s.db, g.s.mock)
  {
    h := Turn(g, o);
    Threads.NextApply(g.cfg, g.s, Go(g.s.next - 1, o));
    Moves(g, h, req, from, to_, a);
  }

  // ----- approve, up to the lock -----

  lemma ReadAct(cfg: Config, s: State, x: Tid, j: Job, p: Proposal)
    requires j.pc.Read? && j.req.Approve? && Fetch(s.db, j.req.pid) == Some(p)
    requires p.row.frozen.clientId == cfg.client.clientId && p.row.status == PROPOSED
    requires HashOk(p) && p.row.frozen.risk == HIGH ==> j.req.confirmation == p.row.frozen.confirmation
    ensures Passing(s, Do(cfg, s, x, j, SILENT), if HashOk(p) then TryLock(p) else MarkTampered)
  {
  }

  lemma ReadsRow(g: Trace, req: Request, p: Proposal) returns (h: Trace)
    requires Live(g, req, Read) && req.Approve? && Fetch(g.s.db, req.pid) == Some(p)
    requires p.row.frozen.clientId == g.cfg.client.clientId && p.row.status == PROPOSED
    requires HashOk(p) && p.row.frozen.risk == HIGH ==> req.confirmation == p.row.frozen.confirmation
    ensures Live(h, req, if HashOk(p) then TryLock(p) else MarkTampered) && Onward(g, h, g.s.db, g.s.mock)
  {
    var x := g.s.next - 1;
    ReadAct(g.cfg, g.s, x, g.s.jobs[x], p);
    h := StepsTo(g, req, Read, if HashOk(p) then TryLock(p) else MarkTampered, SILENT,
                 Do(g.cfg, g.s, x, g.s.jobs[x], SILENT));
  }

  predicate Unapprovable(cfg: Config, q: Option<Proposal>, confirmation: string) {
    || q.None? || q.value.row.frozen.clientId != cfg.client.clientId || q.value.row.status != PROPOSED
    || (HashOk(q.value) && q.value.row.frozen.risk == HIGH && confirmation != q.value.row.frozen.confirmation)
  }

  lemma ReadsRefused(g: Trace, req: Request) returns (h: Trace)
    requires Live(g, req, Read) && req.Approve? && Unapprovable(g.cfg, Fetch(g.s.db, req.pid), req.confirmation)
    ensures Between(h) && Onward(g, h, g.s.db, g.s.mock)
  {
    h := Turn(g, SILENT);
  }

  lemma MarksTampered(g: Trace, req: Request) returns (h: Trace)
    requires Live(g, req, MarkTampered) && req.Approve?
    ensures Between(h) && Onward(g, h, Rows(g, req.pid, EndPatch(FAILED, g.s.clock)), g.s.mock)
  {
    h := Turn(g, SILENT);
  }

  lemma FailsLock(g: Trace, req: Request, p: Proposal) returns (h: Trace)
    requires Live(g, req, TryLock(p)) && req.Approve?
    ensures Between(h) && Onward(g, h, g.s.db, g.s.mock)
  {
    h := Turn(g, SILENT);
  }

  lemma TakesLock(g: Trace, req: Request, p: Proposal) returns (h: Trace)
    requires Live(g, req, TryLock(p)) && req.Approve?
    ensures Live(h, req, CheckTime(p)) && Onward(g, h, g.s.db, g.s.mock)
  {
    h := Turn(g, Oracle(true, 1, None));
  }

  // ----- approve, under the lock -----

  lemma ChecksTime(g: Trace, req: Request, p: Proposal) returns (h: Trace)
    requires Live(g, req, CheckTime(p)) && req.Approve?
    ensures Live(h, req, if g.s.clock >= p.row.frozen.expiresAt then Abandon(EXPIRED) else MarkApproved)
    ensures Onward(g, h, g.s.db, g.s.mock)
  {
    h := Turn(g, SILENT);
  }

  lemma Abandons(g: Trace, req: Request, status: Status) returns (h: Trace)
    requires Live(g, req, Abandon(status)) && req.Approve?
    ensures Live(h, req, Unlock) && Onward(g, h, Rows(g, req.pid, EndPatch(status, g.s.clock)), g.s.mock)
  {
    h := Turn(g, SILENT);
  }

  lemma Approves(g: Trace, req: Request) returns (h: Trace)
    requires Live(g, req, MarkApproved) && req.Approve?
    ensures Live(h, req, Reread) && Onward(g, h, Rows(g, req.pid, ApprovePatch(req.actor.name, g.s.clock)), g.s.mock)
  {
    h := Turn(g, SILENT);
  }

  lemma Rereads(g: Trace, req: Request, p: Proposal) returns (h: Trace)
    requires Live(g, req, Reread) && req.Approve? && Fetch(g.s.db, req.pid) == Some(p)
    ensures Live(h, req, if HashOk(p) then Recheck(p) else Abandon(FAILED)) && Onward(g, h, g.s.db, g.s.mock)
  {
    h := Turn(g, SILENT);
  }

  lemma Rechecks(g: Trace, req: Request, p: Proposal) returns (h: Trace)
    requires Live(g, req, Recheck(p)) && req.Approve?
    ensures Live(h, req, if g.s.clock >= p.row.frozen.expiresAt then Abandon(EXPIRED) else FindTarget(p))
    ensures Onward(g, h, g.s.db, g.s.mock)
  {
    h := Turn(g, SILENT);
  }

  /** The row's target is in the inventory and belongs to this client. */
  predicate TargetThere(cfg: Config, inv: map<string, Target>, id: string) {
    id in inv && inv[id].clientId == cfg.client.clientId
  }

  lemma FindsTarget(g: Trace, req: Request, p: Proposal) returns (h: Trace)
    requires Live(g, req, FindTarget(p)) && req.Approve?
    ensures var id := p.row.frozen.targetId;
            Live(h, req, if TargetThere(g.cfg, g.s.db.inventory, id) then MarkExecuting(p, g.s.db.inventory[id]) else Abandon(FAILED))
    ensures Onward(g, h, g.s.db, g.s.mock)
  {
    h := Turn(g, SILENT);
  }

  lemma StartsExecuting(g: Trace, req: Request, p: Proposal, t: Target) returns (h: Trace)
    requires Live(g, req, MarkExecuting(p, t)) && req.Approve?
    ensures Live(h, req, if p.row.frozen.operation == "plan.run" then Step(p, 0) else Precheck(p, t))
    ensures Onward(g, h, Rows(g, req.pid, StartPatch(g.s.clock)), g.s.mock)
  {
    h := Turn(g, SILENT);
  }

  // ----- the adapter calls -----

  /** A single operation is called: its adapter is there and the observed state still matches the stored one. */
  predicate SingleReady(cfg: Config, mock: int, p: Proposal, t: Target, observed: Option<Json>) {
    var seen := if p.row.frozen.adapter == "mock" then Some(MockState(mock, t)) else observed;
    p.row.frozen.adapter in cfg.adapters && seen.Some? && Holds(p.row.frozen.adapter, p.row.frozen.preState, seen.value)
  }

  lemma Prechecks(g: Trace, req: Request, p: Proposal, t: Target, observed: Option<Json>) returns (h: Trace)
    requires Live(g, req, Precheck(p, t)) && req.Approve? && (observed.Some? ==> IsDict(observed.value))
    requires p.row.frozen.operation != "script.run"
    ensures Live(h, req, if SingleReady(g.cfg, g.s.mock, p, t, observed) then Call(p, t, Single) else Finish(1))
    ensures Onward(g, h, g.s.db, g.s.mock) && h.s.log == g.s.log && Handler(h) == Handler(g)
  {
    h := Turn(g, Oracle(true, 1, observed));
  }

  lemma PrechecksScript(g: Trace, req: Request, p: Proposal, t: Target, intact: bool) returns (h: Trace)
    requires Live(g, req, Precheck(p, t)) && req.Approve? && p.row.frozen.operation == "script.run"
    ensures Live(h, req, if p.row.frozen.adapter in g.cfg.adapters && intact && Has(p.plan, "script") then Call(p, t, Script)
                         else Finish(1))
    ensures Onward(g, h, g.s.db, g.s.mock) && h.s.log == g.s.log && Handler(h) == Handler(g)
  {
    h := Turn(g, Oracle(intact, 1, None));
  }

  lemma StepsOn(g: Trace, req: Request, p: Proposal, i: nat, ready: bool) returns (h: Trace)
    requires Live(g, req, Step(p, i)) && req.Approve? && i < |Steps(p.plan)|
    ensures Live(h, req, if StepReady(g.cfg, g.s.db.inventory, Steps(p.plan)[i], Oracle(ready, 1, None))
                         then Call(p, g.s.db.inventory[Text(Get(Steps(p.plan)[i], "target_id"))], Nth(i)) else Finish(1))
    ensures Onward(g, h, g.s.db, g.s.mock) && h.s.log == g.s.log && Handler(h) == Handler(g)
  {
    h := Turn(g, Oracle(ready, 1, None));
  }

  lemma StepsEnd(g: Trace, req: Request, p: Proposal, i: nat) returns (h: Trace)
    requires Live(g, req, Step(p, i)) && req.Approve? && i >= |Steps(p.plan)|
    ensures Live(h, req, Finish(if Get(p.plan, "steps").Arr? then 0 else 1))
    ensures Onward(g, h, g.s.db, g.s.mock) && h.s.log == g.s.log && Handler(h) == Handler(g)
  {
    h := Turn(g, SILENT);
  }

  lemma Calls(g: Trace, req: Request, p: Proposal, t: Target, w: Where) returns (h: Trace)
    requires Live(g, req, Call(p, t, w)) && req.Approve?
    ensures Live(h, req, Returning(p, t, w, g.s.mock)) && Onward(g, h, g.s.db, g.s.mock)
    ensures h.s.log == g.s.log + [Called(Handler(g), req.pid, w, What(p, w))] && Handler(h) == Handler(g)
  {
    h := Turn(g, SILENT);
  }

  lemma Returns(g: Trace, req: Request, p: Proposal, t: Target, w: Where, before: int, rc: int) returns (h: Trace)
    requires Live(g, req, Returning(p, t, w, before)) && req.Approve?
    ensures var r := CallRc(p, w, Oracle(true, rc, None));
            && Live(h, req, After(p, w, r))
            && h.s.log == g.s.log + [Returned(Handler(g), req.pid, w, r, Counts(p, w))] && Handler(h) == Handler(g)
    ensures Onward(g, h, g.s.db, if Counts(p, w) then before + 1 else g.s.mock)
  {
    h := Turn(g, Oracle(true, rc, None));
  }

  // ----- the end of an execution -----

  lemma Finishes(g: Trace, req: Request, rc: int) returns (h: Trace)
    requires Live(g, req, Finish(rc)) && req.Approve?
    ensures Live(h, req, GetFinal(rc)) && Onward(g, h, Rows(g, req.pid, ResultPatch(rc, g.s.clock)), g.s.mock)
  {
    h := Turn(g, SILENT);
  }

  lemma ReadsFinal(g: Trace, req: Request, rc: int) returns (h: Trace)
    requires Live(g, req, GetFinal(rc)) && req.Approve? && Fetch(g.s.db, req.pid).Some?
    ensures Live(h, req, WriteReceipt(g.s.db.rows[req.pid], rc)) && Onward(g, h, g.s.db, g.s.mock)
  {
    h := Turn(g, SILENT);
  }

  lemma WritesReceipt(g: Trace, req: Request, row: Row, rc: int) returns (h: Trace)
    requires Live(g, req, WriteReceipt(row, rc)) && req.Approve?
    ensures Live(h, req, Unlock)
    ensures var receipt := Receipt(if rc == 0 then SUCCEEDED else FAILED, req.actor.name, Some(rc), row);
            Onward(g, h, g.s.db.(receipts := g.s.db.receipts[req.pid := receipt]), g.s.mock)
  {
    h := Turn(g, SILENT);
  }

  lemma Unlocks(g: Trace, req: Request) returns (h: Trace)
    requires Live(g, req, Unlock) && req.Approve?
    ensures Between(h) && Onward(g, h, g.s.db, g.s.mock)
  {
    h := Turn(g, SILENT);
  }

  // ----- reject and cancel -----

  predicate Closable(cfg: Config, q: Option<Proposal>, actor: Actor, verdict: Status) {
    && q.Some? && q.value.row.frozen.clientId == cfg.client.clientId && q.value.row.status == PROPOSED
    && (verdict == CANCELLED ==> q.value.row.frozen.requestUid == actor.uid || actor.canApprove)
  }

  lemma ReadsToClose(g: Trace, req: Request) returns (h: Trace)
    requires Live(g, req, CloseRead) && req.Close?
    ensures Sound(h) && Onward(g, h, g.s.db, g.s.mock)
    ensures if Closable(g.cfg, Fetch(g.s.db, req.pid), req.actor, req.verdict) then Live(h, req, CloseMark) else Gone(h.s)
  {
    h := Turn(g, SILENT);
  }

  lemma MarksClosed(g: Trace, req: Request) returns (h: Trace)
    requires Live(g, req, CloseMark) && req.Close?
    ensures Live(h, req, CloseGet)
    ensures Onward(g, h, Rows(g, req.pid, ClosePatch(req.verdict, req.actor.name, g.s.clock)), g.s.mock)
  {
    h := Turn(g, SILENT);
  }

  lemma ReadsClosed(g: Trace, req: Request) returns (h: Trace)
    requires Live(g, req, CloseGet) && req.Close? && Fetch(g.s.db, req.pid).Some?
    ensures Live(h, req, CloseReceipt(g.s.db.rows[req.pid])) && Onward(g, h, g.s.db, g.s.mock)
  {
    h := Turn(g, SILENT);
  }

  lemma WritesClosed(g: Trace, req: Request, row: Row) returns (h: Trace)
    requires Live(g, req, CloseReceipt(row)) && req.Close?
    ensures Between(h)
    ensures var receipt := Receipt(req.verdict, req.actor.name, None, row);
            Onward(g, h, g.s.db.(receipts := g.s.db.receipts[req.pid := receipt]), g.s.mock)
  {
    h := Turn(g, SILENT);
  }

  // ----- proposing -----

  predicate IsProposal(req: Request) { req.Propose? || req.ProposePlan? || req.ProposeScript? }

  lemma Declines(g: Trace, req: Request) returns (h: Trace)
    requires Live(g, req, Resolve) && IsProposal(req) && Resolved(g.cfg, g.s.db.inventory, req) == None
    ensures Between(h) && Onward(g, h, g.s.db, g.s.mock)
  {
    h := Turn(g, SILENT);
  }

  function DraftPoint(s: State, req: Request, d: Draft): Pc {
    if req.ProposePlan? then Insert(d, Obj([]), |s.log|) else Pre(d)
  }

  lemma DraftAct(cfg: Config, s: State, x: Tid, j: Job, d: Draft)
    requires j.pc == Resolve && IsProposal(j.req) && Resolved(cfg, s.db.inventory, j.req) == Some(d)
    ensures Do(cfg, s, x, j, SILENT) == To(s, j, DraftPoint(s, j.req, d))
  {
  }

  lemma Drafts(g: Trace, req: Request, d: Draft) returns (h: Trace)
    requires Live(g, req, Resolve) && IsProposal(req) && Resolved(g.cfg, g.s.db.inventory, req) == Some(d)
    ensures Live(h, req, DraftPoint(g.s, req, d)) && Onward(g, h, g.s.db, g.s.mock)
  {
    var j := g.s.jobs[g.s.next - 1];
    DraftAct(g.cfg, g.s, g.s.next - 1, j, d);
    h := StepsTo(g, req, Resolve, DraftPoint(g.s, req, d), SILENT, To(g.s, j, DraftPoint(g.s, req, d)));
  }

  /** The request is declined, or its draft is made. */
  lemma Resolves(g: Trace, req: Request) returns (h: Trace)
    requires Live(g, req, Resolve) && IsProposal(req)
    ensures Sound(h) && Onward(g, h, g.s.db, g.s.mock)
    ensures var d := Resolved(g.cfg, g.s.db.inventory, req);
            if d.None? then Gone(h.s)
            else Live(h, req, DraftPoint(g.s, req, d.value))
  {
    var d := Resolved(g.cfg, g.s.db.inventory, req);
    if d.None? { h := Declines(g, req); } else { h := Drafts(g, req, d.value); }
  }

  /** What the precheck of a draft observes: the mock adapter's own state, or the host's answer. */
  function Observed(mock: int, d: Draft, answer: Option<Json>): Option<Json> {
    if d.adapter == "mock" then Some(MockState(mock, d.target)) else answer
  }

  lemma PreAct(cfg: Config, s: State, x: Tid, j: Job, d: Draft, answer: Option<Json>, pre: Json)
    requires j.pc == Pre(d) && (j.req.Propose? || j.req.ProposeScript?)
    requires Observed(s.mock, d, answer) == Some(pre)
             || (Observed(s.mock, d, answer) == None && j.req.ProposeScript? && pre == Obj([]))
    ensures Passing(s, Do(cfg, s, x, j, Oracle(false, 1, answer)), Insert(d, pre, |s.log|))
  {
  }

  lemma Freezes(g: Trace, req: Request, d: Draft, answer: Option<Json>, pre: Json) returns (h: Trace)
    requires Live(g, req, Pre(d)) && (req.Propose? || req.ProposeScript?) && (answer.Some? ==> IsDict(answer.value))
    requires Observed(g.s.mock, d, answer) == Some(pre)
             || (Observed(g.s.mock, d, answer) == None && req.ProposeScript? && pre == Obj([]))
    ensures Live(h, req, Insert(d, pre, |g.s.log|)) && Onward(g, h, g.s.db, g.s.mock)
  {
    var x := g.s.next - 1;
    PreAct(g.cfg, g.s, x, g.s.jobs[x], d, answer, pre);
    h := StepsTo(g, req, Pre(d), Insert(d, pre, |g.s.log|), Oracle(false, 1, answer),
                 Do(g.cfg, g.s, x, g.s.jobs[x], Oracle(false, 1, answer)));
  }

  lemma NotAnswered(g: Trace, req: Request, d: Draft, answer: Option<Json>) returns (h: Trace)
    requires Live(g, req, Pre(d)) && req.Propose? && (answer.Some? ==> IsDict(answer.value))
    requires Observed(g.s.mock, d, answer) == None
    ensures Between(h) && Onward(g, h, g.s.db, g.s.mock)
  {
    h := Turn(g, Oracle(false, 1, answer));
  }

  lemma PrechecksDraft(g: Trace, req: Request, d: Draft, answer: Option<Json>) returns (h: Trace)
    requires Live(g, req, Pre(d)) && (req.Propose? || req.ProposeScript?)
    requires answer.Some? ==> IsDict(answer.value)
    ensures Sound(h) && Onward(g, h, g.s.db, g.s.mock)
    ensures var seen := Observed(g.s.mock, d, answer);
            if seen.Some? then Live(h, req, Insert(d, seen.value, |g.s.log|))
            else if req.ProposeScript? then Live(h, req, Insert(d, Obj([]), |g.s.log|))
            else Gone(h.s)
  {
    var seen := Observed(g.s.mock, d, answer);
    if seen.Some? { h := Freezes(g, req, d, answer, seen.value); }
    else if req.ProposeScript? { h := Freezes(g, req, d, answer, Obj([])); }
    else { h := NotAnswered(g, req, d, answer); }
  }

  lemma Inserts(g: Trace, req: Request, d: Draft, pre: Json, at: nat) returns (h: Trace)
    requires Live(g, req, Insert(d, pre, at)) && (req.Propose? || req.ProposePlan? || req.ProposeScript?)
    ensures Between(h)
    ensures var row := NewRow(g.cfg, req.actor.uid, d, pre, g.s.clock);
            Onward(g, h, g.s.db.(rows := if req.pid in g.s.db.rows then g.s.db.rows else g.s.db.rows[req.pid := row]), g.s.mock)
  {
    h := Turn(g, SILENT);
  }

  /** The clock is read and the row put in. */
  lemma InsertsAt(g: Trace, req: Request, d: Draft, pre: Json, at: nat, now: int) returns (h: Trace)
    requires Live(g, req, Insert(d, pre, at)) && (req.Propose? || req.ProposePlan? || req.ProposeScript?)
    ensures Between(h) && Later(g, h) && h.s.mock == g.s.mock
    ensures var rows, row := g.s.db.rows, NewRow(g.cfg, req.actor.uid, d, pre, now);
            h.s.db == g.s.db.(rows := if req.pid in rows then rows else rows[req.pid := row])
  {
    var g1 := Ticks(g, now);
    h := Inserts(g1, req, d, pre, at);
  }
}
