/** One approval, turn by turn: from the first read to the released lock, when nothing else happens in between. */
module Approvals {
  import opened Options
  import opened JsonText
  import opened Registry
  import opened Lifecycle

  /** A stored proposal that an approval under `req` takes up to its precheck. */
  predicate Executable(cfg: Config, db: Db, clock: int, req: Request) {
    && req.Approve? && Fetch(db, req.pid).Some? && HashOk(Fetch(db, req.pid).value)
    && var f := db.rows[req.pid].frozen;
       && f.clientId == cfg.client.clientId && clock < f.expiresAt && (f.risk == HIGH ==> req.confirmation == f.confirmation)
       && f.targetId in db.inventory && db.inventory[f.targetId].clientId == cfg.client.clientId
  }

  predicate Answers(o: Oracle) { o.ok && DictAnswer(o) }

  /** What a proposal is frozen with lets its first call be made when the world answers o: a plan's first step can be
      called, a script is there, the host's observed state still holds, or the mock adapter's counter is unchanged. */
  predicate Passes(cfg: Config, inv: map<string, Target>, mock: int, f: Frozen, plan: Json, o: Oracle) {
    if f.operation == "plan.run" then Steps(plan) != [] && StepReady(cfg, inv, Steps(plan)[0], o)
    else
      && f.adapter in cfg.adapters
      && if f.operation == "script.run" then Has(plan, "script")
         else if f.adapter == "mock" then Get(f.preState, "counter") == Int(mock)
         else o.observed.Some? && Holds(f.adapter, f.preState, o.observed.value)
  }

  function Way(f: Frozen): Where { if f.operation == "script.run" then Script else Single }

  function CallsMade(log: seq<Event>, p: Pid): nat {
    if log == [] then 0
    else CallsMade(log[..|log| - 1], p) + if log[|log| - 1].Called? && log[|log| - 1].pid == p then 1 else 0
  }

  lemma LogGrows(log: seq<Event>, e: Event, p: Pid)
    ensures CallsMade(log + [e], p) == CallsMade(log, p) + if e.Called? && e.pid == p then 1 else 0
  {
    assert (log + [e])[..|log + [e]| - 1] == log;
  }

  // ----- one turn -----

  function Turn(cfg: Config, s: State, x: Tid, o: Oracle): State {
    Next(cfg, s, Go(x, o))
  }

  /** Handler x stands at `pc` of an approval, and the proposal is still executable. */
  predicate At(cfg: Config, s: State, x: Tid, req: Request, o: Oracle, pc: Pc) {
    x in s.jobs && s.jobs[x].req == req && s.jobs[x].pc == pc && Answers(o) && Executable(cfg, s.db, s.clock, req)
  }

  /** A proposal whose execution may move the mock adapter's counter: a plan, or one operation that counts. */
  predicate Moving(db: Db, pid: Pid) {
    && pid in db.rows
    && var f := db.rows[pid].frozen;
       f.operation == "plan.run" || (f.operation != "script.run" && f.adapter == "mock" && f.operation != "mock.fail")
  }

  /** What a turn of x leaves alone. */
  ghost predicate Aside(s: State, r: State, x: Tid, pid: Pid) {
    && r.clock == s.clock && r.next == s.next && r.db.inventory == s.db.inventory
    && (r.mock == s.mock || Moving(s.db, pid))
    && (forall t :: t != x ==> (t in r.jobs <==> t in s.jobs) && (t in s.jobs ==> r.jobs[t] == s.jobs[t]))
    && pid in s.db.rows && pid in r.db.rows
    && r.db.rows[pid].frozen == s.db.rows[pid].frozen && r.db.rows[pid].planText == s.db.rows[pid].planText
  }

  lemma StillExecutable(cfg: Config, s: State, r: State, x: Tid, req: Request, o: Oracle)
    requires Executable(cfg, s.db, s.clock, req) && Aside(s, r, x, req.pid)
    ensures Executable(cfg, r.db, r.clock, req)
  {
  }

  /** One turn takes x to `to_`, making `calls` adapter calls. */
  ghost predicate Moved(cfg: Config, s: State, x: Tid, req: Request, o: Oracle, to_: Pc, calls: nat)
    requires req.Approve?
  {
    var r := Turn(cfg, s, x, o);
    At(cfg, r, x, req, o, to_) && Aside(s, r, x, req.pid) && CallsMade(r.log, req.pid) == CallsMade(s.log, req.pid) + calls
  }

  lemma TakeLock(cfg: Config, s: State, x: Tid, req: Request, o: Oracle, q: Proposal)
    requires At(cfg, s, x, req, o, TryLock(q)) && s.lock == None
    ensures Moved(cfg, s, x, req, o, CheckTime(q), 0)
  {
    assert Turn(cfg, s, x, o).log == s.log + [Locked(x, req.pid)];
    LogGrows(s.log, Locked(x, req.pid), req.pid);
    StillExecutable(cfg, s, Turn(cfg, s, x, o), x, req, o);
  }

  lemma PassTime(cfg: Config, s: State, x: Tid, req: Request, o: Oracle, q: Proposal)
    requires At(cfg, s, x, req, o, CheckTime(q)) && s.clock < q.row.frozen.expiresAt
    ensures Moved(cfg, s, x, req, o, MarkApproved, 0)
  {
    assert Turn(cfg, s, x, o).log == s.log;
    StillExecutable(cfg, s, Turn(cfg, s, x, o), x, req, o);
  }

  lemma CommitApproved(cfg: Config, s: State, x: Tid, req: Request, o: Oracle)
    requires At(cfg, s, x, req, o, MarkApproved)
    ensures Moved(cfg, s, x, req, o, Reread, 0)
  {
    assert Turn(cfg, s, x, o).log == s.log + [Approved(x, req.pid, req.actor)];
    LogGrows(s.log, Approved(x, req.pid, req.actor), req.pid);
    StillExecutable(cfg, s, Turn(cfg, s, x, o), x, req, o);
  }

  /** The copy the handler carries is of the row as it was frozen. */
  predicate Copy(s: State, req: Request, q: Proposal)
    requires req.Approve?
  {
    req.pid in s.db.rows && q.row.frozen == s.db.rows[req.pid].frozen
  }

  predicate ReadAs(s: State, req: Request, q: Proposal)
    requires req.Approve?
  {
    Fetch(s.db, req.pid) == Some(q)
  }

  lemma ReadAgain(cfg: Config, s: State, x: Tid, req: Request, o: Oracle, q: Proposal)
    requires At(cfg, s, x, req, o, Reread) && ReadAs(s, req, q)
    ensures Moved(cfg, s, x, req, o, Recheck(q), 0) && Copy(Turn(cfg, s, x, o), req, q)
  {
    assert Turn(cfg, s, x, o).log == s.log;
    StillExecutable(cfg, s, Turn(cfg, s, x, o), x, req, o);
  }

  lemma PassTimeAgain(cfg: Config, s: State, x: Tid, req: Request, o: Oracle, q: Proposal)
    requires At(cfg, s, x, req, o, Recheck(q)) && Copy(s, req, q)
    ensures Moved(cfg, s, x, req, o, FindTarget(q), 0)
  {
    assert Turn(cfg, s, x, o).log == s.log;
    StillExecutable(cfg, s, Turn(cfg, s, x, o), x, req, o);
  }

  lemma FoundTarget(cfg: Config, s: State, x: Tid, req: Request, o: Oracle, q: Proposal)
    requires At(cfg, s, x, req, o, FindTarget(q)) && Copy(s, req, q)
    ensures Moved(cfg, s, x, req, o, MarkExecuting(q, s.db.inventory[q.row.frozen.targetId]), 0)
  {
    assert Turn(cfg, s, x, o).log == s.log;
    StillExecutable(cfg, s, Turn(cfg, s, x, o), x, req, o);
  }

  /** Where the execution starts. */
  function StartPc(q: Proposal, t: Target): Pc { if q.row.frozen.operation == "plan.run" then Step(q, 0) else Precheck(q, t) }

  lemma CommitExecuting(cfg: Config, s: State, x: Tid, req: Request, o: Oracle, q: Proposal, t: Target)
    requires At(cfg, s, x, req, o, MarkExecuting(q, t)) && Copy(s, req, q)
    ensures Moved(cfg, s, x, req, o, StartPc(q, t), 0)
  {
    var e := Entered(x, req.pid, q.plan, s.jobs[x].sawAt, s.jobs[x].lockedAt);
    assert Turn(cfg, s, x, o).log == s.log + [e];
    LogGrows(s.log, e, req.pid);
    StillExecutable(cfg, s, Turn(cfg, s, x, o), x, req, o);
  }

  lemma PrecheckPasses(cfg: Config, s: State, x: Tid, req: Request, o: Oracle, q: Proposal, t: Target)
    requires At(cfg, s, x, req, o, Precheck(q, t)) && Copy(s, req, q) && q.row.frozen.operation != "plan.run"
    requires Passes(cfg, s.db.inventory, s.mock, q.row.frozen, q.plan, o)
    ensures Moved(cfg, s, x, req, o, Call(q, t, Way(q.row.frozen)), 0)
  {
    assert Turn(cfg, s, x, o).log == s.log;
    StillExecutable(cfg, s, Turn(cfg, s, x, o), x, req, o);
  }

  lemma CallLogged(cfg: Config, s: State, x: Tid, req: Request, o: Oracle, q: Proposal, t: Target, w: Where)
    requires At(cfg, s, x, req, o, Call(q, t, w))
    ensures var r := Turn(cfg, s, x, o);
            && r.log == s.log + [Called(x, req.pid, w, What(q, w))] && r.db == s.db && Aside(s, r, x, req.pid)
            && x in r.jobs && r.jobs[x].req == req && r.jobs[x].pc == Returning(q, t, w, s.mock)
  {
  }

  lemma CallIsMade(cfg: Config, s: State, x: Tid, req: Request, o: Oracle, q: Proposal, t: Target, w: Where)
    requires At(cfg, s, x, req, o, Call(q, t, w))
    ensures Moved(cfg, s, x, req, o, Returning(q, t, w, s.mock), 1)
  {
    CallLogged(cfg, s, x, req, o, q, t, w);
    LogGrows(s.log, Called(x, req.pid, w, What(q, w)), req.pid);
    StillExecutable(cfg, s, Turn(cfg, s, x, o), x, req, o);
  }

  lemma CallReturns(cfg: Config, s: State, x: Tid, req: Request, o: Oracle, q: Proposal, t: Target, w: Where, before: int)
    requires At(cfg, s, x, req, o, Returning(q, t, w, before)) && (Counts(q, w) ==> Moving(s.db, req.pid))
    ensures Moved(cfg, s, x, req, o, After(q, w, CallRc(q, w, o)), 0)
  {
    var e := Returned(x, req.pid, w, CallRc(q, w, o), Counts(q, w));
    assert Turn(cfg, s, x, o).log == s.log + [e];
    LogGrows(s.log, e, req.pid);
    StillExecutable(cfg, s, Turn(cfg, s, x, o), x, req, o);
  }

  lemma CommitResult(cfg: Config, s: State, x: Tid, req: Request, o: Oracle, rc: int)
    requires At(cfg, s, x, req, o, Finish(rc))
    ensures Moved(cfg, s, x, req, o, GetFinal(rc), 0)
  {
    var e := Ended(x, req.pid, ResultPatch(rc, s.clock).status);
    assert Turn(cfg, s, x, o).log == s.log + [e];
    LogGrows(s.log, e, req.pid);
    StillExecutable(cfg, s, Turn(cfg, s, x, o), x, req, o);
  }

  lemma ReadFinal(cfg: Config, s: State, x: Tid, req: Request, o: Oracle, rc: int)
    requires At(cfg, s, x, req, o, GetFinal(rc))
    ensures Moved(cfg, s, x, req, o, WriteReceipt(s.db.rows[req.pid], rc), 0)
  {
    assert Turn(cfg, s, x, o).log == s.log;
    StillExecutable(cfg, s, Turn(cfg, s, x, o), x, req, o);
  }

  lemma PutReceipt(cfg: Config, s: State, x: Tid, req: Request, o: Oracle, row: Row, rc: int)
    requires At(cfg, s, x, req, o, WriteReceipt(row, rc))
    ensures Moved(cfg, s, x, req, o, Unlock, 0)
  {
    assert Turn(cfg, s, x, o).log == s.log;
    StillExecutable(cfg, s, Turn(cfg, s, x, o), x, req, o);
  }

  lemma Releases(cfg: Config, s: State, x: Tid, req: Request, o: Oracle)
    requires At(cfg, s, x, req, o, Unlock)
    ensures var r := Turn(cfg, s, x, o);
            && r.lock == None && Aside(s, r, x, req.pid) && Executable(cfg, r.db, r.clock, req)
            && CallsMade(r.log, req.pid) == CallsMade(s.log, req.pid)
  {
    assert Turn(cfg, s, x, o).log == s.log;
    StillExecutable(cfg, s, Turn(cfg, s, x, o), x, req, o);
  }

  // ----- many turns -----

  function Gos(x: Tid, o: Oracle, n: nat): seq<Choice> {
    if n == 0 then [] else Gos(x, o, n - 1) + [Go(x, o)]
  }

  /** n turns of x lead from s to r, leaving the rest alone and making `calls` adapter calls. */
  ghost predicate Walk(cfg: Config, s: State, x: Tid, req: Request, o: Oracle, n: nat, r: State, calls: nat)
    requires req.Approve?
  {
    r == Run(cfg, s, Gos(x, o, n)) && Aside(s, r, x, req.pid) && CallsMade(r.log, req.pid) == CallsMade(s.log, req.pid) + calls
  }

  lemma WalkOn(cfg: Config, s: State, x: Tid, req: Request, o: Oracle, n: nat, r: State, calls: nat, more: nat)
    requires req.Approve? && Walk(cfg, s, x, req, o, n, r, calls) && Aside(r, Turn(cfg, r, x, o), x, req.pid)
    requires CallsMade(Turn(cfg, r, x, o).log, req.pid) == CallsMade(r.log, req.pid) + more
    ensures Walk(cfg, s, x, req, o, n + 1, Turn(cfg, r, x, o), calls + more)
  {
    assert Gos(x, o, n + 1)[..|Gos(x, o, n + 1)| - 1] == Gos(x, o, n);
  }

  lemma WalkStarts(cfg: Config, s: State, x: Tid, req: Request, o: Oracle)
    requires req.Approve? && req.pid in s.db.rows
    ensures Walk(cfg, s, x, req, o, 0, s, 0)
  {
    assert Run(cfg, s, Gos(x, o, 0)) == s;
  }

  lemma ToApproved(cfg: Config, s: State, n: nat, m: State, x: Tid, req: Request, o: Oracle) returns (r: State)
    requires req.Approve? && Walk(cfg, s, x, req, o, n, m, 0) && At(cfg, m, x, req, o, MarkApproved)
    ensures At(cfg, r, x, req, o, Reread) && Walk(cfg, s, x, req, o, n + 1, r, 0)
  {
    CommitApproved(cfg, m, x, req, o);
    WalkOn(cfg, s, x, req, o, n, m, 0, 0);
    r := Turn(cfg, m, x, o);
  }

  /** From the lock attempt to the second read, which finds p. */
  lemma ToReread(cfg: Config, s: State, x: Tid, req: Request, o: Oracle, q: Proposal) returns (r: State, p: Proposal)
    requires At(cfg, s, x, req, o, TryLock(q)) && s.lock == None && s.clock < q.row.frozen.expiresAt
    ensures At(cfg, r, x, req, o, Reread) && Walk(cfg, s, x, req, o, 3, r, 0) && ReadAs(r, req, p)
  {
    WalkStarts(cfg, s, x, req, o);
    TakeLock(cfg, s, x, req, o, q);
    WalkOn(cfg, s, x, req, o, 0, s, 0, 0);
    var s1 := Turn(cfg, s, x, o);
    PassTime(cfg, s1, x, req, o, q);
    WalkOn(cfg, s, x, req, o, 1, s1, 0, 0);
    r := ToApproved(cfg, s, 2, Turn(cfg, s1, x, o), x, req, o);
    p := Fetch(r.db, req.pid).value;
  }

  /** From the second read to the target lookup. */
  lemma ToLookup(cfg: Config, s: State, n: nat, m: State, x: Tid, req: Request, o: Oracle, q: Proposal) returns (r: State)
    requires req.Approve? && Walk(cfg, s, x, req, o, n, m, 0) && At(cfg, m, x, req, o, Reread) && ReadAs(m, req, q)
    ensures At(cfg, r, x, req, o, FindTarget(q)) && Copy(r, req, q) && Walk(cfg, s, x, req, o, n + 2, r, 0)
  {
    ReadAgain(cfg, m, x, req, o, q);
    WalkOn(cfg, s, x, req, o, n, m, 0, 0);
    var s1 := Turn(cfg, m, x, o);
    PassTimeAgain(cfg, s1, x, req, o, q);
    WalkOn(cfg, s, x, req, o, n + 1, s1, 0, 0);
    r := Turn(cfg, s1, x, o);
  }

  /** From the target lookup to the start of the execution. */
  lemma ToPrecheck(cfg: Config, s: State, n: nat, m: State, x: Tid, req: Request, o: Oracle, q: Proposal)
    returns (r: State, t: Target)
    requires req.Approve? && Walk(cfg, s, x, req, o, n, m, 0) && At(cfg, m, x, req, o, FindTarget(q)) && Copy(m, req, q)
    ensures At(cfg, r, x, req, o, StartPc(q, t)) && Copy(r, req, q) && Walk(cfg, s, x, req, o, n + 2, r, 0)
    ensures q.row.frozen.targetId in s.db.inventory && t == s.db.inventory[q.row.frozen.targetId]
  {
    t := m.db.inventory[q.row.frozen.targetId];
    FoundTarget(cfg, m, x, req, o, q);
    WalkOn(cfg, s, x, req, o, n, m, 0, 0);
    var s1 := Turn(cfg, m, x, o);
    CommitExecuting(cfg, s1, x, req, o, q, t);
    WalkOn(cfg, s, x, req, o, n + 1, s1, 0, 0);
    r := Turn(cfg, s1, x, o);
  }

  /** From the second read to the start of the execution. */
  lemma ToStart(cfg: Config, s: State, n: nat, m: State, x: Tid, req: Request, o: Oracle, q: Proposal)
    returns (r: State, t: Target)
    requires req.Approve? && Walk(cfg, s, x, req, o, n, m, 0) && At(cfg, m, x, req, o, Reread) && ReadAs(m, req, q)
    ensures At(cfg, r, x, req, o, StartPc(q, t)) && Copy(r, req, q) && Walk(cfg, s, x, req, o, n + 4, r, 0)
    ensures q.row.frozen.targetId in s.db.inventory && t == s.db.inventory[q.row.frozen.targetId]
  {
    var m' := ToLookup(cfg, s, n, m, x, req, o, q);
    r, t := ToPrecheck(cfg, s, n + 2, m', x, req, o, q);
  }

  /** A call and its return. */
  lemma ToReturn(cfg: Config, s: State, n: nat, m: State, x: Tid, req: Request, o: Oracle, q: Proposal, t: Target, w: Where,
                 calls: nat)
    returns (r: State)
    requires req.Approve? && Walk(cfg, s, x, req, o, n, m, calls) && At(cfg, m, x, req, o, Call(q, t, w))
    requires Counts(q, w) ==> Moving(m.db, req.pid)
    ensures At(cfg, r, x, req, o, After(q, w, CallRc(q, w, o))) && Walk(cfg, s, x, req, o, n + 2, r, calls + 1)
  {
    CallIsMade(cfg, m, x, req, o, q, t, w);
    WalkOn(cfg, s, x, req, o, n, m, calls, 1);
    var s1 := Turn(cfg, m, x, o);
    CallReturns(cfg, s1, x, req, o, q, t, w, m.mock);
    WalkOn(cfg, s, x, req, o, n + 1, s1, calls + 1, 0);
    r := Turn(cfg, s1, x, o);
  }

  lemma CountingMoves(db: Db, req: Request, q: Proposal, w: Where)
    requires req.Approve? && req.pid in db.rows && q.row.frozen == db.rows[req.pid].frozen
    requires w.Nth? ==> q.row.frozen.operation == "plan.run"
    requires w == Single ==> q.row.frozen.operation != "script.run"
    ensures Counts(q, w) ==> Moving(db, req.pid)
  {
  }

  /** A single operation or a script is called once. */
  lemma ToCalled(cfg: Config, s: State, n: nat, m: State, x: Tid, req: Request, o: Oracle, q: Proposal, t: Target)
    returns (r: State, rc: int)
    requires req.Approve? && Walk(cfg, s, x, req, o, n, m, 0) && At(cfg, m, x, req, o, Precheck(q, t)) && Copy(m, req, q)
    requires q.row.frozen.operation != "plan.run" && Passes(cfg, m.db.inventory, m.mock, q.row.frozen, q.plan, o)
    ensures At(cfg, r, x, req, o, Finish(rc)) && Walk(cfg, s, x, req, o, n + 3, r, 1)
  {
    var w := Way(q.row.frozen);
    PrecheckPasses(cfg, m, x, req, o, q, t);
    WalkOn(cfg, s, x, req, o, n, m, 0, 0);
    var s1 := Turn(cfg, m, x, o);
    CountingMoves(s1.db, req, q, w);
    r := ToReturn(cfg, s, n + 1, s1, x, req, o, q, t, w, 0);
    rc := CallRc(q, w, o);
  }

  // ----- a plan -----

  lemma StepTaken(cfg: Config, s: State, x: Tid, req: Request, o: Oracle, q: Proposal, i: nat)
    requires At(cfg, s, x, req, o, Step(q, i)) && i < |Steps(q.plan)| && StepReady(cfg, s.db.inventory, Steps(q.plan)[i], o)
    ensures Moved(cfg, s, x, req, o, Call(q, s.db.inventory[Text(Get(Steps(q.plan)[i], "target_id"))], Nth(i)), 0)
  {
    assert Turn(cfg, s, x, o).log == s.log;
    StillExecutable(cfg, s, Turn(cfg, s, x, o), x, req, o);
  }

  lemma StepRefused(cfg: Config, s: State, x: Tid, req: Request, o: Oracle, q: Proposal, i: nat)
    requires At(cfg, s, x, req, o, Step(q, i)) && i < |Steps(q.plan)| && !StepReady(cfg, s.db.inventory, Steps(q.plan)[i], o)
    ensures Moved(cfg, s, x, req, o, Finish(1), 0)
  {
    assert Turn(cfg, s, x, o).log == s.log;
    StillExecutable(cfg, s, Turn(cfg, s, x, o), x, req, o);
  }

  lemma StepsOver(cfg: Config, s: State, x: Tid, req: Request, o: Oracle, q: Proposal, i: nat)
    requires At(cfg, s, x, req, o, Step(q, i)) && i >= |Steps(q.plan)|
    ensures Moved(cfg, s, x, req, o, Finish(if Get(q.plan, "steps").Arr? then 0 else 1), 0)
  {
    assert Turn(cfg, s, x, o).log == s.log;
    StillExecutable(cfg, s, Turn(cfg, s, x, o), x, req, o);
  }

  predicate CanStep(cfg: Config, inv: map<string, Target>, q: Proposal, i: nat, o: Oracle) {
    i < |Steps(q.plan)| && StepReady(cfg, inv, Steps(q.plan)[i], o)
  }

  lemma CopyStays(cfg: Config, s: State, x: Tid, req: Request, o: Oracle, q: Proposal,
                  n: nat, m: State, calls: nat, n': nat, r: State, calls': nat)
    requires req.Approve? && Walk(cfg, s, x, req, o, n, m, calls) && Walk(cfg, s, x, req, o, n', r, calls') && Copy(m, req, q)
    ensures Copy(r, req, q)
  {
  }

  /** One step that can be called is called, and the plan goes on or ends. */
  lemma ToNextStep(cfg: Config, s: State, n: nat, m: State, x: Tid, req: Request, o: Oracle, q: Proposal, i: nat, calls: nat)
    returns (r: State)
    requires req.Approve? && Walk(cfg, s, x, req, o, n, m, calls) && At(cfg, m, x, req, o, Step(q, i)) && Copy(m, req, q)
    requires q.row.frozen.operation == "plan.run" && CanStep(cfg, m.db.inventory, q, i, o)
    ensures At(cfg, r, x, req, o, After(q, Nth(i), CallRc(q, Nth(i), o))) && Walk(cfg, s, x, req, o, n + 3, r, calls + 1)
    ensures Copy(r, req, q)
  {
    StepTaken(cfg, m, x, req, o, q, i);
    WalkOn(cfg, s, x, req, o, n, m, calls, 0);
    var s1 := Turn(cfg, m, x, o);
    CountingMoves(s1.db, req, q, Nth(i));
    r := ToReturn(cfg, s, n + 1, s1, x, req, o, q, s1.jobs[x].pc.t, Nth(i), calls);
    CopyStays(cfg, s, x, req, o, q, n, m, calls, n + 3, r, calls + 1);
  }

  /** The first step that cannot be called ends the plan, and so does its end. */
  lemma ToPlanEnd(cfg: Config, s: State, n: nat, m: State, x: Tid, req: Request, o: Oracle, q: Proposal, i: nat, calls: nat)
    returns (r: State, rc: int)
    requires req.Approve? && Walk(cfg, s, x, req, o, n, m, calls) && At(cfg, m, x, req, o, Step(q, i))
    requires !CanStep(cfg, m.db.inventory, q, i, o)
    ensures At(cfg, r, x, req, o, Finish(rc)) && Walk(cfg, s, x, req, o, n + 1, r, calls)
  {
    r := Turn(cfg, m, x, o);
    if i >= |Steps(q.plan)| {
      StepsOver(cfg, m, x, req, o, q, i);
      rc := if Get(q.plan, "steps").Arr? then 0 else 1;
    } else {
      StepRefused(cfg, m, x, req, o, q, i);
      rc := 1;
    }
    WalkOn(cfg, s, x, req, o, n, m, calls, 0);
  }

  /** After its call the plan goes on, or ends with what the call returned. */
  lemma ToStepOrEnd(cfg: Config, s: State, n: nat, m: State, x: Tid, req: Request, o: Oracle, q: Proposal, i: nat, calls: nat)
    returns (r: State, over: bool, rc: int)
    requires req.Approve? && Walk(cfg, s, x, req, o, n, m, calls) && At(cfg, m, x, req, o, Step(q, i)) && Copy(m, req, q)
    requires q.row.frozen.operation == "plan.run" && CanStep(cfg, m.db.inventory, q, i, o)
    ensures At(cfg, r, x, req, o, if over then Finish(rc) else Step(q, i + 1)) && i < |Steps(q.plan)| && Copy(r, req, q)
    ensures Walk(cfg, s, x, req, o, n + 3, r, calls + 1)
  {
    r := ToNextStep(cfg, s, n, m, x, req, o, q, i, calls);
    rc := CallRc(q, Nth(i), o);
    over := rc != 0;
  }

  /** What a plan does at step i: it ends, or it makes the call and goes on or ends. */
  lemma AtStep(cfg: Config, s: State, n: nat, m: State, x: Tid, req: Request, o: Oracle, q: Proposal, i: nat, calls: nat)
    returns (r: State, over: bool, rc: int, n': nat, calls': nat)
    requires req.Approve? && Walk(cfg, s, x, req, o, n, m, calls) && At(cfg, m, x, req, o, Step(q, i)) && Copy(m, req, q)
    requires q.row.frozen.operation == "plan.run"
    ensures At(cfg, r, x, req, o, if over then Finish(rc) else Step(q, i + 1))
    ensures !over ==> i < |Steps(q.plan)| && Copy(r, req, q)
    ensures Walk(cfg, s, x, req, o, n', r, calls') && calls' >= calls
  {
    if !CanStep(cfg, m.db.inventory, q, i, o) {
      r, rc := ToPlanEnd(cfg, s, n, m, x, req, o, q, i, calls);
      over, n', calls' := true, n + 1, calls;
    } else {
      r, over, rc := ToStepOrEnd(cfg, s, n, m, x, req, o, q, i, calls);
      n', calls' := n + 3, calls + 1;
    }
  }

  /** From any step of a plan on, the handler reaches the plan's end. */
  lemma {:induction false} ThroughPlan(cfg: Config, s: State, n: nat, m: State, x: Tid, req: Request, o: Oracle, q: Proposal,
                                       i: nat, calls: nat)
    returns (r: State, rc: int, n': nat, calls': nat)
    requires req.Approve? && Walk(cfg, s, x, req, o, n, m, calls) && At(cfg, m, x, req, o, Step(q, i)) && Copy(m, req, q)
    requires q.row.frozen.operation == "plan.run"
    ensures At(cfg, r, x, req, o, Finish(rc)) && Walk(cfg, s, x, req, o, n', r, calls') && calls' >= calls
    decreases |Steps(q.plan)| - i
  {
    var over;
    r, over, rc, n', calls' := AtStep(cfg, s, n, m, x, req, o, q, i, calls);
    if over {
    } else {
      r, rc, n', calls' := ThroughPlan(cfg, s, n', r, x, req, o, q, i + 1, calls');
    }
  }

  /** A plan at a step that can be called calls it. */
  lemma ThroughStep(cfg: Config, s: State, n: nat, m: State, x: Tid, req: Request, o: Oracle, q: Proposal, i: nat, calls: nat)
    returns (r: State, rc: int, n': nat, calls': nat)
    requires req.Approve? && Walk(cfg, s, x, req, o, n, m, calls) && At(cfg, m, x, req, o, Step(q, i)) && Copy(m, req, q)
    requires q.row.frozen.operation == "plan.run" && CanStep(cfg, m.db.inventory, q, i, o)
    ensures At(cfg, r, x, req, o, Finish(rc)) && Walk(cfg, s, x, req, o, n', r, calls') && calls' >= calls + 1
  {
    var over;
    r, over, rc := ToStepOrEnd(cfg, s, n, m, x, req, o, q, i, calls);
    n', calls' := n + 3, calls + 1;
    if !over { r, rc, n', calls' := ThroughPlan(cfg, s, n', r, x, req, o, q, i + 1, calls'); }
  }

  // ----- to the end -----

  /** From the start of the execution to its result, with at least one call. */
  lemma ToFinish(cfg: Config, s: State, n: nat, m: State, x: Tid, req: Request, o: Oracle, q: Proposal, t: Target)
    returns (r: State, rc: int, n': nat, calls: nat)
    requires req.Approve? && Walk(cfg, s, x, req, o, n, m, 0) && At(cfg, m, x, req, o, StartPc(q, t)) && Copy(m, req, q)
    requires Passes(cfg, m.db.inventory, m.mock, q.row.frozen, q.plan, o)
    ensures At(cfg, r, x, req, o, Finish(rc)) && Walk(cfg, s, x, req, o, n', r, calls) && calls >= 1
  {
    if q.row.frozen.operation == "plan.run" {
      r, rc, n', calls := ThroughStep(cfg, s, n, m, x, req, o, q, 0, 0);
    } else {
      r, rc := ToCalled(cfg, s, n, m, x, req, o, q, t);
      n', calls := n + 3, 1;
    }
  }

  /** From the result to the released lock. */
  lemma ToRelease(cfg: Config, s: State, n: nat, m: State, x: Tid, req: Request, o: Oracle, rc: int, calls: nat)
    returns (r: State)
    requires req.Approve? && Walk(cfg, s, x, req, o, n, m, calls) && At(cfg, m, x, req, o, Finish(rc))
    ensures r.lock == None && Executable(cfg, r.db, r.clock, req) && Walk(cfg, s, x, req, o, n + 4, r, calls)
  {
    CommitResult(cfg, m, x, req, o, rc);
    WalkOn(cfg, s, x, req, o, n, m, calls, 0);
    var s1 := Turn(cfg, m, x, o);
    ReadFinal(cfg, s1, x, req, o, rc);
    WalkOn(cfg, s, x, req, o, n + 1, s1, calls, 0);
    var s2 := Turn(cfg, s1, x, o);
    PutReceipt(cfg, s2, x, req, o, s1.db.rows[req.pid], rc);
    WalkOn(cfg, s, x, req, o, n + 2, s2, calls, 0);
    var s3 := Turn(cfg, s2, x, o);
    Releases(cfg, s3, x, req, o);
    WalkOn(cfg, s, x, req, o, n + 3, s3, calls, 0);
    r := Turn(cfg, s3, x, o);
  }

  predicate PlanIs(db: Db, req: Request, plan: Json)
    requires req.Approve?
  {
    Fetch(db, req.pid).Some? && Fetch(db, req.pid).value.plan == plan
  }

  lemma SamePlan(s: State, r: State, x: Tid, req: Request, p: Proposal)
    requires req.Approve? && Aside(s, r, x, req.pid) && ReadAs(r, req, p)
    ensures PlanIs(s.db, req, p.plan)
  {
  }

  /** From the lock attempt to the start of the execution. */
  lemma ToExecution(cfg: Config, s: State, x: Tid, req: Request, o: Oracle, q: Proposal)
    returns (r: State, p: Proposal, t: Target, n: nat)
    requires At(cfg, s, x, req, o, TryLock(q)) && s.lock == None && s.clock < q.row.frozen.expiresAt
    ensures At(cfg, r, x, req, o, StartPc(p, t)) && Copy(r, req, p) && Walk(cfg, s, x, req, o, n, r, 0)
    ensures p.row.frozen.targetId in s.db.inventory && t == s.db.inventory[p.row.frozen.targetId]
    ensures PlanIs(s.db, req, p.plan)
  {
    var s1: State;
    s1, p := ToReread(cfg, s, x, req, o, q);
    SamePlan(s, s1, x, req, p);
    r, t := ToStart(cfg, s, 3, s1, x, req, o, p);
    n := 7;
  }

  /** The first call of the proposal can be made. */
  predicate Ready(cfg: Config, s: State, req: Request, o: Oracle)
    requires req.Approve? && Fetch(s.db, req.pid).Some?
  {
    Passes(cfg, s.db.inventory, s.mock, s.db.rows[req.pid].frozen, Fetch(s.db, req.pid).value.plan, o)
  }

  /** The counter matters to a single operation of the mock adapter alone. */
  lemma PassesStays(cfg: Config, s: State, r: State, x: Tid, req: Request, o: Oracle, q: Proposal)
    requires req.Approve? && Aside(s, r, x, req.pid) && Copy(r, req, q) && PlanIs(s.db, req, q.plan) && Ready(cfg, s, req, o)
    requires r.mock == s.mock || s.db.rows[req.pid].frozen.operation == "plan.run"
    ensures Passes(cfg, r.db.inventory, r.mock, q.row.frozen, q.plan, o)
  {
  }

  /** A later call is not stopped by what this one did: anything but a single operation of the mock adapter that moves
      the counter it is compared by. */
  predicate Recallable(db: Db, pid: Pid) {
    Moving(db, pid) ==> db.rows[pid].frozen.operation == "plan.run"
  }

  /** From the lock attempt on, an approval makes its adapter calls and ends, whatever became of the row's status. */
  lemma WholeApproval(cfg: Config, s: State, x: Tid, req: Request, o: Oracle, q: Proposal) returns (r: State, cs: seq<Choice>)
    requires At(cfg, s, x, req, o, TryLock(q)) && s.lock == None && s.clock < q.row.frozen.expiresAt && Ready(cfg, s, req, o)
    requires Recallable(s.db, req.pid)
    ensures r.lock == None && Executable(cfg, r.db, r.clock, req) && Aside(s, r, x, req.pid)
    ensures r == Run(cfg, s, cs) && CallsMade(r.log, req.pid) >= CallsMade(s.log, req.pid) + 1
  {
    var s1, p, t, n := ToExecution(cfg, s, x, req, o, q);
    PassesStays(cfg, s, s1, x, req, o, p);
    var s2, rc, n', calls := ToFinish(cfg, s, n, s1, x, req, o, p, t);
    r := ToRelease(cfg, s, n', s2, x, req, o, rc, calls);
    cs := Gos(x, o, n' + 4);
  }

  // ----- before the lock -----

  lemma SweepsOthers(cfg: Config, s: State, x: Tid, req: Request, o: Oracle)
    requires At(cfg, s, x, req, o, Expire) && s.db.rows[req.pid].status == PROPOSED
    ensures Moved(cfg, s, x, req, o, Read, 0) && Turn(cfg, s, x, o).lock == s.lock && Turn(cfg, s, x, o).mock == s.mock
    ensures Turn(cfg, s, x, o).db.rows[req.pid] == s.db.rows[req.pid]
  {
    assert Turn(cfg, s, x, o).log == s.log + [Expired(x, Stale(s.db.rows, s.clock))];
    LogGrows(s.log, Expired(x, Stale(s.db.rows, s.clock)), req.pid);
    StillExecutable(cfg, s, Turn(cfg, s, x, o), x, req, o);
  }

  lemma ReadsProposed(cfg: Config, s: State, x: Tid, req: Request, o: Oracle)
    requires At(cfg, s, x, req, o, Read) && s.db.rows[req.pid].status == PROPOSED
    ensures Moved(cfg, s, x, req, o, TryLock(Fetch(s.db, req.pid).value), 0)
    ensures Turn(cfg, s, x, o).lock == s.lock && Turn(cfg, s, x, o).mock == s.mock
    ensures Turn(cfg, s, x, o).db.rows[req.pid] == s.db.rows[req.pid]
  {
    assert Turn(cfg, s, x, o).log == s.log + [Saw(x, req.pid)];
    LogGrows(s.log, Saw(x, req.pid), req.pid);
    StillExecutable(cfg, s, Turn(cfg, s, x, o), x, req, o);
  }

  /** What the sweep and the first read of x leave alone. */
  ghost predicate Opened(s: State, r: State, x: Tid, req: Request)
    requires req.Approve?
  {
    && Aside(s, r, x, req.pid) && CallsMade(r.log, req.pid) == CallsMade(s.log, req.pid)
    && r.mock == s.mock && r.lock == s.lock && r.db.rows[req.pid] == s.db.rows[req.pid]
  }

  lemma OpenTurns(cfg: Config, s: State, x: Tid, req: Request, o: Oracle) returns (r: State, q: Proposal, cs: seq<Choice>)
    requires At(cfg, s, x, req, o, Expire) && s.db.rows[req.pid].status == PROPOSED
    ensures At(cfg, r, x, req, o, TryLock(q)) && r == Run(cfg, s, cs) && Opened(s, r, x, req)
    ensures q.row == r.db.rows[req.pid]
  {
    WalkStarts(cfg, s, x, req, o);
    SweepsOthers(cfg, s, x, req, o);
    WalkOn(cfg, s, x, req, o, 0, s, 0, 0);
    var s1 := Turn(cfg, s, x, o);
    ReadsProposed(cfg, s1, x, req, o);
    WalkOn(cfg, s, x, req, o, 1, s1, 0, 0);
    q := Fetch(s1.db, req.pid).value;
    r := Turn(cfg, s1, x, o);
    cs := Gos(x, o, 2);
  }
}
