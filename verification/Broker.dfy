/** `service.py` as code over mutable tables. Every method carries a run of the step machine along with it, so each
    call of the service is a run of that machine and every theorem about runs holds of the tables. What the outside
    world answers during a call is a parameter of the call; only the clock is read as it goes. */
module Broker {
  import opened Options
  import opened JsonText
  import opened Registry
  import opened Lifecycle
  import opened Tables
  import opened FrozenContent
  import opened Receipts
  import opened Turns
  import Clearance
  import Requests
  import Resync
  import Threads

  datatype Outcome = Refused | NoLock | Done(status: Status, rc: Option<int>)

  /** What the outside world does during one approval: whether the lock file opens, what the precheck observes, whether
      the script file is unchanged, and for each adapter call whether its precheck answers and what it returns. */
  datatype Answer = Answer(ready: bool, rc: int)
  datatype World = World(lockOpens: bool, observed: Option<Json>, intact: bool, answers: seq<Answer>) {
    function At(i: nat): Answer { if i < |answers| then answers[i] else Answer(false, 1) }
  }

  /** Clock readings of one approval: at the expiry sweep, at the two expiry checks, and for the last update. */
  datatype Times = Times(seen: int, checked: int, rechecked: int, last: int)

  // ----- what a call leaves behind -----

  /** The rows agree except that `pid` may have a new status and new times. */
  predicate OnlyRow(rows: map<Pid, Row>, later: map<Pid, Row>, pid: Pid) {
    && later.Keys == rows.Keys
    && (forall q :: q in rows && q != pid ==> later[q] == rows[q])
    && (pid in rows ==> later[pid].frozen == rows[pid].frozen && later[pid].planText == rows[pid].planText)
  }

  /** The row can be read, is this client's and waits for approval. */
  predicate Awaiting(cfg: Config, db: Db, pid: Pid) {
    && Fetch(db, pid).Some?
    && db.rows[pid].frozen.clientId == cfg.client.clientId && db.rows[pid].status == PROPOSED
  }

  /** The checks an approval makes before it takes the lock. */
  predicate Approvable(cfg: Config, db: Db, pid: Pid, confirmation: string) {
    && Awaiting(cfg, db, pid) && HashOk(Fetch(db, pid).value)
    && (db.rows[pid].frozen.risk == HIGH ==> confirmation == db.rows[pid].frozen.confirmation)
  }

  predicate Due(db: Db, pid: Pid, now: int) { pid in db.rows && now >= db.rows[pid].frozen.expiresAt }

  /** The tables after a refusal: a row whose hash no longer matches is FAILED, one that had expired when the lock was
      held is EXPIRED, and otherwise nothing changed. */
  function AfterRefusal(cfg: Config, db: Db, pid: Pid, confirmation: string, late: bool, last: int): Db {
    if Awaiting(cfg, db, pid) && !HashOk(Fetch(db, pid).value) then db.(rows := Update(db.rows, pid, EndPatch(FAILED, last)))
    else if late then db.(rows := Update(db.rows, pid, EndPatch(EXPIRED, last)))
    else db
  }

  /** An execution that came to an end left its result and its receipt. */
  predicate Recorded(rows: map<Pid, Row>, receipts: map<Pid, Receipt>, pid: Pid, approver: string, r: Outcome) {
    && r.Done? && r.rc.Some? && r.status == (if r.rc.value == 0 then SUCCEEDED else FAILED)
    && pid in rows && rows[pid].status == r.status && rows[pid].rc == r.rc && rows[pid].startedAt.Some?
    && pid in receipts && receipts[pid] == Receipt(r.status, approver, r.rc, rows[pid])
  }

  /** What ends an approved row before it starts: a hash that does not match, its expiry, or a target that is gone. */
  function StoppedBy(cfg: Config, inv: map<string, Target>, p: Proposal, now: int): Option<Status> {
    if !HashOk(p) then Some(FAILED)
    else if now >= p.row.frozen.expiresAt then Some(EXPIRED)
    else if !TargetThere(cfg, inv, p.row.frozen.targetId) then Some(FAILED)
    else None
  }

  /** How an approved row ends, from the tables `db` to `after`: stopped before it started, without a receipt, or executed,
      with its result and its receipt. */
  predicate EndedAs(db: Db, after: Db, pid: Pid, approver: string, stopped: Option<Status>, r: Outcome) {
    && OnlyRow(db.rows, after.rows, pid) && after.inventory == db.inventory
    && match stopped
       case Some(status) =>
         && r == Done(status, None) && pid in after.rows && after.rows[pid].status == status
         && pid in db.rows && after.rows[pid].startedAt == db.rows[pid].startedAt && after.receipts == db.receipts
       case None =>
         Recorded(after.rows, after.receipts, pid, approver, r) && after.receipts == db.receipts[pid := after.receipts[pid]]
  }

  /** From the tables `db`, exactly the row was closed and exactly its receipt written. */
  predicate ClosedAs(db: Db, after: Db, pid: Pid, verdict: Status, name: string, now: int) {
    && pid in db.rows
    && after.rows == Update(db.rows, pid, ClosePatch(verdict, name, now)) && after.inventory == db.inventory
    && after.receipts == db.receipts[pid := Receipt(verdict, name, None, after.rows[pid])]
  }

  // ----- what the three ways to execute do -----

  function CallEvents(tid: Tid, pid: Pid, p: Proposal, w: Where, rc: int): seq<Event> {
    [Called(tid, pid, w, What(p, w)), Returned(tid, pid, w, rc, Counts(p, w))]
  }

  function WorldRc(p: Proposal, w: Where, a: Answer): int { CallRc(p, w, Oracle(true, a.rc, None)) }

  /** Step i of a plan may be called; the mock adapter's precheck always answers. */
  predicate StepMay(cfg: Config, inv: map<string, Target>, p: Proposal, i: nat, world: World)
    requires i < |Steps(p.plan)|
  {
    StepReady(cfg, inv, Steps(p.plan)[i], Oracle(AdapterOf(p, Nth(i)) == "mock" || world.At(i).ready, 1, None))
  }

  /** The calls of a plan from step i on, and its exit status: up to the first step that may not be called or fails. */
  function PlanRun(cfg: Config, inv: map<string, Target>, p: Proposal, world: World, tid: Tid, pid: Pid, i: nat):
    (seq<Event>, int)
    decreases |Steps(p.plan)| - i
  {
    if i >= |Steps(p.plan)| then ([], if Get(p.plan, "steps").Arr? then 0 else 1)
    else if !StepMay(cfg, inv, p, i, world) then ([], 1)
    else
      var rc := WorldRc(p, Nth(i), world.At(i));
      var rest := PlanRun(cfg, inv, p, world, tid, pid, i + 1);
      if rc == 0 then (CallEvents(tid, pid, p, Nth(i), 0) + rest.0, rest.1) else (CallEvents(tid, pid, p, Nth(i), rc), rc)
  }

  /** One step of a plan: its call and its return, if it may be called at all. */
  predicate Stepped(cfg: Config, inv: map<string, Target>, p: Proposal, world: World, tid: Tid, pid: Pid, i: nat,
                    before: seq<Event>, after: seq<Event>, rc: int)
    requires i < |Steps(p.plan)|
  {
    if StepMay(cfg, inv, p, i, world)
    then rc == WorldRc(p, Nth(i), world.At(i)) && after == before + CallEvents(tid, pid, p, Nth(i), rc)
    else rc == 1 && after == before
  }

  lemma PlanStops(cfg: Config, inv: map<string, Target>, p: Proposal, world: World, tid: Tid, pid: Pid, i: nat)
    requires i < |Steps(p.plan)| && !StepMay(cfg, inv, p, i, world)
    ensures PlanRun(cfg, inv, p, world, tid, pid, i) == ([], 1)
  {
  }

  lemma PlanGoes(cfg: Config, inv: map<string, Target>, p: Proposal, world: World, tid: Tid, pid: Pid, i: nat, rc: int)
    requires i < |Steps(p.plan)| && StepMay(cfg, inv, p, i, world) && rc == WorldRc(p, Nth(i), world.At(i))
    ensures var run, rest := PlanRun(cfg, inv, p, world, tid, pid, i), PlanRun(cfg, inv, p, world, tid, pid, i + 1);
            && run.0 == CallEvents(tid, pid, p, Nth(i), rc) + (if rc == 0 then rest.0 else [])
            && run.1 == if rc == 0 then rest.1 else rc
  {
  }

  lemma Regroup(a: seq<Event>, b: seq<Event>, c: seq<Event>)
    ensures (a + b) + c == a + (b + c)
    ensures a + [] == a && b + [] == b
  {
  }

  lemma PlanStep(cfg: Config, inv: map<string, Target>, p: Proposal, world: World, tid: Tid, pid: Pid, i: nat,
                 before: seq<Event>, after: seq<Event>, rc: int)
    requires i < |Steps(p.plan)| && Stepped(cfg, inv, p, world, tid, pid, i, before, after, rc)
    ensures var run, rest := PlanRun(cfg, inv, p, world, tid, pid, i), PlanRun(cfg, inv, p, world, tid, pid, i + 1);
            if rc == 0 then run.1 == rest.1 && after + rest.0 == before + run.0 else run.1 == rc && after == before + run.0
  {
    if StepMay(cfg, inv, p, i, world) {
      PlanGoes(cfg, inv, p, world, tid, pid, i, rc);
      Regroup(before, CallEvents(tid, pid, p, Nth(i), rc), PlanRun(cfg, inv, p, world, tid, pid, i + 1).0);
    } else {
      PlanStops(cfg, inv, p, world, tid, pid, i);
    }
  }

  /** An update changes neither what a row was frozen with nor its plan. */
  lemma SameProposal(db: Db, pid: Pid, p: Proposal, patch: Patch)
    requires Fetch(db, pid) == Some(p)
    ensures var q := Fetch(db.(rows := Update(db.rows, pid, patch)), pid);
            q.Some? && q.value.plan == p.plan && q.value.row.frozen == p.row.frozen
  {
  }

  /** A row that was updated and then ended has ended. */
  lemma EndsThrough(db: Db, patch: Patch, after: Db, pid: Pid, approver: string, stopped: Option<Status>, r: Outcome)
    requires pid in db.rows && EndedAs(db.(rows := Update(db.rows, pid, patch)), after, pid, approver, stopped, r)
    requires stopped.Some? ==> patch.startedAt == None
    ensures EndedAs(db, after, pid, approver, stopped, r)
  {
  }

  lemma ReadyIsClear(cfg: Config, mock: int, p: Proposal, t: Target, observed: Option<Json>)
    ensures SingleReady(cfg, mock, p, t, observed) <==> Clearance.SingleClear(cfg, mock, p.row.frozen, observed)
  {
    var f := p.row.frozen;
    if f.adapter == "mock" { Clearance.CounterIs(f.preState, mock, t); }
    else if observed.Some? { Clearance.HoldsOnHost(f.adapter, f.preState, observed.value); }
  }

  /** How a row ended once it was approved is how the approval ended. */
  lemma ApprovedEnds(cfg: Config, db: Db, after: Db, pid: Pid, p: Proposal, name: string, at: int, now: int, r: Outcome)
    requires Fetch(db, pid) == Some(p)
    requires var approved := db.(rows := Update(db.rows, pid, ApprovePatch(name, at)));
             Fetch(approved, pid).Some?
             && EndedAs(approved, after, pid, name, StoppedBy(cfg, db.inventory, Fetch(approved, pid).value, now), r)
    ensures EndedAs(db, after, pid, name, StoppedBy(cfg, db.inventory, p, now), r)
  {
    SameProposal(db, pid, p, ApprovePatch(name, at));
    EndsThrough(db, ApprovePatch(name, at), after, pid, name, StoppedBy(cfg, db.inventory, p, now), r);
  }

  // ----- proposing -----

  /** From the tables `db`, exactly one row was added: the draft, frozen at `now` and waiting for approval. */
  predicate Proposed(cfg: Config, db: Db, after: Db, pid: Pid, uid: int, d: Draft, pre: Json, now: int) {
    && pid !in db.rows && IsDict(pre) && after == db.(rows := db.rows[pid := NewRow(cfg, uid, d, pre, now)])
    && var row := after.rows[pid];
       && row == Row(row.frozen, row.planText, PROPOSED, None, None, None, None, None)
       && row.frozen.createdAt == now && row.frozen.expiresAt == now + cfg.ttl && row.frozen.requestUid == uid
       && row.frozen.preState == pre && row.frozen.risk == d.risk && row.frozen.confirmation == d.confirmation
  }

  lemma AddsProposal(cfg: Config, db: Db, after: Db, pid: Pid, uid: int, d: Draft, pre: Json, now: int)
    requires pid !in db.rows && IsDict(pre) && after == db.(rows := db.rows[pid := NewRow(cfg, uid, d, pre, now)])
    ensures Proposed(cfg, db, after, pid, uid, d, pre, now)
  {
  }

  lemma OnlyOne(inv: map<string, Target>, ref: string, ids: set<string>, id: string)
    requires ids == (set k | k in inv && inv[k].name == ref) && |ids| == 1 && id in ids
    ensures ids == {id} && OnlyNamedBy(inv, ref, id)
  {
    assert |ids - {id}| == 0;
    assert ids == {id};
    forall k | k in inv && NamedBy(inv, ref, k) ensures k == id { assert k in ids; }
  }

  lemma ByNameFinds(inv: map<string, Target>, ref: string, id: string)
    requires OnlyNamedBy(inv, ref, id)
    ensures ByName(inv, ref) == Some(id)
  {
    assert ByName(inv, ref).Some?;
  }

  lemma OneByName(inv: map<string, Target>, ref: string, ids: set<string>)
    requires ids == set id | id in inv && inv[id].name == ref
    ensures |ids| == 1 <==> ByName(inv, ref).Some?
    ensures |ids| == 1 ==> ids == {ByName(inv, ref).value}
  {
    if |ids| == 1 {
      var id :| id in ids;
      OnlyOne(inv, ref, ids, id);
      ByNameFinds(inv, ref, id);
    }
    if ByName(inv, ref).Some? {
      var id := ByName(inv, ref).value;
      assert OnlyNamedBy(inv, ref, id);
      assert ids == {id};
    }
  }

  lemma OneMore(cfg: Config, inv: map<string, Target>, init: seq<StepRequest>, last: StepRequest, cs: seq<Checked>, c: Checked)
    requires CheckSteps(cfg, inv, init) == Some(cs)
    requires CheckOperation(cfg, inv, last.operation, last.target, last.parameters) == Some(c)
    ensures CheckSteps(cfg, inv, init + [last]) == Some(cs + [c])
  {
    assert (init + [last])[..|init|] == init;
    assert CheckSteps(cfg, inv, init + [last]) == CheckLast(cfg, inv, init + [last]);
  }

  /** The steps so far check out as cs, with the risk folded and the steps frozen. */
  predicate Checking(cfg: Config, inv: map<string, Target>, init: seq<StepRequest>, cs: seq<Checked>, risk: Risk, frozen: seq<Json>) {
    && CheckSteps(cfg, inv, init) == Some(cs) && |cs| == |init| == |frozen|
    && risk == FoldRisk(cs) && frozen == FrozenSteps(cs)
  }

  lemma FoldMore(cs: seq<Checked>, c: Checked)
    ensures FoldRisk(cs + [c]) == if Order(c.op.risk) > Order(FoldRisk(cs)) then c.op.risk else FoldRisk(cs)
    ensures FrozenSteps(cs + [c]) == FrozenSteps(cs) + [FrozenStep(c)]
  {
    assert (cs + [c])[..|cs|] == cs;
  }

  lemma BadStep(cfg: Config, inv: map<string, Target>, init: seq<StepRequest>, last: StepRequest)
    requires CheckOperation(cfg, inv, last.operation, last.target, last.parameters) == None
    ensures CheckSteps(cfg, inv, init + [last]) == None
  {
    assert (init + [last])[..|init|] == init;
    assert CheckSteps(cfg, inv, init + [last]) == CheckLast(cfg, inv, init + [last]);
  }

  lemma BadInit(cfg: Config, inv: map<string, Target>, steps: seq<StepRequest>)
    requires steps != [] && CheckSteps(cfg, inv, steps[..|steps| - 1]) == None
    ensures CheckSteps(cfg, inv, steps) == None
  {
    assert CheckSteps(cfg, inv, steps) == CheckLast(cfg, inv, steps);
  }

  lemma {:induction false} BadPrefix(cfg: Config, inv: map<string, Target>, steps: seq<StepRequest>, i: nat)
    requires i <= |steps| && CheckSteps(cfg, inv, steps[..i]) == None
    ensures CheckSteps(cfg, inv, steps) == None
    decreases |steps|
  {
    if i == |steps| {
      assert steps[..i] == steps;
    } else {
      assert steps[..|steps| - 1][..i] == steps[..i];
      BadPrefix(cfg, inv, steps[..|steps| - 1], i);
      BadInit(cfg, inv, steps);
    }
  }

  lemma FrozenTarget(cs: seq<Checked>)
    requires cs != []
    ensures FrozenSteps(cs) != [] && Text(Get(FrozenSteps(cs)[0], "target_id")) == cs[0].target.id
  {
    FirstFrozen(cs);
    FindAt(FrozenStep(cs[0]).members, 2);
  }

  // ----- the adapters -----

  /** The mock adapter's saved state. */
  datatype MockView = MockView(counter: int, target: string, message: string)

  /** One adapter call: a host returns what it returns; of the mock adapter `mock.fail` fails and leaves its state, anything
      else adds one and leaves the target it was called on, and `mock.echo` the message of its parameters. */
  predicate Made(adapter: string, operation: string, parameters: Json, t: Target, a: Answer, rc: int,
                 was: MockView, is_: MockView)
  {
    if adapter != "mock" then rc == a.rc && is_ == was
    else if operation == "mock.fail" then rc == 1 && is_ == was
    else rc == 0 && is_ == MockView(was.counter + 1, t.id,
                                    if operation == "mock.echo" then Text(Get(parameters, "message")) else was.message)
  }

  /** The call of a single operation names what the row names; that of a step what the step names. */
  predicate MadeAs(p: Proposal, w: Where, t: Target, a: Answer, rc: int, was: MockView, is_: MockView) {
    match w
    case Single => Made(p.row.frozen.adapter, p.row.frozen.operation, p.row.frozen.parameters, t, a, rc, was, is_)
    case Nth(i) =>
      && i < |Steps(p.plan)|
      && var step := Steps(p.plan)[i];
         Made(Text(Get(step, "adapter")), Text(Get(step, "operation")), Get(step, "parameters"), t, a, rc, was, is_)
    case Script => false
  }

  /** A step that may be called is called on the target its id names in the inventory. */
  predicate StepMade(cfg: Config, inv: map<string, Target>, p: Proposal, world: World, i: nat, rc: int,
                     was: MockView, is_: MockView)
    requires i < |Steps(p.plan)|
  {
    if StepMay(cfg, inv, p, i, world)
    then var id := Text(Get(Steps(p.plan)[i], "target_id"));
         id in inv && MadeAs(p, Nth(i), inv[id], world.At(i), rc, was, is_)
    else is_ == was
  }

  class MockAdapter {
    var counter: int
    var lastTarget: string
    var lastMessage: string

    ghost function View(): MockView
      reads this
    {
      MockView(counter, lastTarget, lastMessage)
    }

    constructor ()
      ensures counter == 0
    {
      counter, lastTarget, lastMessage := 0, "", "";
    }

    method Precheck(t: Target) returns (observed: Json)
      ensures observed == MockState(counter, t)
    {
      observed := Obj([Member("counter", Int(counter)), Member("target", Str(t.id))]);
    }

    /** Only `mock.fail` fails, and it leaves the state alone; every other call is counted and leaves its target. */
    method Execute(operation: string, t: Target, parameters: Json) returns (rc: int)
      modifies this
      ensures operation == "mock.fail" ==> rc == 1 && unchanged(this)
      ensures operation != "mock.fail" ==> rc == 0 && counter == old(counter) + 1 && lastTarget == t.id
      ensures operation == "mock.echo" ==> lastMessage == Text(Get(parameters, "message"))
      ensures operation != "mock.echo" ==> lastMessage == old(lastMessage)
    {
      var before := counter;
      if operation == "mock.fail" { return 1; }
      counter := before + 1;
      lastTarget := t.id;
      if operation == "mock.echo" { lastMessage := Text(Get(parameters, "message")); }
      return 0;
    }
  }

  lemma SingleCalls(p: Proposal, w: Where)
    ensures !w.Nth? ==> Get(What(p, w), "parameters") == p.row.frozen.parameters
  {
    if !w.Nth? { FindAt(What(p, w).members, 2); }
  }

  // ----- the service -----

  class BrokerService {
    const cfg: Config
    const store: Store
    const mock: MockAdapter
    var locked: bool
    ghost var trace: Trace

    constructor (cfg: Config, store: Store, mock: MockAdapter, ghost now: int)
      requires store.rows == map[] && store.receipts == map[]
      ensures Idle() && this.cfg == cfg && this.store == store && this.mock == mock
    {
      this.cfg, this.store, this.mock, locked := cfg, store, mock, false;
      ghost var g := Starts(cfg, State(Db(map[], map[], store.inventory), mock.counter, now, None, 0, map[], [], map[]));
      trace := g;
    }

    /** The tables and the counter are those of the run's last state. */
    ghost predicate Synced(g: Trace)
      reads store, mock
    {
      g.cfg == cfg && g.s.db == store.Content() && g.s.mock == mock.counter
    }

    /** Between requests. */
    ghost predicate Idle()
      reads this, store, mock
    {
      Between(trace) && Synced(trace) && !locked
    }

    /** Reading the clock: any time may have passed. */
    method Now() returns (t: int) {
      t := *;
    }

    /** `_lock` gets nothing when the lock is held, and also when its file does not open. */
    method Lock(opens: bool) returns (ok: bool)
      modifies `locked
      ensures ok <==> opens && !old(locked)
      ensures locked == (old(locked) || opens)
    {
      ok := opens && !locked;
      if ok { locked := true; }
    }

    /** The process restarts between requests, loads its seeds and, if the host answers, syncs the inventory with it. */
    method Restart(l: Resync.Load)
      requires Idle()
      modifies this, store`inventory
      ensures Idle() && Later(old(trace), trace)
      ensures store.inventory == Upserted(Upserted(old(store.inventory), l.seeds), Resync.LoadEntries(cfg.client, l))
    {
      store.InventoryUpsert(l.seeds);
      if l.answered { Resync.SyncInventory(store, cfg.client, l.hostname, l.vms, l.cts); }
      Resync.LoadMerges(old(store.inventory), cfg.client, l);
      ghost var h := Restarts(trace, Resync.Loaded(cfg.client, l));
      locked, trace := false, h;
    }

    method ExpireRequests(ghost g: Trace, ghost req: Request) returns (seen: int, ghost h: Trace)
      requires Between(g) && Synced(g) && Permitted(req) && DictRequest(req)
      modifies store`rows
      ensures Synced(h) && Later(g, h) && store.rows == ExpireRows(old(store.rows), seen)
      ensures if req.Look? then Between(h) else Live(h, req, First(req))
    {
      seen := Now();
      var _ := store.ExpireStale(seen);
      ghost var g1 := Begins(g, req);
      ghost var g2 := Ticks(g1, seen);
      if req.Look? { h := LooksOnly(g2, req); } else { h := ExpiresRows(g2, req); }
    }

    /** Listing and showing change nothing but what has expired, and show exactly this client's rows. */
    method Show(actor: Actor, pid: Pid) returns (r: Option<Proposal>, ghost seen: int)
      requires Idle()
      modifies this, store`rows
      ensures Idle() && Later(old(trace), trace)
      ensures store.rows == if actor.canRead then ExpireRows(old(store.rows), seen) else old(store.rows)
      ensures var q := Fetch(store.Content(), pid);
              r == if actor.canRead && q.Some? && q.value.row.frozen.clientId == cfg.client.clientId then q else None
    {
      if !actor.canRead { return None, 0; }
      var t, h := ExpireRequests(trace, Look(actor));
      trace := h;
      var q := store.Get(pid);
      if q.None? || q.value.row.frozen.clientId != cfg.client.clientId { return None, t; }
      return q, t;
    }

    // ----- reject and cancel -----

    method Reject(actor: Actor, pid: Pid) returns (r: Outcome, ghost t: Times)
      requires Idle()
      modifies this, store`rows, store`receipts
      ensures Idle() && Later(old(trace), trace)
      ensures !actor.canApprove ==> r == Refused && store.Content() == old(store.Content())
      ensures actor.canApprove ==>
                var db := old(store.Content()).(rows := ExpireRows(old(store.rows), t.seen));
                if Closable(cfg, Fetch(db, pid), actor, REJECTED)
                then r == Done(REJECTED, None) && ClosedAs(db, store.Content(), pid, REJECTED, actor.name, t.last)
                else r == Refused && store.Content() == db
    {
      if !actor.canApprove { return Refused, Times(0, 0, 0, 0); }
      ghost var req := Lifecycle.Close(actor, pid, REJECTED);
      var seen, g := ExpireRequests(trace, req);
      var q := store.Get(pid);
      if q.None? || q.value.row.frozen.clientId != cfg.client.clientId || q.value.row.status != PROPOSED {
        ghost var h := ReadsToClose(g, req);
        trace := h;
        return Refused, Times(seen, 0, 0, 0);
      }
      var last := CloseRow(actor, pid, REJECTED, g);
      return Done(REJECTED, None), Times(seen, 0, 0, last);
    }

    method Cancel(actor: Actor, pid: Pid) returns (r: Outcome, ghost t: Times)
      requires Idle()
      modifies this, store`rows, store`receipts
      ensures Idle() && Later(old(trace), trace)
      ensures !actor.canRead ==> r == Refused && store.Content() == old(store.Content())
      ensures actor.canRead ==>
                var db := old(store.Content()).(rows := ExpireRows(old(store.rows), t.seen));
                if Closable(cfg, Fetch(db, pid), actor, CANCELLED)
                then r == Done(CANCELLED, None) && ClosedAs(db, store.Content(), pid, CANCELLED, actor.name, t.last)
                else r == Refused && store.Content() == db
    {
      if !actor.canRead { return Refused, Times(0, 0, 0, 0); }
      ghost var req := Lifecycle.Close(actor, pid, CANCELLED);
      var seen, g := ExpireRequests(trace, req);
      var q := store.Get(pid);
      if q.None? || q.value.row.frozen.clientId != cfg.client.clientId
         || (q.value.row.frozen.requestUid != actor.uid && !actor.canApprove) || q.value.row.status != PROPOSED {
        ghost var h := ReadsToClose(g, req);
        trace := h;
        return Refused, Times(seen, 0, 0, 0);
      }
      var last := CloseRow(actor, pid, CANCELLED, g);
      return Done(CANCELLED, None), Times(seen, 0, 0, last);
    }

    method CloseRow(actor: Actor, pid: Pid, verdict: Status, ghost g: Trace) returns (t: int)
      requires Live(g, Lifecycle.Close(actor, pid, verdict), CloseRead) && Synced(g) && !locked
      requires Closable(cfg, Fetch(store.Content(), pid), actor, verdict)
      modifies `trace, store`rows, store`receipts
      ensures Idle() && Later(g, trace)
      ensures ClosedAs(old(store.Content()), store.Content(), pid, verdict, actor.name, t)
    {
      ghost var req := Lifecycle.Close(actor, pid, verdict);
      ghost var g1 := ReadsToClose(g, req);
      t := Now();
      store.UpdateRow(pid, ClosePatch(verdict, actor.name, t));
      ghost var g2 := Ticks(g1, t);
      ghost var g3 := MarksClosed(g2, req);
      SaveClosing(actor, pid, verdict, g3);
    }

    method SaveClosing(actor: Actor, pid: Pid, verdict: Status, ghost g: Trace)
      requires Live(g, Lifecycle.Close(actor, pid, verdict), CloseGet) && Synced(g) && !locked
      requires Fetch(store.Content(), pid).Some?
      modifies `trace, store`receipts
      ensures Idle() && Later(g, trace)
      ensures store.receipts == old(store.receipts)[pid := Receipt(verdict, actor.name, None, store.rows[pid])]
    {
      ghost var req := Lifecycle.Close(actor, pid, verdict);
      var q := store.Get(pid);
      ghost var g1 := ReadsClosed(g, req);
      store.AddReceipt(pid, Receipt(verdict, actor.name, None, q.value.row));
      ghost var h := WritesClosed(g1, req, q.value.row);
      trace := h;
    }

    // ----- approve -----

    /** An approval is refused exactly when a check before the lock fails or the row has expired once the lock is held; it
        gets no lock exactly when the lock file does not open; otherwise the row ends, stopped or executed. */
    method Approve(actor: Actor, pid: Pid, confirmation: string, world: World) returns (r: Outcome, ghost t: Times)
      requires Idle() && (world.observed.Some? ==> IsDict(world.observed.value))
      modifies this, store`rows, store`receipts, mock
      ensures Idle() && Later(old(trace), trace)
      ensures !actor.canApprove ==> r == Refused && store.Content() == old(store.Content())
      ensures actor.canApprove ==>
                var db := old(store.Content()).(rows := ExpireRows(old(store.rows), t.seen));
                var approvable := Approvable(cfg, db, pid, confirmation);
                && (r.Refused? <==> !approvable || (world.lockOpens && Due(db, pid, t.checked)))
                && (r.NoLock? <==> approvable && !world.lockOpens)
                && (!r.Done? ==> store.Content() == AfterRefusal(cfg, db, pid, confirmation, approvable && r.Refused?, t.last))
                && (r.Done? ==> EndedAs(db, store.Content(), pid, actor.name,
                                        StoppedBy(cfg, db.inventory, Fetch(db, pid).value, t.rechecked), r))
      ensures mock.counter != old(mock.counter) ==> r.Done? && r.rc.Some?
    {
      if !actor.canApprove { return Refused, Times(0, 0, 0, 0); }
      ghost var req := Lifecycle.Approve(actor, pid, confirmation);
      var seen, g := ExpireRequests(trace, req);
      r, t := ApproveRead(actor, pid, confirmation, world, g);
      t := t.(seen := seen);
    }

    /** What an approval does after the expiry sweep. */
    method ApproveRead(actor: Actor, pid: Pid, confirmation: string, world: World, ghost g: Trace)
      returns (r: Outcome, ghost t: Times)
      requires Live(g, Lifecycle.Approve(actor, pid, confirmation), Read) && Synced(g) && !locked
      requires world.observed.Some? ==> IsDict(world.observed.value)
      modifies this, store`rows, store`receipts, mock
      ensures Idle() && Later(g, trace)
      ensures var db, approvable := old(store.Content()), Approvable(cfg, old(store.Content()), pid, confirmation);
              && (r.Refused? <==> !approvable || (world.lockOpens && Due(db, pid, t.checked)))
              && (r.NoLock? <==> approvable && !world.lockOpens)
              && (!r.Done? ==> store.Content() == AfterRefusal(cfg, db, pid, confirmation, approvable && r.Refused?, t.last))
              && (r.Done? ==> EndedAs(db, store.Content(), pid, actor.name,
                                      StoppedBy(cfg, db.inventory, Fetch(db, pid).value, t.rechecked), r))
      ensures mock.counter != old(mock.counter) ==> r.Done? && r.rc.Some?
    {
      ghost var req := Lifecycle.Approve(actor, pid, confirmation);
      t := Times(0, 0, 0, 0);
      var q := store.Get(pid);
      if q.None? || q.value.row.frozen.clientId != cfg.client.clientId || q.value.row.status != PROPOSED {
        ghost var h := ReadsRefused(g, req);
        trace := h;
        return Refused, t;
      }
      var p := q.value;
      if PlanHash(p.plan) != p.row.frozen.hash {
        var last := FailTampered(actor, pid, confirmation, p, g);
        return Refused, t.(last := last);
      }
      if p.row.frozen.risk == HIGH && confirmation != p.row.frozen.confirmation {
        ghost var h := ReadsRefused(g, req);
        trace := h;
        return Refused, t;
      }
      ghost var g1 := ReadsRow(g, req, p);
      r, t := ApproveMatching(actor, pid, confirmation, p, world, g1);
    }

    method FailTampered(actor: Actor, pid: Pid, ghost confirmation: string, p: Proposal, ghost g: Trace) returns (last: int)
      requires Live(g, Lifecycle.Approve(actor, pid, confirmation), Read) && Synced(g) && !locked
      requires Fetch(store.Content(), pid) == Some(p) && Awaiting(cfg, store.Content(), pid) && !HashOk(p)
      modifies `trace, store`rows
      ensures Idle() && Later(g, trace)
      ensures store.rows == Update(old(store.rows), pid, EndPatch(FAILED, last))
    {
      ghost var req := Lifecycle.Approve(actor, pid, confirmation);
      ghost var g1 := ReadsRow(g, req, p);
      last := Now();
      store.UpdateRow(pid, EndPatch(FAILED, last));
      ghost var g2 := Ticks(g1, last);
      ghost var h := MarksTampered(g2, req);
      trace := h;
    }

    /** From the lock on. */
    method ApproveMatching(actor: Actor, pid: Pid, ghost confirmation: string, p: Proposal, world: World, ghost g: Trace)
      returns (r: Outcome, ghost t: Times)
      requires Live(g, Lifecycle.Approve(actor, pid, confirmation), TryLock(p)) && Synced(g) && !locked
      requires Fetch(store.Content(), pid) == Some(p) && HashOk(p)
      requires world.observed.Some? ==> IsDict(world.observed.value)
      modifies this, store`rows, store`receipts, mock
      ensures Idle() && Later(g, trace)
      ensures var db := old(store.Content());
              && (r.Refused? <==> world.lockOpens && Due(db, pid, t.checked)) && (r.NoLock? <==> !world.lockOpens)
              && (r.Refused? ==> store.Content() == db.(rows := Update(db.rows, pid, EndPatch(EXPIRED, t.last))))
              && (r.NoLock? ==> store.Content() == db)
              && (r.Done? ==> EndedAs(db, store.Content(), pid, actor.name, StoppedBy(cfg, db.inventory, p, t.rechecked), r))
      ensures mock.counter != old(mock.counter) ==> r.Done? && r.rc.Some?
    {
      ghost var req := Lifecycle.Approve(actor, pid, confirmation);
      var ok := Lock(world.lockOpens);
      if !ok {
        ghost var h := FailsLock(g, req, p);
        trace := h;
        return NoLock, Times(0, 0, 0, 0);
      }
      ghost var g1 := TakesLock(g, req, p);
      ghost var g2: Trace;
      r, t, g2 := ApproveLocked(actor, pid, confirmation, p, world, g1);
      locked := false;
      ghost var h := Unlocks(g2, req);
      trace := h;
    }

    /** Under the lock: expired, or approved and then executed. */
    method ApproveLocked(actor: Actor, pid: Pid, ghost confirmation: string, p: Proposal, world: World, ghost g: Trace)
      returns (r: Outcome, ghost t: Times, ghost h: Trace)
      requires Live(g, Lifecycle.Approve(actor, pid, confirmation), CheckTime(p)) && Synced(g)
      requires Fetch(store.Content(), pid) == Some(p) && HashOk(p)
      requires world.observed.Some? ==> IsDict(world.observed.value)
      modifies store`rows, store`receipts, mock
      ensures Live(h, Lifecycle.Approve(actor, pid, confirmation), Lifecycle.Unlock) && Synced(h) && Later(g, h)
      ensures var db := old(store.Content());
              if t.checked >= p.row.frozen.expiresAt
              then r == Refused && store.Content() == db.(rows := Update(db.rows, pid, EndPatch(EXPIRED, t.last)))
              else r.Done? && EndedAs(db, store.Content(), pid, actor.name, StoppedBy(cfg, db.inventory, p, t.rechecked), r)
      ensures mock.counter != old(mock.counter) ==> r.Done? && r.rc.Some?
    {
      ghost var req := Lifecycle.Approve(actor, pid, confirmation);
      var checked := Now();
      ghost var g1 := Ticks(g, checked);
      ghost var g2 := ChecksTime(g1, req, p);
      if checked >= p.row.frozen.expiresAt {
        var last;
        last, h := GiveUp(req, pid, EXPIRED, g2);
        return Refused, Times(0, checked, 0, last), h;
      }
      var at, g3 := CommitApproved(actor, pid, confirmation, g2);
      ghost var rechecked;
      r, rechecked, h := Execute(actor, pid, confirmation, world, g3);
      t := Times(0, checked, rechecked, 0);
      ApprovedEnds(cfg, old(store.Content()), store.Content(), pid, p, actor.name, at, rechecked, r);
    }

    method CommitApproved(actor: Actor, pid: Pid, ghost confirmation: string, ghost g: Trace) returns (at: int, ghost h: Trace)
      requires Live(g, Lifecycle.Approve(actor, pid, confirmation), MarkApproved) && Synced(g)
      modifies store`rows
      ensures Live(h, Lifecycle.Approve(actor, pid, confirmation), Reread) && Synced(h) && Later(g, h)
      ensures store.rows == Update(old(store.rows), pid, ApprovePatch(actor.name, at))
    {
      at := Now();
      store.UpdateRow(pid, ApprovePatch(actor.name, at));
      ghost var g1 := Ticks(g, at);
      h := Approves(g1, Lifecycle.Approve(actor, pid, confirmation));
    }

    method GiveUp(ghost req: Request, pid: Pid, status: Status, ghost g: Trace) returns (last: int, ghost h: Trace)
      requires req.Approve? && req.pid == pid && Live(g, req, Abandon(status)) && Synced(g)
      modifies store`rows
      ensures Live(h, req, Lifecycle.Unlock) && Synced(h) && Later(g, h)
      ensures store.rows == Update(old(store.rows), pid, EndPatch(status, last))
    {
      last := Now();
      store.UpdateRow(pid, EndPatch(status, last));
      ghost var g1 := Ticks(g, last);
      h := Abandons(g1, req, status);
    }

    /** The second hash check, the second expiry check and the target lookup; then the execution. */
    method Execute(actor: Actor, pid: Pid, ghost confirmation: string, world: World, ghost g: Trace)
      returns (r: Outcome, ghost rechecked: int, ghost h: Trace)
      requires Live(g, Lifecycle.Approve(actor, pid, confirmation), Reread) && Synced(g)
      requires Fetch(store.Content(), pid).Some? && (world.observed.Some? ==> IsDict(world.observed.value))
      modifies store`rows, store`receipts, mock
      ensures Live(h, Lifecycle.Approve(actor, pid, confirmation), Lifecycle.Unlock) && Synced(h) && Later(g, h)
      ensures var db := old(store.Content());
              r.Done? && EndedAs(db, store.Content(), pid, actor.name,
                                 StoppedBy(cfg, db.inventory, Fetch(db, pid).value, rechecked), r)
      ensures mock.counter != old(mock.counter) ==> r.rc.Some?
    {
      ghost var req := Lifecycle.Approve(actor, pid, confirmation);
      var q := store.Get(pid);
      var p := q.value;
      ghost var g1 := Rereads(g, req, p);
      if PlanHash(p.plan) != p.row.frozen.hash {
        var last;
        last, h := GiveUp(req, pid, FAILED, g1);
        return Done(FAILED, None), 0, h;
      }
      r, rechecked, h := ExecuteMatching(actor, pid, confirmation, p, world, g1);
    }

    method ExecuteMatching(actor: Actor, pid: Pid, ghost confirmation: string, p: Proposal, world: World, ghost g: Trace)
      returns (r: Outcome, ghost rechecked: int, ghost h: Trace)
      requires Live(g, Lifecycle.Approve(actor, pid, confirmation), Recheck(p)) && Synced(g)
      requires Fetch(store.Content(), pid) == Some(p) && HashOk(p)
      requires world.observed.Some? ==> IsDict(world.observed.value)
      modifies store`rows, store`receipts, mock
      ensures Live(h, Lifecycle.Approve(actor, pid, confirmation), Lifecycle.Unlock) && Synced(h) && Later(g, h)
      ensures var db := old(store.Content());
              r.Done? && EndedAs(db, store.Content(), pid, actor.name, StoppedBy(cfg, db.inventory, p, rechecked), r)
      ensures mock.counter != old(mock.counter) ==> r.rc.Some?
    {
      ghost var req := Lifecycle.Approve(actor, pid, confirmation);
      var t := Now();
      ghost var g1 := Ticks(g, t);
      ghost var g2 := Rechecks(g1, req, p);
      if t >= p.row.frozen.expiresAt {
        var last;
        last, h := GiveUp(req, pid, EXPIRED, g2);
        return Done(EXPIRED, None), t, h;
      }
      var id := p.row.frozen.targetId;
      ghost var g3 := FindsTarget(g2, req, p);
      if id !in store.inventory || store.inventory[id].clientId != cfg.client.clientId {
        var last;
        last, h := GiveUp(req, pid, FAILED, g3);
        return Done(FAILED, None), t, h;
      }
      r, h := ExecuteOn(actor, pid, confirmation, p, store.inventory[id], world, g3);
      rechecked := t;
    }

    /** EXECUTING is committed before any adapter call, and the result and its receipt after. */
    method ExecuteOn(actor: Actor, pid: Pid, ghost confirmation: string, p: Proposal, t: Target, world: World, ghost g: Trace)
      returns (r: Outcome, ghost h: Trace)
      requires Live(g, Lifecycle.Approve(actor, pid, confirmation), MarkExecuting(p, t)) && Synced(g)
      requires Fetch(store.Content(), pid).Some? && (world.observed.Some? ==> IsDict(world.observed.value))
      modifies store`rows, store`receipts, mock
      ensures Live(h, Lifecycle.Approve(actor, pid, confirmation), Lifecycle.Unlock) && Synced(h) && Later(g, h)
      ensures EndedAs(old(store.Content()), store.Content(), pid, actor.name, None, r)
    {
      ghost var db := store.Content();
      var at, g1 := CommitExecuting(pid, Lifecycle.Approve(actor, pid, confirmation), p, t, g);
      r, h := RunAndConclude(actor, pid, confirmation, p, t, world, g1);
      EndsThrough(db, StartPatch(at), store.Content(), pid, actor.name, None, r);
    }

    method RunAndConclude(actor: Actor, pid: Pid, ghost confirmation: string, p: Proposal, t: Target, world: World, ghost g: Trace)
      returns (r: Outcome, ghost h: Trace)
      requires Live(g, Lifecycle.Approve(actor, pid, confirmation),
                    if p.row.frozen.operation == "plan.run" then Step(p, 0) else Lifecycle.Precheck(p, t))
      requires Synced(g) && (world.observed.Some? ==> IsDict(world.observed.value))
      requires Fetch(store.Content(), pid).Some? && store.rows[pid].startedAt.Some?
      modifies store`rows, store`receipts, mock
      ensures Live(h, Lifecycle.Approve(actor, pid, confirmation), Lifecycle.Unlock) && Synced(h) && Later(g, h)
      ensures EndedAs(old(store.Content()), store.Content(), pid, actor.name, None, r)
    {
      var rc, g1 := ExecuteFrozen(actor, pid, confirmation, p, t, world, g);
      r, h := Conclude(actor, pid, confirmation, rc, g1);
    }

    method CommitExecuting(pid: Pid, ghost req: Request, p: Proposal, t: Target, ghost g: Trace)
      returns (at: int, ghost h: Trace)
      requires req.Approve? && req.pid == pid && Live(g, req, MarkExecuting(p, t)) && Synced(g)
      requires Fetch(store.Content(), pid).Some?
      modifies store`rows
      ensures Live(h, req, if p.row.frozen.operation == "plan.run" then Step(p, 0) else Lifecycle.Precheck(p, t))
      ensures Synced(h) && Later(g, h) && store.rows == Update(old(store.rows), pid, StartPatch(at))
      ensures Fetch(store.Content(), pid).Some? && store.rows[pid].startedAt.Some?
    {
      at := Now();
      SameProposal(store.Content(), pid, Fetch(store.Content(), pid).value, StartPatch(at));
      store.UpdateRow(pid, StartPatch(at));
      ghost var g1 := Ticks(g, at);
      h := StartsExecuting(g1, req, p, t);
    }

    method ExecuteFrozen(actor: Actor, pid: Pid, ghost confirmation: string, p: Proposal, t: Target, world: World, ghost g: Trace)
      returns (rc: int, ghost h: Trace)
      requires Live(g, Lifecycle.Approve(actor, pid, confirmation),
                    if p.row.frozen.operation == "plan.run" then Step(p, 0) else Lifecycle.Precheck(p, t))
      requires Synced(g) && (world.observed.Some? ==> IsDict(world.observed.value))
      modifies mock
      ensures Live(h, Lifecycle.Approve(actor, pid, confirmation), Finish(rc)) && Synced(h) && Later(g, h)
    {
      ghost var req := Lifecycle.Approve(actor, pid, confirmation);
      if p.row.frozen.operation == "script.run" {
        rc, h := ExecuteScript(req, pid, p, t, world, g);
      } else if p.row.frozen.operation == "plan.run" {
        rc, h := ExecutePlan(req, pid, p, world, g);
      } else {
        rc, h := ExecuteOperation(req, pid, p, t, world, g);
      }
    }

    /** The result goes into the row, and then with the row into the receipt. */
    method Conclude(actor: Actor, pid: Pid, ghost confirmation: string, rc: int, ghost g: Trace)
      returns (r: Outcome, ghost h: Trace)
      requires Live(g, Lifecycle.Approve(actor, pid, confirmation), Finish(rc)) && Synced(g)
      requires Fetch(store.Content(), pid).Some? && store.rows[pid].startedAt.Some?
      modifies store`rows, store`receipts
      ensures Live(h, Lifecycle.Approve(actor, pid, confirmation), Lifecycle.Unlock) && Synced(h) && Later(g, h)
      ensures r == Done(if rc == 0 then SUCCEEDED else FAILED, Some(rc))
      ensures EndedAs(old(store.Content()), store.Content(), pid, actor.name, None, r)
    {
      ghost var req := Lifecycle.Approve(actor, pid, confirmation);
      var status := if rc == 0 then SUCCEEDED else FAILED;
      var t := Now();
      store.UpdateRow(pid, Patch(status, None, None, None, Some(t), Some(rc)));
      ghost var g1 := Ticks(g, t);
      ghost var g2 := Finishes(g1, req, rc);
      SameProposal(old(store.Content()), pid, Fetch(old(store.Content()), pid).value, ResultPatch(rc, t));
      h := SaveReceipt(actor, pid, confirmation, status, rc, g2);
      return Done(status, Some(rc)), h;
    }

    method SaveReceipt(actor: Actor, pid: Pid, ghost confirmation: string, status: Status, rc: int, ghost g: Trace)
      returns (ghost h: Trace)
      requires Live(g, Lifecycle.Approve(actor, pid, confirmation), GetFinal(rc)) && Synced(g)
      requires Fetch(store.Content(), pid).Some? && status == if rc == 0 then SUCCEEDED else FAILED
      modifies store`receipts
      ensures Live(h, Lifecycle.Approve(actor, pid, confirmation), Lifecycle.Unlock) && Synced(h) && Later(g, h)
      ensures store.receipts == old(store.receipts)[pid := Receipt(status, actor.name, Some(rc), store.rows[pid])]
    {
      ghost var req := Lifecycle.Approve(actor, pid, confirmation);
      var final := store.Get(pid);
      ghost var g1 := ReadsFinal(g, req, rc);
      store.AddReceipt(pid, Receipt(status, actor.name, Some(rc), final.value.row));
      h := WritesReceipt(g1, req, final.value.row, rc);
    }

    // ----- the three ways to execute -----

    /** One adapter call: the mock adapter's own answer, or the host's. */
    method CallAdapter(p: Proposal, w: Where, t: Target, a: Answer) returns (rc: int)
      requires !w.Script? && (w.Nth? ==> w.i < |Steps(p.plan)|)
      modifies mock
      ensures MadeAs(p, w, t, a, rc, old(mock.View()), mock.View())
      ensures rc == WorldRc(p, w, a)
      ensures mock.counter == if Counts(p, w) then old(mock.counter) + 1 else old(mock.counter)
    {
      SingleCalls(p, w);
      if AdapterOf(p, w) == "mock" {
        rc := mock.Execute(OperationOf(p, w), t, Get(What(p, w), "parameters"));
      } else {
        rc := a.rc;
      }
    }

    /** One call with its two events. */
    method CallAndReturn(ghost req: Request, pid: Pid, p: Proposal, w: Where, t: Target, a: Answer, ghost g: Trace)
      returns (rc: int, ghost h: Trace)
      requires req.Approve? && req.pid == pid && Live(g, req, Call(p, t, w)) && Synced(g)
      requires !w.Script? && (w.Nth? ==> w.i < |Steps(p.plan)|)
      modifies mock
      ensures MadeAs(p, w, t, a, rc, old(mock.View()), mock.View())
      ensures Live(h, req, After(p, w, rc)) && Synced(h) && Later(g, h) && Handler(h) == Handler(g)
      ensures rc == WorldRc(p, w, a) && h.s.log == g.s.log + CallEvents(Handler(g), pid, p, w, rc)
    {
      ghost var before := mock.counter;
      rc := CallAdapter(p, w, t, a);
      ghost var g1 := Calls(g, req, p, t, w);
      h := Returns(g1, req, p, t, w, before, a.rc);
    }

    /** One call, made exactly when the adapter is there and the state observed on the host is undrifted, or the mock
        adapter's counter the stored one. */
    method ExecuteOperation(ghost req: Request, pid: Pid, p: Proposal, t: Target, world: World, ghost g: Trace)
      returns (rc: int, ghost h: Trace)
      requires req.Approve? && req.pid == pid && Live(g, req, Lifecycle.Precheck(p, t)) && Synced(g)
      requires p.row.frozen.operation != "script.run" && p.row.frozen.operation != "plan.run"
      requires world.observed.Some? ==> IsDict(world.observed.value)
      modifies mock
      ensures Live(h, req, Finish(rc)) && Synced(h) && Later(g, h)
      ensures if Clearance.SingleClear(cfg, old(mock.counter), p.row.frozen, world.observed)
              then && MadeAs(p, Single, t, world.At(0), rc, old(mock.View()), mock.View())
                   && h.s.log == g.s.log + CallEvents(Handler(g), pid, p, Single, rc)
              else rc == 1 && mock.View() == old(mock.View()) && h.s.log == g.s.log
    {
      ReadyIsClear(cfg, mock.counter, p, t, world.observed);
      ghost var g1 := Prechecks(g, req, p, t, world.observed);
      if p.row.frozen.adapter !in cfg.adapters { return 1, g1; }
      var seen := world.observed;
      if p.row.frozen.adapter == "mock" {
        var state := mock.Precheck(t);
        seen := Some(state);
      }
      if seen.None? || !Holds(p.row.frozen.adapter, p.row.frozen.preState, seen.value) { return 1, g1; }
      rc, h := CallAndReturn(req, pid, p, Single, t, world.At(0), g1);
    }

    /** One run, made exactly when the adapter is there, the plan holds a script and its file is unchanged. */
    method ExecuteScript(ghost req: Request, pid: Pid, p: Proposal, t: Target, world: World, ghost g: Trace)
      returns (rc: int, ghost h: Trace)
      requires req.Approve? && req.pid == pid && Live(g, req, Lifecycle.Precheck(p, t)) && Synced(g)
      requires p.row.frozen.operation == "script.run"
      ensures Live(h, req, Finish(rc)) && Synced(h) && Later(g, h)
      ensures var ready := p.row.frozen.adapter in cfg.adapters && world.intact && Has(p.plan, "script");
              && rc == (if ready then world.At(0).rc else 1)
              && h.s.log == g.s.log + if ready then CallEvents(Handler(g), pid, p, Lifecycle.Script, rc) else []
    {
      ghost var g1 := PrechecksScript(g, req, p, t, world.intact);
      if p.row.frozen.adapter !in cfg.adapters || !Has(p.plan, "script") || !world.intact { return 1, g1; }
      rc := world.At(0).rc;
      ghost var g2 := Calls(g1, req, p, t, Lifecycle.Script);
      h := Returns(g2, req, p, t, Lifecycle.Script, mock.counter, rc);
    }

    /** The steps in order, up to the first that may not be called or does not return 0. */
    method ExecutePlan(ghost req: Request, pid: Pid, p: Proposal, world: World, ghost g: Trace) returns (rc: int, ghost h: Trace)
      requires req.Approve? && req.pid == pid && Live(g, req, Step(p, 0)) && Synced(g)
      modifies mock
      ensures Live(h, req, Finish(rc)) && Synced(h) && Later(g, h)
      ensures var run := PlanRun(cfg, store.inventory, p, world, Handler(g), pid, 0);
              rc == run.1 && h.s.log == g.s.log + run.0
    {
      h := g;
      var i := 0;
      ghost var left := PlanRun(cfg, store.inventory, p, world, Handler(g), pid, 0);
      while i < |Steps(p.plan)|
        invariant 0 <= i <= |Steps(p.plan)| && Live(h, req, Step(p, i)) && Synced(h) && Later(g, h) && Handler(h) == Handler(g)
        invariant left == PlanRun(cfg, store.inventory, p, world, Handler(g), pid, i)
        invariant left.1 == PlanRun(cfg, store.inventory, p, world, Handler(g), pid, 0).1
        invariant h.s.log + left.0 == g.s.log + PlanRun(cfg, store.inventory, p, world, Handler(g), pid, 0).0
      {
        ghost var was := h;
        rc, h := ExecuteStep(req, pid, p, i, world, h);
        PlanStep(cfg, store.inventory, p, world, Handler(g), pid, i, was.s.log, h.s.log, rc);
        if rc != 0 { return; }
        i := i + 1;
        left := PlanRun(cfg, store.inventory, p, world, Handler(g), pid, i);
      }
      h := StepsEnd(h, req, p, i);
      return if Get(p.plan, "steps").Arr? then 0 else 1, h;
    }

    method ExecuteStep(ghost req: Request, pid: Pid, p: Proposal, i: nat, world: World, ghost g: Trace)
      returns (rc: int, ghost h: Trace)
      requires req.Approve? && req.pid == pid && Live(g, req, Step(p, i)) && Synced(g) && i < |Steps(p.plan)|
      modifies mock
      ensures Live(h, req, if rc == 0 then Step(p, i + 1) else Finish(rc)) && Synced(h) && Later(g, h) && Handler(h) == Handler(g)
      ensures Stepped(cfg, store.inventory, p, world, Handler(g), pid, i, g.s.log, h.s.log, rc)
      ensures StepMade(cfg, store.inventory, p, world, i, rc, old(mock.View()), mock.View())
    {
      var may, g1 := CheckStep(req, pid, p, i, world, g);
      if !may { return 1, g1; }
      rc, h := CallAndReturn(req, pid, p, Nth(i), store.inventory[Text(Get(Steps(p.plan)[i], "target_id"))], world.At(i), g1);
    }

    /** The target, the adapter, the operation and the precheck of one step. */
    method CheckStep(ghost req: Request, pid: Pid, p: Proposal, i: nat, world: World, ghost g: Trace)
      returns (may: bool, ghost h: Trace)
      requires req.Approve? && req.pid == pid && Live(g, req, Step(p, i)) && Synced(g) && i < |Steps(p.plan)|
      ensures may == StepMay(cfg, store.inventory, p, i, world)
      ensures may ==> Text(Get(Steps(p.plan)[i], "target_id")) in store.inventory
      ensures Live(h, req, if may then Call(p, store.inventory[Text(Get(Steps(p.plan)[i], "target_id"))], Nth(i)) else Finish(1))
      ensures Synced(h) && Later(g, h) && Handler(h) == Handler(g) && h.s.log == g.s.log
    {
      var step := Steps(p.plan)[i];
      var id, adapter := Text(Get(step, "target_id")), Text(Get(step, "adapter"));
      var op := GetOperation(Text(Get(step, "operation")));
      var answers := adapter == "mock" || world.At(i).ready;
      h := StepsOn(g, req, p, i, answers);
      if id !in store.inventory || store.inventory[id].clientId != cfg.client.clientId { return false, h; }
      if adapter !in cfg.adapters { return false, h; }
      if op.None? || op.value.adapter != adapter { return false, h; }
      return answers, h;
    }

    // ----- proposing -----

    method LookUp(ref: string) returns (r: Option<Target>)
      ensures r == Lifecycle.ResolveTarget(cfg, store.inventory, ref)
    {
      if ref == "" { return None; }
      var id := ref;
      if ref !in store.inventory {
        var ids := store.InventoryByName(ref);
        OneByName(store.inventory, ref, ids);
        if |ids| != 1 { return None; }
        id :| id in ids;
      }
      if store.inventory[id].clientId != cfg.client.clientId { return None; }
      return Some(store.inventory[id]);
    }

    method ValidatedOperation(name: string, ref: string, parameters: Json) returns (r: Option<Checked>)
      ensures r == CheckOperation(cfg, store.inventory, name, ref, parameters)
    {
      var op := GetOperation(name);
      if op.None? || op.value.risk == FORBIDDEN { return None; }
      if (op.value.adapter, op.value.name) !in cfg.allowed { return None; }
      var target := LookUp(ref);
      if target.None? { return None; }
      if target.value.adapter != op.value.adapter || target.value.kind != op.value.targetKind { return None; }
      var clean := ValidateParams(op.value, parameters);
      if clean.None? { return None; }
      return Some(Checked(op.value, target.value, clean.value));
    }

    /** The draft becomes a row at the time read here, unless the id is taken. */
    method PutDraft(ghost req: Request, actor: Actor, pid: Pid, d: Draft, pre: Json) returns (ok: bool, now: int)
      requires !req.Look? && req.pid == pid && req.actor == actor && IsDict(pre)
      requires DictRequest(req) && Resolved(cfg, store.inventory, req) == Some(d)
      modifies store`rows
      ensures ok == (pid !in old(store.rows))
      ensures if ok then Proposed(cfg, old(store.Content()), store.Content(), pid, actor.uid, d, pre, now)
              else store.Content() == old(store.Content())
      ensures ok ==> Requests.RowAsked(cfg, store.inventory, req, store.rows[pid])
    {
      now := Now();
      Requests.NewRowAsked(cfg, store.inventory, req, d, pre, now);
      ok := store.Insert(pid, NewRow(cfg, actor.uid, d, pre, now));
      if ok { AddsProposal(cfg, old(store.Content()), store.Content(), pid, actor.uid, d, pre, now); }
    }

    method InsertDraft(ghost req: Request, actor: Actor, pid: Pid, d: Draft, pre: Json, ghost at: nat, ghost g: Trace)
      returns (ok: bool, ghost created: int)
      requires Live(g, req, Lifecycle.Insert(d, pre, at)) && Synced(g) && IsDict(pre) && !locked
      requires (req.Propose? || req.ProposePlan? || req.ProposeScript?) && req.pid == pid && req.actor == actor
      requires DictRequest(req) && Resolved(cfg, store.inventory, req) == Some(d)
      modifies `trace, store`rows
      ensures Idle() && Later(g, trace) && (ok <==> pid !in old(store.rows))
      ensures if ok then Proposed(cfg, old(store.Content()), store.Content(), pid, actor.uid, d, pre, created)
              else store.Content() == old(store.Content())
      ensures ok ==> Requests.RowAsked(cfg, store.inventory, req, store.rows[pid])
    {
      var now;
      ok, now := PutDraft(req, actor, pid, d, pre);
      ghost var h := InsertsAt(g, req, d, pre, at, now);
      trace := h;
      return ok, now;
    }

    /** A proposal is accepted exactly when its operation and target check out, the precheck answers and its id is new;
        then exactly one row is added, frozen from the checked operation and the observed state. */
    method Propose(actor: Actor, pid: Pid, operation: string, target: string, parameters: Json, answer: Option<Json>)
      returns (ok: bool, ghost seen: int, ghost created: int)
      requires Idle() && IsDict(parameters) && (answer.Some? ==> IsDict(answer.value))
      modifies this, store`rows
      ensures Idle() && Later(old(trace), trace)
      ensures !actor.canRead ==> !ok && store.Content() == old(store.Content())
      ensures actor.canRead ==>
                var db := old(store.Content()).(rows := ExpireRows(old(store.rows), seen));
                var d := Resolved(cfg, db.inventory, Lifecycle.Propose(actor, pid, operation, target, parameters));
                var pre := if d.Some? then Observed(mock.counter, d.value, answer) else None;
                && (ok <==> pre.Some? && pid !in db.rows)
                && (if ok then Proposed(cfg, db, store.Content(), pid, actor.uid, d.value, pre.value, created)
                    else store.Content() == db)
      ensures var req := Lifecycle.Propose(actor, pid, operation, target, parameters);
              && (Resolved(cfg, store.inventory, req).Some? <==> Requests.Acceptable(cfg, store.inventory, req))
              && (ok ==> pid in store.rows && Requests.RowAsked(cfg, store.inventory, req, store.rows[pid]))
    {
      ghost var asked := Lifecycle.Propose(actor, pid, operation, target, parameters);
      Requests.AcceptedExactly(cfg, store.inventory, asked);
      if !actor.canRead { return false, 0, 0; }
      ghost var req := Lifecycle.Propose(actor, pid, operation, target, parameters);
      var t0, g := ExpireRequests(trace, req);
      var c := ValidatedOperation(operation, target, parameters);
      ghost var g1 := Resolves(g, req);
      if c.None? || c.value.op.adapter !in cfg.adapters {
        trace := g1;
        return false, t0, 0;
      }
      var done, at := ProposeDraft(req, actor, pid, OperationDraft(c.value), answer, g1);
      return done, t0, at;
    }

    method ProposeDraft(ghost req: Request, actor: Actor, pid: Pid, d: Draft, answer: Option<Json>, ghost g: Trace)
      returns (ok: bool, ghost created: int)
      requires Live(g, req, Pre(d)) && Synced(g) && !locked && req.Propose? && req.pid == pid && req.actor == actor
      requires DictRequest(req) && Resolved(cfg, store.inventory, req) == Some(d) && (answer.Some? ==> IsDict(answer.value))
      modifies `trace, store`rows
      ensures Idle() && Later(g, trace)
      ensures var pre := Observed(mock.counter, d, answer);
              && (ok <==> pre.Some? && pid !in old(store.rows))
              && (if ok then Proposed(cfg, old(store.Content()), store.Content(), pid, actor.uid, d, pre.value, created)
                  else store.Content() == old(store.Content()))
      ensures ok ==> pid in store.rows && Requests.RowAsked(cfg, store.inventory, req, store.rows[pid])
    {
      var seen := ObserveFor(d, answer);
      ghost var h := PrechecksDraft(g, req, d, answer);
      if seen.None? {
        trace := h;
        return false, 0;
      }
      ok, created := InsertDraft(req, actor, pid, d, seen.value, |g.s.log|, h);
    }

    method ObserveFor(d: Draft, answer: Option<Json>) returns (seen: Option<Json>)
      requires answer.Some? ==> IsDict(answer.value)
      ensures seen == Observed(mock.counter, d, answer) && (seen.Some? ==> IsDict(seen.value))
    {
      seen := answer;
      if d.adapter == "mock" {
        var state := mock.Precheck(d.target);
        MockStateDict(mock.counter, d.target);
        seen := Some(state);
      }
    }

    /** The steps of a plan are checked in order; the risk is raised as they go and each checked step is frozen. */
    method CheckPlan(steps: seq<StepRequest>) returns (risk: Risk, frozen: seq<Json>)
      ensures var cs := CheckSteps(cfg, store.inventory, steps);
              && (cs.Some? ==> risk == FoldRisk(cs.value) && frozen == FrozenSteps(cs.value) && |cs.value| == |steps|)
              && (cs.Some? <==> |frozen| == |steps|)
      ensures AllDicts(steps) ==>
                && (|frozen| == |steps| <==> Requests.EachSuits(cfg, store.inventory, steps))
                && (|frozen| == |steps| ==>
                      Requests.StepsAsked(cfg, store.inventory, steps, frozen) && Requests.RiskOfSteps(steps, risk))
    {
      if AllDicts(steps) { Requests.StepsExactly(cfg, store.inventory, steps); }
      risk, frozen := LOW, [];
      ghost var cs: seq<Checked>, init: seq<StepRequest> := [], [];
      var i := 0;
      while i < |steps|
        invariant 0 <= i <= |steps| && init == steps[..i] && Checking(cfg, store.inventory, init, cs, risk, frozen)
      {
        var ok;
        ok, risk, frozen, cs := CheckNext(init, steps[i], cs, risk, frozen);
        init := init + [steps[i]];
        if !ok {
          BadPrefix(cfg, store.inventory, steps, i + 1);
          return LOW, [];
        }
        i := i + 1;
      }
      assert init == steps;
    }

    method CheckNext(ghost init: seq<StepRequest>, step: StepRequest, ghost cs: seq<Checked>, risk: Risk, frozen: seq<Json>)
      returns (ok: bool, risk': Risk, frozen': seq<Json>, ghost cs': seq<Checked>)
      requires Checking(cfg, store.inventory, init, cs, risk, frozen)
      ensures if ok then Checking(cfg, store.inventory, init + [step], cs', risk', frozen')
              else CheckSteps(cfg, store.inventory, init + [step]) == None
    {
      var c := ValidatedOperation(step.operation, step.target, step.parameters);
      if c.None? {
        BadStep(cfg, store.inventory, init, step);
        return false, risk, frozen, cs;
      }
      OneMore(cfg, store.inventory, init, step, cs, c.value);
      FoldMore(cs, c.value);
      risk' := if Order(c.value.op.risk) > Order(risk) then c.value.op.risk else risk;
      return true, risk', frozen + [FrozenStep(c.value)], cs + [c.value];
    }

    /** The draft of a plan: its target is the first step's, its risk the fold over all of them. */
    method DraftOf(ghost actor: Actor, ghost pid: Pid, steps: seq<StepRequest>, declared: Json) returns (d: Option<Draft>)
      ensures d == Resolved(cfg, store.inventory, Lifecycle.ProposePlan(actor, pid, steps, declared))
    {
      if steps == [] || |steps| > cfg.maxSteps { return None; }
      var risk, frozen := CheckPlan(steps);
      if |frozen| != |steps| { return None; }
      FrozenTarget(CheckSteps(cfg, store.inventory, steps).value);
      var first := LookUp(Text(Get(frozen[0], "target_id")));
      if first.None? { return None; }
      return Some(Draft(first.value.adapter, "plan.run", first.value, Obj([]), risk, "run_plan", 600,
                        if risk == HIGH then "APPROVE PLAN " + first.value.name else "",
                        Some(Arr(frozen)), None, Some(declared)));
    }

    /** A plan is accepted exactly when every step checks out and its id is new. */
    method ProposePlan(actor: Actor, pid: Pid, steps: seq<StepRequest>, declared: Json)
      returns (ok: bool, ghost seen: int, ghost created: int)
      requires Idle() && AllDicts(steps) && IsDict(declared)
      modifies this, store`rows
      ensures Idle() && Later(old(trace), trace)
      ensures !actor.canRead ==> !ok && store.Content() == old(store.Content())
      ensures actor.canRead ==>
                var db := old(store.Content()).(rows := ExpireRows(old(store.rows), seen));
                var d := Resolved(cfg, db.inventory, Lifecycle.ProposePlan(actor, pid, steps, declared));
                && (ok <==> d.Some? && pid !in db.rows)
                && (if ok then Proposed(cfg, db, store.Content(), pid, actor.uid, d.value, Obj([]), created)
                    else store.Content() == db)
      ensures var req := Lifecycle.ProposePlan(actor, pid, steps, declared);
              && (Resolved(cfg, store.inventory, req).Some? <==> Requests.Acceptable(cfg, store.inventory, req))
              && (ok ==> pid in store.rows && Requests.RowAsked(cfg, store.inventory, req, store.rows[pid]))
    {
      ghost var asked := Lifecycle.ProposePlan(actor, pid, steps, declared);
      Requests.AcceptedExactly(cfg, store.inventory, asked);
      if !actor.canRead { return false, 0, 0; }
      ghost var req := Lifecycle.ProposePlan(actor, pid, steps, declared);
      var t0, g := ExpireRequests(trace, req);
      var d := DraftOf(actor, pid, steps, declared);
      ghost var g1 := Resolves(g, req);
      if d.None? {
        trace := g1;
        return false, t0, 0;
      }
      var done, at := InsertDraft(req, actor, pid, d.value, Obj([]), |g.s.log|, g1);
      return done, t0, at;
    }

    /** A script is accepted exactly when its target checks out and its id is new; when the host does not answer the
        precheck it is frozen with an empty state. */
    method ProposeScript(actor: Actor, pid: Pid, target: string, script: Json, timeout: int, declared: Json, answer: Option<Json>)
      returns (ok: bool, ghost seen: int, ghost created: int)
      requires Idle() && IsDict(script) && IsDict(declared) && (answer.Some? ==> IsDict(answer.value))
      modifies this, store`rows
      ensures Idle() && Later(old(trace), trace)
      ensures !actor.canRead ==> !ok && store.Content() == old(store.Content())
      ensures actor.canRead ==>
                var db := old(store.Content()).(rows := ExpireRows(old(store.rows), seen));
                var d := Resolved(cfg, db.inventory, Lifecycle.ProposeScript(actor, pid, target, script, timeout, declared));
                && (ok <==> d.Some? && pid !in db.rows)
                && (if ok
                    then var pre := Observed(mock.counter, d.value, answer);
                         Proposed(cfg, db, store.Content(), pid, actor.uid, d.value,
                                  if pre.Some? then pre.value else Obj([]), created)
                    else store.Content() == db)
      ensures var req := Lifecycle.ProposeScript(actor, pid, target, script, timeout, declared);
              && (Resolved(cfg, store.inventory, req).Some? <==> Requests.Acceptable(cfg, store.inventory, req))
              && (ok ==> pid in store.rows && Requests.RowAsked(cfg, store.inventory, req, store.rows[pid]))
    {
      ghost var asked := Lifecycle.ProposeScript(actor, pid, target, script, timeout, declared);
      Requests.AcceptedExactly(cfg, store.inventory, asked);
      if !actor.canRead { return false, 0, 0; }
      ghost var req := Lifecycle.ProposeScript(actor, pid, target, script, timeout, declared);
      var t0, g := ExpireRequests(trace, req);
      var t := LookUp(target);
      ghost var g1 := Resolves(g, req);
      if t.None? || t.value.adapter !in cfg.adapters {
        trace := g1;
        return false, t0, 0;
      }
      var d := Draft(t.value.adapter, "script.run", t.value, Obj([]), HIGH, "run_script", timeout,
                     "APPROVE " + t.value.name, None, Some(script), Some(declared));
      var done, at := ProposeScriptDraft(req, actor, pid, d, answer, g1);
      return done, t0, at;
    }

    method ProposeScriptDraft(ghost req: Request, actor: Actor, pid: Pid, d: Draft, answer: Option<Json>, ghost g: Trace)
      returns (ok: bool, ghost created: int)
      requires Live(g, req, Pre(d)) && Synced(g) && !locked && req.ProposeScript? && req.pid == pid && req.actor == actor
      requires DictRequest(req) && Resolved(cfg, store.inventory, req) == Some(d) && (answer.Some? ==> IsDict(answer.value))
      modifies `trace, store`rows
      ensures Idle() && Later(g, trace) && (ok <==> pid !in old(store.rows))
      ensures var pre := Observed(mock.counter, d, answer);
              if ok then Proposed(cfg, old(store.Content()), store.Content(), pid, actor.uid, d,
                                  if pre.Some? then pre.value else Obj([]), created)
              else store.Content() == old(store.Content())
      ensures ok ==> pid in store.rows && Requests.RowAsked(cfg, store.inventory, req, store.rows[pid])
    {
      var seen := ObserveFor(d, answer);
      ghost var h := PrechecksDraft(g, req, d, answer);
      ok, created := InsertDraft(req, actor, pid, d, if seen.Some? then seen.value else Obj([]), |g.s.log|, h);
    }
  }

  /** Whatever calls the service has served: the receipts are exactly those of the closed rows and agree with them, and
      every proposal was executed at most once. */
  lemma TablesAgree(b: BrokerService, p: Pid)
    requires b.Idle()
    ensures p in b.store.receipts <==> p in b.store.rows && Closed(b.store.rows[p])
    ensures p in b.store.receipts ==> Agrees(b.store.receipts[p], b.store.rows[p])
    ensures Threads.Entries(b.trace.s.log, p) <= 1
  {
    SoundTables(b.trace, p);
  }
}
