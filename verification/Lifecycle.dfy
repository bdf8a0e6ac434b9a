/** `service.py` as a small-step machine: one step per store call, lock operation or adapter call; a clock
    reading shares the step of the statement or test that uses it.
    Handler threads interleave at every step, any handler may die by an exception, the whole process may crash
    between any two statements, and the plan column of a row may be edited behind the broker's back. */
module Lifecycle {
  import opened Options
  import opened JsonText
  import opened Registry

  type Pid = string
  type Tid = nat

  datatype Status = PROPOSED | APPROVED | EXECUTING | SUCCEEDED | FAILED | REJECTED | CANCELLED | EXPIRED

  /** The columns no UPDATE statement of the service names. */
  datatype Frozen = Frozen(clientId: string, requestUid: int, adapter: string, operation: string, targetId: string,
                           targetName: string, parameters: Json, risk: Risk, hash: Digest, confirmation: string,
                           createdAt: int, expiresAt: int, preState: Json)

  datatype Row = Row(frozen: Frozen, planText: string, status: Status, approvedAt: Option<int>,
                     approver: Option<string>, startedAt: Option<int>, finishedAt: Option<int>, rc: Option<int>)

  datatype Receipt = Receipt(status: Status, approver: string, rc: Option<int>, columns: Row)

  datatype Db = Db(rows: map<Pid, Row>, receipts: map<Pid, Receipt>, inventory: map<string, Target>)

  datatype Config = Config(client: Client, ttl: int, allowed: set<(string, string)>, adapters: set<string>, maxSteps: nat)

  datatype Actor = Actor(uid: int, name: string, canRead: bool, canApprove: bool)

  datatype StepRequest = StepRequest(operation: string, target: string, parameters: Json)

  datatype Request =
    | Approve(actor: Actor, pid: Pid, confirmation: string)
    | Close(actor: Actor, pid: Pid, verdict: Status)
    | Propose(actor: Actor, pid: Pid, operation: string, target: string, parameters: Json)
    | ProposePlan(actor: Actor, pid: Pid, steps: seq<StepRequest>, declared: Json)
    | ProposeScript(actor: Actor, pid: Pid, target: string, script: Json, timeout: int, declared: Json)
    | Look(actor: Actor)

  // ----- the store's statements -----

  /** What one UPDATE sets; a column left at None is not named by the statement. */
  datatype Patch = Patch(status: Status, approvedAt: Option<int>, approver: Option<string>, startedAt: Option<int>,
                         finishedAt: Option<int>, rc: Option<int>)

  function Over<T>(new_: Option<T>, old_: Option<T>): Option<T> {
    if new_.Some? then new_ else old_
  }

  function Patched(r: Row, p: Patch): Row {
    r.(status := p.status, approvedAt := Over(p.approvedAt, r.approvedAt), approver := Over(p.approver, r.approver),
       startedAt := Over(p.startedAt, r.startedAt), finishedAt := Over(p.finishedAt, r.finishedAt), rc := Over(p.rc, r.rc))
  }

  function Update(rows: map<Pid, Row>, pid: Pid, p: Patch): map<Pid, Row> {
    if pid in rows then rows[pid := Patched(rows[pid], p)] else rows
  }

  function EndPatch(status: Status, now: int): Patch { Patch(status, None, None, None, Some(now), None) }
  function ApprovePatch(name: string, now: int): Patch { Patch(APPROVED, Some(now), Some(name), None, None, None) }
  function StartPatch(now: int): Patch { Patch(EXECUTING, None, None, Some(now), None, None) }
  function ResultPatch(rc: int, now: int): Patch {
    Patch(if rc == 0 then SUCCEEDED else FAILED, None, None, None, Some(now), Some(rc))
  }
  function ClosePatch(verdict: Status, name: string, now: int): Patch {
    Patch(verdict, None, if verdict == REJECTED then Some(name) else None, None, Some(now), None)
  }

  predicate Overdue(row: Row, now: int) { row.status == PROPOSED && row.frozen.expiresAt <= now }

  function Stale(rows: map<Pid, Row>, now: int): set<Pid> {
    set p | p in rows && Overdue(rows[p], now)
  }

  function ExpireRows(rows: map<Pid, Row>, now: int): map<Pid, Row> {
    map p | p in rows :: if p in Stale(rows, now) then rows[p].(status := EXPIRED) else rows[p]
  }

  // ----- proposing -----

  datatype Draft = Draft(adapter: string, operation: string, target: Target, parameters: Json, risk: Risk,
                         executor: string, timeout: int, confirmation: string,
                         steps: Option<Json>, script: Option<Json>, declared: Option<Json>)

  predicate NamedBy(inv: map<string, Target>, ref: string, id: string) {
    id in inv && inv[id].name == ref
  }

  predicate OnlyNamedBy(inv: map<string, Target>, ref: string, id: string) {
    NamedBy(inv, ref, id) && forall k :: k in inv && NamedBy(inv, ref, k) ==> k == id
  }

  function ByName(inv: map<string, Target>, ref: string): Option<string> {
    if exists id :: id in inv && OnlyNamedBy(inv, ref, id)
    then (var id :| id in inv && OnlyNamedBy(inv, ref, id); Some(id)) else None
  }

  function ResolveTarget(cfg: Config, inv: map<string, Target>, ref: string): Option<Target> {
    if ref == "" then None
    else
      var id := if ref in inv then Some(ref) else ByName(inv, ref);
      if id.Some? && inv[id.value].clientId == cfg.client.clientId then Some(inv[id.value]) else None
  }

  datatype Checked = Checked(op: Operation, target: Target, clean: Json)

  function CheckOperation(cfg: Config, inv: map<string, Target>, name: string, ref: string, parameters: Json): Option<Checked> {
    match GetOperation(name)
    case None => None
    case Some(op) =>
      if op.risk == FORBIDDEN || (op.adapter, op.name) !in cfg.allowed then None
      else match (ResolveTarget(cfg, inv, ref), Clean(op, parameters))
        case (Some(t), Some(clean)) =>
          if t.adapter == op.adapter && t.kind == op.targetKind then Some(Checked(op, t, clean)) else None
        case _ => None
  }

  function FrozenStep(c: Checked): Json {
    Obj([Member("adapter", Str(c.op.adapter)), Member("operation", Str(c.op.name)), Member("target_id", Str(c.target.id)),
         Member("target_name", Str(c.target.name)), Member("target_external_id", Str(c.target.externalId)),
         Member("parameters", c.clean), Member("executor", Str(c.op.executor))])
  }

  function CheckSteps(cfg: Config, inv: map<string, Target>, steps: seq<StepRequest>): Option<seq<Checked>>
    decreases |steps|, 1
  {
    if steps == [] then Some([]) else CheckLast(cfg, inv, steps)
  }

  function CheckLast(cfg: Config, inv: map<string, Target>, steps: seq<StepRequest>): Option<seq<Checked>>
    requires steps != []
    decreases |steps|, 0
  {
    var n := |steps| - 1;
    match (CheckSteps(cfg, inv, steps[..n]), CheckOperation(cfg, inv, steps[n].operation, steps[n].target, steps[n].parameters))
    case (Some(cs), Some(c)) => Some(cs + [c])
    case _ => None
  }

  function FoldRisk(cs: seq<Checked>): Risk {
    if cs == [] then LOW
    else
      var r := FoldRisk(cs[..|cs| - 1]);
      if Order(cs[|cs| - 1].op.risk) > Order(r) then cs[|cs| - 1].op.risk else r
  }

  function FrozenSteps(cs: seq<Checked>): seq<Json> {
    if cs == [] then [] else FrozenSteps(cs[..|cs| - 1]) + [FrozenStep(cs[|cs| - 1])]
  }

  function PlanDraft(first: Target, cs: seq<Checked>, declared: Json): Draft {
    var risk := FoldRisk(cs);
    Draft(first.adapter, "plan.run", first, Obj([]), risk, "run_plan", 600,
          if risk == HIGH then "APPROVE PLAN " + first.name else "", Some(Arr(FrozenSteps(cs))), None, Some(declared))
  }

  function PlanOf(first: Option<Target>, cs: seq<Checked>, declared: Json): Option<Draft> {
    match first case Some(t) => Some(PlanDraft(t, cs, declared)) case None => None
  }

  function OperationDraft(c: Checked): Draft {
    Draft(c.op.adapter, c.op.name, c.target, c.clean, c.op.risk, c.op.executor, 600,
          if c.op.risk == HIGH then ConfirmationPhrase(c.op, c.target.name) else "", None, None, None)
  }

  function Resolved(cfg: Config, inv: map<string, Target>, req: Request): Option<Draft> {
    match req
    case Propose(_, _, operation, target, parameters) =>
      (match CheckOperation(cfg, inv, operation, target, parameters)
       case Some(c) => if c.op.adapter in cfg.adapters then Some(OperationDraft(c)) else None
       case None => None)
    case ProposePlan(_, _, steps, declared) =>
      (if steps == [] || |steps| > cfg.maxSteps then None
       else match CheckSteps(cfg, inv, steps)
         case Some(cs) => if cs == [] then None else PlanOf(ResolveTarget(cfg, inv, cs[0].target.id), cs, declared)
         case None => None)
    case ProposeScript(_, _, target, script, timeout, declared) =>
      (match ResolveTarget(cfg, inv, target)
       case Some(t) =>
         if t.adapter in cfg.adapters
         then Some(Draft(t.adapter, "script.run", t, Obj([]), HIGH, "run_script", timeout, "APPROVE " + t.name,
                         None, Some(script), Some(declared)))
         else None
       case None => None)
    case _ => None
  }

  function DraftPlan(cfg: Config, d: Draft, pre: Json): Json {
    BuildPlan(cfg.client, d.adapter, d.operation, d.target, d.parameters, d.executor, d.timeout, pre,
              d.steps, d.script, d.declared)
  }

  function NewRow(cfg: Config, uid: int, d: Draft, pre: Json, now: int): Row {
    Row(Frozen(cfg.client.clientId, uid, d.adapter, d.operation, d.target.id, d.target.name, d.parameters, d.risk,
               PlanHash(DraftPlan(cfg, d, pre)), d.confirmation, now, now + cfg.ttl, pre),
        Encode(DraftPlan(cfg, d, pre)), PROPOSED, None, None, None, None, None)
  }

  // ----- adapters -----

  function MockState(counter: int, t: Target): Json {
    Obj([Member("counter", Int(counter)), Member("target", Str(t.id))])
  }

  /** `preconditions_hold` of the two adapters. */
  predicate Holds(adapter: string, stored: Json, observed: Json) {
    if adapter == "mock" then Get(stored, "counter") == Get(observed, "counter")
    else if stored == Obj([]) then true
    else if Has(stored, "status") then Get(stored, "status") == Get(observed, "status")
    else if Has(stored, "active") then Get(stored, "active") == Get(observed, "active")
    else if Has(stored, "node") then Get(stored, "node") == Get(observed, "node")
    else Has(stored, "exists") ==> Get(observed, "exists") == Bool(true)
  }

  // ----- handlers -----

  /** What `Store.get` returned: the row and its decoded plan. */
  datatype Proposal = Proposal(row: Row, plan: Json)

  /** Which adapter call: the single operation, the frozen script, or step i of a plan. */
  datatype Where = Single | Script | Nth(i: nat)

  datatype Pc =
    | Expire
    | Read | MarkTampered | TryLock(p: Proposal)
    | CheckTime(p: Proposal) | MarkApproved | Abandon(status: Status)
    | Reread | Recheck(p: Proposal) | FindTarget(p: Proposal) | MarkExecuting(p: Proposal, t: Target)
    | Precheck(p: Proposal, t: Target) | Step(p: Proposal, i: nat)
    | Call(p: Proposal, t: Target, w: Where) | Returning(p: Proposal, t: Target, w: Where, before: int)
    | Finish(rc: int) | GetFinal(rc: int) | WriteReceipt(row: Row, rc: int) | Unlock
    | CloseRead | CloseMark | CloseGet | CloseReceipt(row: Row)
    | Resolve | Pre(d: Draft) | Insert(d: Draft, pre: Json, checkedAt: nat)

  predicate Running(pc: Pc) { pc.Precheck? || pc.Step? || pc.Call? || pc.Returning? }

  /** From `_lock` to `_unlock`. */
  predicate Holding(pc: Pc) {
    pc.CheckTime? || pc.MarkApproved? || pc.Abandon? || pc.Reread? || pc.Recheck? || pc.FindTarget? || pc.MarkExecuting?
    || Running(pc) || pc.Finish? || pc.GetFinal? || pc.WriteReceipt? || pc.Unlock?
  }

  /** `sawAt` and `lockedAt` remember where in the log this handler read its row and took the lock. */
  datatype Job = Job(req: Request, pc: Pc, sawAt: nat, lockedAt: nat)

  datatype Event =
    | Saw(tid: Tid, pid: Pid)
    | Locked(tid: Tid, pid: Pid)
    | Approved(tid: Tid, pid: Pid, actor: Actor)
    | Entered(tid: Tid, pid: Pid, plan: Json, sawAt: nat, lockedAt: nat)
    | Ended(tid: Tid, pid: Pid, status: Status)
    | Expired(tid: Tid, pids: set<Pid>)
    | Called(tid: Tid, pid: Pid, w: Where, what: Json)
    | Returned(tid: Tid, pid: Pid, w: Where, rc: int, saved: bool)

  /** A commit to row `p` after its insertion. */
  predicate Touches(e: Event, p: Pid) {
    match e
    case Approved(_, q, _) => q == p
    case Entered(_, q, _, _, _) => q == p
    case Ended(_, q, _) => q == p
    case Expired(_, qs) => p in qs
    case _ => false
  }

  /** What was frozen when a row was inserted, and where in the log its precheck ran. */
  datatype Birth = Birth(plan: Json, checkedAt: nat)

  datatype State = State(db: Db, mock: int, clock: int, lock: Option<Tid>, next: Tid, jobs: map<Tid, Job>,
                         log: seq<Event>, births: map<Pid, Birth>)

  /** What the outside world answers in one step. */
  datatype Oracle = Oracle(ok: bool, rc: int, observed: Option<Json>)

  const SILENT := Oracle(false, 1, None)

  /** The effect of one step of one handler; no next point means the handler is gone. */
  datatype Act = Act(db: Db, mock: int, lock: Option<Tid>, pc: Option<Pc>, sawAt: nat, lockedAt: nat,
                     events: seq<Event>, births: map<Pid, Birth>)

  function To(s: State, j: Job, pc: Pc): Act {
    Act(s.db, s.mock, s.lock, Some(pc), j.sawAt, j.lockedAt, [], s.births)
  }

  function Quit(s: State, j: Job): Act {
    Act(s.db, s.mock, s.lock, None, j.sawAt, j.lockedAt, [], s.births)
  }

  function Commit(a: Act, s: State, pid: Pid, p: Patch, e: Event): Act {
    a.(db := s.db.(rows := Update(s.db.rows, pid, p)), events := [e])
  }

  function First(req: Request): Pc {
    match req
    case Approve(_, _, _) => Read
    case Close(_, _, _) => CloseRead
    case _ => Resolve
  }

  function Fetch(db: Db, pid: Pid): Option<Proposal> {
    if pid !in db.rows then None
    else match Decode(db.rows[pid].planText)
      case Some(plan) => Some(Proposal(db.rows[pid], plan))
      case None => None
  }

  predicate HashOk(p: Proposal) { PlanHash(p.plan) == p.row.frozen.hash }

  function Opening(cfg: Config, s: State, tid: Tid, j: Job, o: Oracle): Act
    requires j.req.Approve?
  {
    var pid := j.req.pid;
    match j.pc
    case Read =>
      (match Fetch(s.db, pid)
       case None => Quit(s, j)
       case Some(p) =>
         if p.row.frozen.clientId != cfg.client.clientId || p.row.status != PROPOSED then Quit(s, j)
         else
           var a := if !HashOk(p) then To(s, j, MarkTampered)
                    else if p.row.frozen.risk == HIGH && j.req.confirmation != p.row.frozen.confirmation then Quit(s, j)
                    else To(s, j, TryLock(p));
           a.(sawAt := |s.log|, events := [Saw(tid, pid)]))
    case MarkTampered => Commit(Quit(s, j), s, pid, EndPatch(FAILED, s.clock), Ended(tid, pid, FAILED))
    case TryLock(p) =>
      if s.lock.Some? || !o.ok then Quit(s, j)
      else To(s, j, CheckTime(p)).(lock := Some(tid), lockedAt := |s.log|,
             events := [Locked(tid, pid)])
    case _ => Quit(s, j)
  }

  function Locking(cfg: Config, s: State, tid: Tid, j: Job, o: Oracle): Act
    requires j.req.Approve?
  {
    var pid := j.req.pid;
    match j.pc
    case CheckTime(p) => To(s, j, if s.clock >= p.row.frozen.expiresAt then Abandon(EXPIRED) else MarkApproved)
    case MarkApproved =>
      Commit(To(s, j, Reread), s, pid, ApprovePatch(j.req.actor.name, s.clock), Approved(tid, pid, j.req.actor))
    case Abandon(status) => Commit(To(s, j, Unlock), s, pid, EndPatch(status, s.clock), Ended(tid, pid, status))
    case Reread =>
      (match Fetch(s.db, pid)
       case None => To(s, j, Unlock)
       case Some(p) => To(s, j, if HashOk(p) then Recheck(p) else Abandon(FAILED)))
    case Recheck(p) => To(s, j, if s.clock >= p.row.frozen.expiresAt then Abandon(EXPIRED) else FindTarget(p))
    case FindTarget(p) =>
      var id := p.row.frozen.targetId;
      To(s, j, if id in s.db.inventory && s.db.inventory[id].clientId == cfg.client.clientId
               then MarkExecuting(p, s.db.inventory[id]) else Abandon(FAILED))
    case MarkExecuting(p, t) =>
      Commit(To(s, j, if p.row.frozen.operation == "plan.run" then Step(p, 0) else Precheck(p, t)),
             s, pid, StartPatch(s.clock), Entered(tid, pid, p.plan, j.sawAt, j.lockedAt))
    case _ => To(s, j, Unlock)
  }

  function Steps(plan: Json): seq<Json> {
    if Get(plan, "steps").Arr? then Get(plan, "steps").items else []
  }

  /** The adapter, operation and parameters of one call. */
  function What(p: Proposal, w: Where): Json {
    if w.Nth? && w.i < |Steps(p.plan)| then Steps(p.plan)[w.i]
    else Obj([Member("adapter", Str(p.row.frozen.adapter)), Member("operation", Str(p.row.frozen.operation)),
              Member("parameters", p.row.frozen.parameters)])
  }

  function AdapterOf(p: Proposal, w: Where): string {
    if w.Nth? then Text(Get(What(p, w), "adapter")) else p.row.frozen.adapter
  }

  function OperationOf(p: Proposal, w: Where): string {
    if w.Nth? then Text(Get(What(p, w), "operation")) else p.row.frozen.operation
  }

  /** A call that moves the mock adapter's counter. */
  predicate Counts(p: Proposal, w: Where) {
    !w.Script? && AdapterOf(p, w) == "mock" && OperationOf(p, w) != "mock.fail"
  }

  /** Step i of a plan may be called: its target, adapter and operation still resolve and its precheck answers. */
  predicate StepReady(cfg: Config, inv: map<string, Target>, step: Json, o: Oracle) {
    var id := Text(Get(step, "target_id"));
    var op := GetOperation(Text(Get(step, "operation")));
    && id in inv && inv[id].clientId == cfg.client.clientId
    && Text(Get(step, "adapter")) in cfg.adapters
    && op.Some? && op.value.adapter == Text(Get(step, "adapter"))
    && o.ok
  }

  function Fresh(s: State, p: Proposal, t: Target, o: Oracle): Option<Json> {
    if p.row.frozen.adapter == "mock" then Some(MockState(s.mock, t)) else o.observed
  }

  /** The exit status of a call: the mock adapter's is fixed by the operation. */
  function CallRc(p: Proposal, w: Where, o: Oracle): int {
    if w.Script? || AdapterOf(p, w) != "mock" then o.rc else if OperationOf(p, w) == "mock.fail" then 1 else 0
  }

  function After(p: Proposal, w: Where, rc: int): Pc {
    if w.Nth? && rc == 0 then Step(p, w.i + 1) else Finish(rc)
  }

  function Executing(cfg: Config, s: State, tid: Tid, j: Job, o: Oracle): Act
    requires j.req.Approve?
  {
    var pid := j.req.pid;
    match j.pc
    case Precheck(p, t) =>
      To(s, j,
         if p.row.frozen.adapter !in cfg.adapters then Finish(1)
         else if p.row.frozen.operation == "script.run" then (if o.ok && Has(p.plan, "script") then Call(p, t, Script) else Finish(1))
         else if Fresh(s, p, t, o).Some? && Holds(p.row.frozen.adapter, p.row.frozen.preState, Fresh(s, p, t, o).value)
         then Call(p, t, Single) else Finish(1))
    case Step(p, i) =>
      To(s, j,
         if i >= |Steps(p.plan)| then Finish(if Get(p.plan, "steps").Arr? then 0 else 1)
         else if StepReady(cfg, s.db.inventory, Steps(p.plan)[i], o)
         then Call(p, s.db.inventory[Text(Get(Steps(p.plan)[i], "target_id"))], Nth(i)) else Finish(1))
    case Call(p, t, w) => To(s, j, Returning(p, t, w, s.mock)).(events := [Called(tid, pid, w, What(p, w))])
    case Returning(p, t, w, before) =>
      var rc := CallRc(p, w, o);
      To(s, j, After(p, w, rc)).(mock := if Counts(p, w) then before + 1 else s.mock,
                                 events := [Returned(tid, pid, w, rc, Counts(p, w))])
    case _ => To(s, j, Unlock)
  }

  function Ending(s: State, tid: Tid, j: Job): Act
    requires j.req.Approve?
  {
    var pid := j.req.pid;
    match j.pc
    case Finish(rc) =>
      Commit(To(s, j, GetFinal(rc)), s, pid, ResultPatch(rc, s.clock), Ended(tid, pid, ResultPatch(rc, s.clock).status))
    case GetFinal(rc) => To(s, j, if Fetch(s.db, pid).Some? then WriteReceipt(s.db.rows[pid], rc) else Unlock)
    case WriteReceipt(row, rc) =>
      To(s, j, Unlock).(db := s.db.(receipts := s.db.receipts[pid :=
        Receipt(if rc == 0 then SUCCEEDED else FAILED, j.req.actor.name, Some(rc), row)]))
    case _ => Quit(s, j).(lock := None)
  }

  predicate MayClose(cfg: Config, row: Row, j: Job)
    requires j.req.Close?
  {
    && row.frozen.clientId == cfg.client.clientId
    && (j.req.verdict == CANCELLED ==> row.frozen.requestUid == j.req.actor.uid || j.req.actor.canApprove)
    && row.status == PROPOSED
  }

  function Closing(cfg: Config, s: State, tid: Tid, j: Job): Act
    requires j.req.Close?
  {
    var pid := j.req.pid;
    match j.pc
    case CloseRead =>
      if pid in s.db.rows && Fetch(s.db, pid).Some? && MayClose(cfg, s.db.rows[pid], j) then To(s, j, CloseMark) else Quit(s, j)
    case CloseMark =>
      Commit(To(s, j, CloseGet), s, pid, ClosePatch(j.req.verdict, j.req.actor.name, s.clock), Ended(tid, pid, j.req.verdict))
    case CloseGet => if Fetch(s.db, pid).Some? then To(s, j, CloseReceipt(s.db.rows[pid])) else Quit(s, j)
    case CloseReceipt(row) =>
      Quit(s, j).(db := s.db.(receipts := s.db.receipts[pid := Receipt(j.req.verdict, j.req.actor.name, None, row)]))
    case _ => Quit(s, j)
  }

  function Proposing(cfg: Config, s: State, j: Job, o: Oracle): Act
    requires j.req.Propose? || j.req.ProposePlan? || j.req.ProposeScript?
  {
    var pid := j.req.pid;
    match j.pc
    case Resolve =>
      (match Resolved(cfg, s.db.inventory, j.req)
       case None => Quit(s, j)
       case Some(d) => if j.req.ProposePlan? then To(s, j, Insert(d, Obj([]), |s.log|)) else To(s, j, Pre(d)))
    case Pre(d) =>
      var observed := if d.adapter == "mock" then Some(MockState(s.mock, d.target)) else o.observed;
      (match observed
       case Some(pre) => To(s, j, Insert(d, pre, |s.log|))
       case None => if j.req.ProposeScript? then To(s, j, Insert(d, Obj([]), |s.log|)) else Quit(s, j))
    case Insert(d, pre, at) =>
      if pid in s.db.rows then Quit(s, j)
      else Quit(s, j).(db := s.db.(rows := s.db.rows[pid := NewRow(cfg, j.req.actor.uid, d, pre, s.clock)]),
                       births := s.births[pid := Birth(DraftPlan(cfg, d, pre), at)])
    case _ => Quit(s, j)
  }

  function ExpireAct(s: State, tid: Tid, j: Job): Act {
    (if j.req.Look? then Quit(s, j) else To(s, j, First(j.req))).(
      db := s.db.(rows := ExpireRows(s.db.rows, s.clock)), events := [Expired(tid, Stale(s.db.rows, s.clock))])
  }

  function Do(cfg: Config, s: State, tid: Tid, j: Job, o: Oracle): Act {
    if j.pc.Expire? then ExpireAct(s, tid, j)
    else match j.req
      case Approve(_, _, _) =>
        if j.pc.Read? || j.pc.MarkTampered? || j.pc.TryLock? then Opening(cfg, s, tid, j, o)
        else if Running(j.pc) then Executing(cfg, s, tid, j, o)
        else if j.pc.Finish? || j.pc.GetFinal? || j.pc.WriteReceipt? || j.pc.Unlock? then Ending(s, tid, j)
        else Locking(cfg, s, tid, j, o)
      case Close(_, _, _) => Closing(cfg, s, tid, j)
      case Look(_) => Quit(s, j)
      case _ => Proposing(cfg, s, j, o)
  }

  // ----- runs -----

  datatype Choice =
    | Begin(req: Request)
    | Go(tid: Tid, o: Oracle)
    | Die(tid: Tid)
    | Restart(synced: map<string, Target>)
    | Tick(now: int)
    | Tamper(pid: Pid, text: string)

  predicate Permitted(req: Request) {
    match req
    case Approve(a, _, _) => a.canApprove
    case Close(a, _, v) => if v == REJECTED then a.canApprove else v == CANCELLED && a.canRead
    case _ => req.actor.canRead
  }

  predicate AllDicts(steps: seq<StepRequest>) {
    forall i :: 0 <= i < |steps| ==> IsDict(steps[i].parameters)
  }

  /** Requests and adapter answers come from Python dictionaries, which never repeat a key. */
  predicate DictRequest(req: Request) {
    match req
    case Propose(_, _, _, _, parameters) => IsDict(parameters)
    case ProposePlan(_, _, steps, declared) => AllDicts(steps) && IsDict(declared)
    case ProposeScript(_, _, _, script, _, declared) => IsDict(script) && IsDict(declared)
    case _ => true
  }

  predicate DictAnswer(o: Oracle) { o.observed.Some? ==> IsDict(o.observed.value) }

  /** The state after one handler took the step `a`. */
  function Apply(s: State, tid: Tid, a: Act): State
    requires tid in s.jobs
  {
    s.(db := a.db, mock := a.mock, lock := a.lock, log := s.log + a.events, births := a.births,
       jobs := if a.pc.Some? then s.jobs[tid := Job(s.jobs[tid].req, a.pc.value, a.sawAt, a.lockedAt)] else s.jobs - {tid})
  }

  /** One step of the whole system; a choice that is not enabled changes nothing. */
  function Next(cfg: Config, s: State, c: Choice): State {
    match c
    case Begin(req) =>
      if Permitted(req) && DictRequest(req) then s.(next := s.next + 1, jobs := s.jobs[s.next := Job(req, Expire, 0, 0)]) else s
    case Go(tid, o) => if tid in s.jobs && DictAnswer(o) then Apply(s, tid, Do(cfg, s, tid, s.jobs[tid], o)) else s
    case Die(tid) =>
      if tid in s.jobs
      then s.(jobs := s.jobs - {tid}, lock := if Holding(s.jobs[tid].pc) then None else s.lock) else s
    case Restart(synced) => s.(jobs := map[], lock := None, db := s.db.(inventory := s.db.inventory + synced))
    case Tick(now) => s.(clock := now)
    case Tamper(pid, text) =>
      if pid in s.db.rows then s.(db := s.db.(rows := s.db.rows[pid := s.db.rows[pid].(planText := text)])) else s
  }

  function Run(cfg: Config, s: State, cs: seq<Choice>): State {
    if cs == [] then s else Next(cfg, Run(cfg, s, cs[..|cs| - 1]), cs[|cs| - 1])
  }

  /** An empty database, with the inventory loaded. */
  predicate Initial(s: State) {
    s.db.rows == map[] && s.db.receipts == map[] && s.lock == None && s.jobs == map[] && s.log == [] && s.births == map[]
  }
}
