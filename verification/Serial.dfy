/** Requests served one at a time, with a crash, a restart or an exception possible between any two steps. */
module Serial {
  import opened Options
  import opened Lifecycle
  import opened Threads

  /** A request begins only when no handler is alive. */
  ghost predicate OneAtATime(cfg: Config, s: State, cs: seq<Choice>) {
    cs == [] ||
    (var init := cs[..|cs| - 1];
     OneAtATime(cfg, s, init) && (cs[|cs| - 1].Begin? ==> Run(cfg, s, init).jobs == map[]))
  }

  // ----- the documented lifecycle -----

  /** The transitions a row may take. */
  predicate Legal(from_: Status, to_: Status) {
    from_ == to_ ||
    match from_
    case PROPOSED => to_ == APPROVED || to_ == REJECTED || to_ == CANCELLED || to_ == EXPIRED || to_ == FAILED
    case APPROVED => to_ == EXECUTING || to_ == EXPIRED || to_ == FAILED
    case EXECUTING => to_ == SUCCEEDED || to_ == FAILED
    case _ => false
  }

  /** The status the one live handler's row has at each point of the program. */
  predicate StatusAt(j: Job, st: Status) {
    match j.pc
    case MarkTampered => st == PROPOSED
    case TryLock(_) => st == PROPOSED
    case CheckTime(_) => st == PROPOSED
    case MarkApproved => st == PROPOSED
    case Abandon(to_) => st == APPROVED || (st == PROPOSED && to_ == EXPIRED)
    case Reread => st == APPROVED
    case Recheck(_) => st == APPROVED
    case FindTarget(_) => st == APPROVED
    case MarkExecuting(_, _) => st == APPROVED
    case Precheck(_, _) => st == EXECUTING
    case Step(_, _) => st == EXECUTING
    case Call(_, _, _) => st == EXECUTING
    case Returning(_, _, _, _) => st == EXECUTING
    case Finish(_) => st == EXECUTING
    case GetFinal(rc) => st == if rc == 0 then SUCCEEDED else FAILED
    case WriteReceipt(_, rc) => st == if rc == 0 then SUCCEEDED else FAILED
    case CloseMark => st == PROPOSED
    case CloseGet => j.req.Close? && st == j.req.verdict
    case CloseReceipt(_) => j.req.Close? && st == j.req.verdict
    case _ => true
  }

  predicate AtStatus(rows: map<Pid, Row>, j: Job) {
    Known(j.pc) ==> PidOf(j.req) in rows && StatusAt(j, rows[PidOf(j.req)].status)
  }

  /** Which optional columns a row of each status has filled. */
  predicate RowShape(r: Row) {
    && (r.status == PROPOSED ==> r.approvedAt == None)
    && (r.status == APPROVED || r.status == EXECUTING ==> r.approvedAt.Some? && r.approver.Some?)
    && (r.startedAt.Some? <==> r.status == EXECUTING || r.status == SUCCEEDED || (r.status == FAILED && r.rc.Some?))
    && (r.rc.Some? ==> r.status == if r.rc.value == 0 then SUCCEEDED else FAILED)
    && (r.status == SUCCEEDED ==> r.rc == Some(0))
    && (r.startedAt.Some? ==> r.approvedAt.Some? && r.approver.Some?)
  }

  predicate Moves(rows: map<Pid, Row>, later: map<Pid, Row>) {
    forall p :: p in rows ==> p in later && Legal(rows[p].status, later[p].status)
  }

  predicate Shapes(rows: map<Pid, Row>) { forall p :: p in rows ==> RowShape(rows[p]) }

  lemma PatchMoves(row: Row, j: Job, now: int)
    requires PcPatch(j, now).Some? && Known(j.pc) && Shape(j) && StatusAt(j, row.status) && RowShape(row)
    ensures var r := Patched(row, PcPatch(j, now).value); Legal(row.status, r.status) && RowShape(r)
  {
  }

  lemma RowsMove(s: State, j: Job, a: Act)
    requires RowsByPatch(s, j, a) && Shape(j) && AtStatus(s.db.rows, j) && Shapes(s.db.rows)
    requires PcPatch(j, s.clock).Some? ==> Known(j.pc)
    ensures Moves(s.db.rows, a.db.rows) && Shapes(a.db.rows)
  {
    if PcPatch(j, s.clock).Some? { PatchMoves(s.db.rows[PidOf(j.req)], j, s.clock); }
  }

  lemma PatchKnown(j: Job, now: int)
    ensures PcPatch(j, now).Some? ==> Known(j.pc)
  {
  }

  lemma ExpireMoves(s: State, tid: Tid, j: Job)
    requires Shapes(s.db.rows)
    ensures var a := ExpireAct(s, tid, j); Moves(s.db.rows, a.db.rows) && Shapes(a.db.rows)
  {
  }

  lemma ProposingRows(cfg: Config, s: State, j: Job, o: Oracle)
    requires j.req.Propose? || j.req.ProposePlan? || j.req.ProposeScript?
    ensures var rows := Proposing(cfg, s, j, o).db.rows;
            || rows == s.db.rows
            || (j.req.pid !in s.db.rows && j.pc.Insert?
                && rows == s.db.rows[j.req.pid := NewRow(cfg, j.req.actor.uid, j.pc.d, j.pc.pre, s.clock)])
  {
  }

  lemma ProposingMoves(cfg: Config, s: State, j: Job, o: Oracle)
    requires (j.req.Propose? || j.req.ProposePlan? || j.req.ProposeScript?) && Shapes(s.db.rows)
    ensures var a := Proposing(cfg, s, j, o); Moves(s.db.rows, a.db.rows) && Shapes(a.db.rows)
  {
    ProposingRows(cfg, s, j, o);
  }

  lemma DoMoves(cfg: Config, s: State, tid: Tid, j: Job, o: Oracle)
    requires Fits(j.req, j.pc) && Shape(j) && AtStatus(s.db.rows, j) && Shapes(s.db.rows)
    ensures var a := Do(cfg, s, tid, j, o); Moves(s.db.rows, a.db.rows) && Shapes(a.db.rows)
  {
    if j.pc.Expire? { ExpireMoves(s, tid, j); }
    else if j.req.Approve? || j.req.Close? {
      DoPatch(cfg, s, tid, j, o);
      PatchKnown(j, s.clock);
      RowsMove(s, j, Do(cfg, s, tid, j, o));
    }
    else { ProposingMoves(cfg, s, j, o); }
  }

  // ----- where the one handler stands -----

  predicate LandsAt(rows: map<Pid, Row>, a: Act, j: Job) {
    a.pc.Some? ==> AtStatus(rows, Job(j.req, a.pc.value, a.sawAt, a.lockedAt))
  }

  lemma OpeningLands(cfg: Config, s: State, tid: Tid, j: Job, o: Oracle)
    requires j.req.Approve? && AtStatus(s.db.rows, j) && (j.pc.Read? || j.pc.MarkTampered? || j.pc.TryLock?)
    ensures LandsAt(Opening(cfg, s, tid, j, o).db.rows, Opening(cfg, s, tid, j, o), j)
  {
  }

  lemma LockingLands(cfg: Config, s: State, tid: Tid, j: Job, o: Oracle)
    requires j.req.Approve? && AtStatus(s.db.rows, j) && Holding(j.pc) && StillToEnter(j.pc)
    ensures LandsAt(Locking(cfg, s, tid, j, o).db.rows, Locking(cfg, s, tid, j, o), j)
  {
  }

  lemma ExecutingLands(cfg: Config, s: State, tid: Tid, j: Job, o: Oracle)
    requires j.req.Approve? && AtStatus(s.db.rows, j) && Running(j.pc)
    ensures LandsAt(Executing(cfg, s, tid, j, o).db.rows, Executing(cfg, s, tid, j, o), j)
  {
  }

  lemma EndingLands(s: State, tid: Tid, j: Job)
    requires j.req.Approve? && AtStatus(s.db.rows, j) && (j.pc.Finish? || j.pc.GetFinal? || j.pc.WriteReceipt? || j.pc.Unlock?)
    ensures LandsAt(Ending(s, tid, j).db.rows, Ending(s, tid, j), j)
  {
  }

  lemma ClosingLands(cfg: Config, s: State, tid: Tid, j: Job)
    requires j.req.Close? && AtStatus(s.db.rows, j) && Fits(j.req, j.pc) && !j.pc.Expire?
    ensures LandsAt(Closing(cfg, s, tid, j).db.rows, Closing(cfg, s, tid, j), j)
  {
  }

  lemma DoLands(cfg: Config, s: State, tid: Tid, j: Job, o: Oracle)
    requires Fits(j.req, j.pc) && AtStatus(s.db.rows, j)
    ensures LandsAt(Do(cfg, s, tid, j, o).db.rows, Do(cfg, s, tid, j, o), j)
  {
    if j.pc.Expire? { }
    else if j.req.Approve? {
      if j.pc.Read? || j.pc.MarkTampered? || j.pc.TryLock? { OpeningLands(cfg, s, tid, j, o); }
      else if Running(j.pc) { ExecutingLands(cfg, s, tid, j, o); }
      else if StillToEnter(j.pc) { LockingLands(cfg, s, tid, j, o); }
      else { EndingLands(s, tid, j); }
    }
    else if j.req.Close? { ClosingLands(cfg, s, tid, j); }
    else { ProposingQuiet(cfg, s, j, o); }
  }

  // ----- every serialized run -----

  predicate ReadJustNow(log: seq<Event>, j: Job) {
    && (j.pc.TryLock? ==> j.sawAt + 1 == |log|)
    && (Holding(j.pc) ==> j.lockedAt == j.sawAt + 1)
  }

  ghost predicate SerialInv(s: State) {
    && (forall t, u :: t in s.jobs && u in s.jobs ==> t == u)
    && (forall t :: t in s.jobs ==> AtStatus(s.db.rows, s.jobs[t]) && ReadJustNow(s.log, s.jobs[t]))
    && Shapes(s.db.rows)
    && (forall k :: 0 <= k < |s.log| && s.log[k].Entered? ==> s.log[k].lockedAt == s.log[k].sawAt + 1)
  }

  lemma ReadThenLock(s: State, tid: Tid, a: Act)
    requires SerialInv(s) && FullStep(s, tid, a) && a.pc.Some?
    requires a.pc.value.TryLock? ==> !HasRead(s.jobs[tid].pc)
    ensures ReadJustNow(s.log + a.events, Job(s.jobs[tid].req, a.pc.value, a.sawAt, a.lockedAt))
  {
  }

  lemma ReachesTryLock(cfg: Config, s: State, tid: Tid, j: Job, o: Oracle)
    requires Fits(j.req, j.pc)
    ensures var a := Do(cfg, s, tid, j, o); a.pc.Some? && a.pc.value.TryLock? ==> !HasRead(j.pc)
  {
    if j.req.Propose? || j.req.ProposePlan? || j.req.ProposeScript? { ProposingQuiet(cfg, s, j, o); }
  }

  lemma SerialGo(s: State, tid: Tid, a: Act)
    requires SerialInv(s) && FullStep(s, tid, a) && LandsAt(a.db.rows, a, s.jobs[tid])
    requires Shapes(a.db.rows) && (a.pc.Some? && a.pc.value.TryLock? ==> !HasRead(s.jobs[tid].pc))
    ensures SerialInv(Apply(s, tid, a))
  {
    var r := Apply(s, tid, a);
    if a.pc.Some? { ReadThenLock(s, tid, a); }
    forall k | 0 <= k < |r.log| && r.log[k].Entered? ensures r.log[k].lockedAt == r.log[k].sawAt + 1 {
      if k >= |s.log| { assert EventOk(s, tid, s.jobs[tid], r.log[k]); }
    }
  }

  lemma SerialFrame(s: State, r: State)
    requires SerialInv(s) && Frame(s, r) && (forall t, u :: t in r.jobs && u in r.jobs ==> t == u)
    ensures SerialInv(r) && Moves(s.db.rows, r.db.rows)
  {
  }

  lemma SerialNext(cfg: Config, s: State, c: Choice)
    requires LockInv(s) && HistoryInv(s) && SerialInv(s) && (c.Begin? ==> s.jobs == map[])
    ensures SerialInv(Next(cfg, s, c)) && Moves(s.db.rows, Next(cfg, s, c).db.rows)
  {
    if Enabled(s, c) {
      var j := s.jobs[c.tid];
      assert JobHistory(s, c.tid);
      NextApply(cfg, s, c);
      GoFullStep(cfg, s, c.tid, c.o);
      DoMoves(cfg, s, c.tid, j, c.o);
      DoLands(cfg, s, c.tid, j, c.o);
      ReachesTryLock(cfg, s, c.tid, j, c.o);
      SerialGo(s, c.tid, Do(cfg, s, c.tid, j, c.o));
    } else {
      NextFrame(cfg, s, c);
      SerialFrame(s, Next(cfg, s, c));
    }
  }

  lemma {:induction false} SerialRun(cfg: Config, s: State, cs: seq<Choice>)
    requires Initial(s) && OneAtATime(cfg, s, cs)
    ensures SerialInv(Run(cfg, s, cs))
  {
    if cs == [] {
    } else {
      SerialRun(cfg, s, cs[..|cs| - 1]);
      HistoryInvRun(cfg, s, cs[..|cs| - 1]);
      SerialNext(cfg, Run(cfg, s, cs[..|cs| - 1]), cs[|cs| - 1]);
    }
  }

  lemma {:induction false} PrefixOneAtATime(cfg: Config, s: State, a: seq<Choice>, b: seq<Choice>)
    requires OneAtATime(cfg, s, a + b)
    ensures OneAtATime(cfg, s, a)
  {
    if b == [] {
      assert a + b == a;
    } else {
      assert (a + b)[..|a + b| - 1] == a + b[..|b| - 1];
      PrefixOneAtATime(cfg, s, a, b[..|b| - 1]);
    }
  }

  /** In serialized runs, crashes and restarts included, every row only takes the documented transitions. */
  lemma TransitionsAreLegal(cfg: Config, s: State, cs: seq<Choice>, c: Choice)
    requires Initial(s) && OneAtATime(cfg, s, cs + [c])
    ensures Moves(Run(cfg, s, cs).db.rows, Run(cfg, s, cs + [c]).db.rows)
  {
    assert (cs + [c])[..|cs + [c]| - 1] == cs;
    SerialRun(cfg, s, cs);
    HistoryInvRun(cfg, s, cs);
    SerialNext(cfg, Run(cfg, s, cs), c);
  }

  predicate Terminal(st: Status) { st != PROPOSED && st != APPROVED && st != EXECUTING }

  /** A row that is rejected, cancelled, expired, failed or succeeded stays so for the rest of the run. */
  lemma {:induction false} TerminalForever(cfg: Config, s: State, before: seq<Choice>, later: seq<Choice>, p: Pid)
    requires Initial(s) && OneAtATime(cfg, s, before + later)
    requires p in Run(cfg, s, before).db.rows && Terminal(Run(cfg, s, before).db.rows[p].status)
    ensures var b := Run(cfg, s, before + later);
            p in b.db.rows && b.db.rows[p].status == Run(cfg, s, before).db.rows[p].status
  {
    if later == [] {
      assert before + later == before;
    } else {
      var init, c := later[..|later| - 1], later[|later| - 1];
      assert before + later == (before + init) + [c];
      PrefixOneAtATime(cfg, s, before + init, [c]);
      TerminalForever(cfg, s, before, init, p);
      TransitionsAreLegal(cfg, s, before + init, c);
    }
  }

  /** In serialized runs, crashes and restarts included, every proposal is executed at most once. */
  lemma SerialExecutesOnce(cfg: Config, s: State, cs: seq<Choice>, p: Pid)
    requires Initial(s) && OneAtATime(cfg, s, cs)
    ensures Entries(Run(cfg, s, cs).log, p) <= 1
  {
    SerialRun(cfg, s, cs);
    ExecutedOnceWhenQuiet(cfg, s, cs, p);
  }

  // ----- approval comes first -----

  predicate HasApproval(log: seq<Event>, t: Tid, p: Pid) {
    exists i :: 0 <= i < |log| && log[i].Approved? && log[i].tid == t && log[i].pid == p && log[i].actor.canApprove
  }

  predicate PastApproval(pc: Pc) { pc.Reread? || pc.Recheck? || pc.FindTarget? || pc.MarkExecuting? }

  ghost predicate ApprovalInv(s: State) {
    && (forall t :: t in s.jobs ==> Permitted(s.jobs[t].req))
    && (forall t :: t in s.jobs && PastApproval(s.jobs[t].pc) ==> HasApproval(s.log, t, PidOf(s.jobs[t].req)))
    && (forall k :: 0 <= k < |s.log| && s.log[k].Entered? ==> HasApproval(s.log[..k], s.log[k].tid, s.log[k].pid))
  }

  lemma ApprovalKept(log: seq<Event>, es: seq<Event>, t: Tid, p: Pid)
    requires HasApproval(log, t, p)
    ensures HasApproval(log + es, t, p)
  {
    var i :| 0 <= i < |log| && log[i].Approved? && log[i].tid == t && log[i].pid == p && log[i].actor.canApprove;
    assert (log + es)[i] == log[i];
  }

  predicate ApprovalStep(tid: Tid, j: Job, a: Act) {
    a.pc.Some? && PastApproval(a.pc.value) ==>
      PastApproval(j.pc) || (j.req.Approve? && a.events == [Approved(tid, PidOf(j.req), j.req.actor)])
  }

  lemma ApproveApproval(cfg: Config, s: State, tid: Tid, j: Job, o: Oracle)
    requires Fits(j.req, j.pc) && j.req.Approve? && !j.pc.Expire?
    ensures ApprovalStep(tid, j, Do(cfg, s, tid, j, o))
  {
  }

  lemma DoApprovalStep(cfg: Config, s: State, tid: Tid, j: Job, o: Oracle)
    requires Fits(j.req, j.pc)
    ensures ApprovalStep(tid, j, Do(cfg, s, tid, j, o))
  {
    if j.req.Propose? || j.req.ProposePlan? || j.req.ProposeScript? { ProposingQuiet(cfg, s, j, o); }
    else if j.req.Approve? && !j.pc.Expire? { ApproveApproval(cfg, s, tid, j, o); }
  }

  lemma ApprovalGo(s: State, tid: Tid, a: Act)
    requires ApprovalInv(s) && FullStep(s, tid, a) && ApprovalStep(tid, s.jobs[tid], a)
    ensures ApprovalInv(Apply(s, tid, a))
  {
    var r := Apply(s, tid, a);
    forall t | t in r.jobs && PastApproval(r.jobs[t].pc) ensures HasApproval(r.log, t, PidOf(r.jobs[t].req)) {
      if PastApproval(s.jobs[t].pc) {
        ApprovalKept(s.log, a.events, t, PidOf(s.jobs[t].req));
      } else {
        assert r.log[|s.log|] == a.events[0];
      }
    }
    forall k | 0 <= k < |r.log| && r.log[k].Entered? ensures HasApproval(r.log[..k], r.log[k].tid, r.log[k].pid) {
      if k < |s.log| {
        assert r.log[..k] == s.log[..k];
      } else {
        assert EventOk(s, tid, s.jobs[tid], r.log[k]);
        assert r.log[..k] == s.log;
      }
    }
  }

  lemma ApprovalNext(cfg: Config, s: State, c: Choice)
    requires LockInv(s) && HistoryInv(s) && ApprovalInv(s)
    ensures ApprovalInv(Next(cfg, s, c))
  {
    if Enabled(s, c) {
      NextApply(cfg, s, c);
      GoFullStep(cfg, s, c.tid, c.o);
      DoApprovalStep(cfg, s, c.tid, s.jobs[c.tid], c.o);
      ApprovalGo(s, c.tid, Do(cfg, s, c.tid, s.jobs[c.tid], c.o));
    } else {
      NextFrame(cfg, s, c);
    }
  }

  lemma {:induction false} ApprovalRun(cfg: Config, s: State, cs: seq<Choice>)
    requires Initial(s)
    ensures ApprovalInv(Run(cfg, s, cs))
  {
    if cs == [] {
    } else {
      ApprovalRun(cfg, s, cs[..|cs| - 1]);
      HistoryInvRun(cfg, s, cs[..|cs| - 1]);
      ApprovalNext(cfg, Run(cfg, s, cs[..|cs| - 1]), cs[|cs| - 1]);
    }
  }

  /** Over every run: an execution comes only after the same handler committed APPROVED on behalf of an approver. */
  lemma ApprovedBeforeExecuted(cfg: Config, s: State, cs: seq<Choice>, k: nat)
    requires Initial(s) && k < |Run(cfg, s, cs).log| && Run(cfg, s, cs).log[k].Entered?
    ensures var log := Run(cfg, s, cs).log;
            exists i :: 0 <= i < k && log[i].Approved? && log[i].tid == log[k].tid && log[i].pid == log[k].pid
                        && log[i].actor.canApprove
  {
    var log := Run(cfg, s, cs).log;
    ApprovalRun(cfg, s, cs);
    var i :| 0 <= i < k && log[..k][i].Approved? && log[..k][i].tid == log[k].tid && log[..k][i].pid == log[k].pid
             && log[..k][i].actor.canApprove;
    assert log[i] == log[..k][i];
  }
}
