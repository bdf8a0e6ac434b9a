/** What every interleaving of handler threads keeps: one holder of the execution lock, and at-most-once execution
    exactly as far as the code provides it. */
module Threads {
  import opened Options
  import opened Lifecycle

  predicate Fits(req: Request, pc: Pc) {
    pc.Expire? ||
    match req
    case Approve(_, _, _) => pc.Read? || pc.MarkTampered? || pc.TryLock? || Holding(pc)
    case Close(_, _, _) => pc.CloseRead? || pc.CloseMark? || pc.CloseGet? || pc.CloseReceipt?
    case Look(_) => false
    case _ => pc.Resolve? || pc.Pre? || pc.Insert?
  }

  /** A handler that has not entered its execution and still may. */
  predicate StillToEnter(pc: Pc) {
    !Running(pc) && !pc.Finish? && !pc.GetFinal? && !pc.WriteReceipt? && !pc.Unlock?
  }

  function PidOf(req: Request): Pid { if req.Look? then "" else req.pid }

  /** What one step does to the lock. */
  ghost predicate LockStep(s: State, tid: Tid, j: Job, a: Act) {
    && (a.pc.Some? ==> Fits(j.req, a.pc.value))
    && (if a.pc.Some? && Holding(a.pc.value) then a.lock == Some(tid) && (Holding(j.pc) || s.lock == None)
        else a.lock == if Holding(j.pc) then None else s.lock)
  }

  lemma OpeningLock(cfg: Config, s: State, tid: Tid, j: Job, o: Oracle)
    requires j.req.Approve? && !Holding(j.pc) && (j.pc.Read? || j.pc.MarkTampered? || j.pc.TryLock?)
    ensures LockStep(s, tid, j, Opening(cfg, s, tid, j, o))
  {
  }

  lemma LockingLock(cfg: Config, s: State, tid: Tid, j: Job, o: Oracle)
    requires j.req.Approve? && Holding(j.pc) && s.lock == Some(tid) && !Running(j.pc)
    requires !j.pc.Finish? && !j.pc.GetFinal? && !j.pc.WriteReceipt? && !j.pc.Unlock?
    ensures LockStep(s, tid, j, Locking(cfg, s, tid, j, o))
  {
  }

  lemma ExecutingLock(cfg: Config, s: State, tid: Tid, j: Job, o: Oracle)
    requires j.req.Approve? && Running(j.pc) && s.lock == Some(tid)
    ensures LockStep(s, tid, j, Executing(cfg, s, tid, j, o))
  {
  }

  lemma EndingLock(s: State, tid: Tid, j: Job)
    requires j.req.Approve? && s.lock == Some(tid) && (j.pc.Finish? || j.pc.GetFinal? || j.pc.WriteReceipt? || j.pc.Unlock?)
    ensures LockStep(s, tid, j, Ending(s, tid, j))
  {
  }

  lemma ProposingQuiet(cfg: Config, s: State, j: Job, o: Oracle)
    requires j.req.Propose? || j.req.ProposePlan? || j.req.ProposeScript?
    ensures var a := Proposing(cfg, s, j, o);
            && a.events == [] && a.sawAt == j.sawAt && a.lockedAt == j.lockedAt && a.mock == s.mock && a.lock == s.lock
            && (a.pc.Some? ==> a.pc.value.Pre? || a.pc.value.Insert?)
  {
  }

  lemma ApproveLock(cfg: Config, s: State, tid: Tid, j: Job, o: Oracle)
    requires j.req.Approve? && !j.pc.Expire? && Fits(j.req, j.pc) && (Holding(j.pc) ==> s.lock == Some(tid))
    ensures LockStep(s, tid, j, Do(cfg, s, tid, j, o))
  {
    if j.pc.Read? || j.pc.MarkTampered? || j.pc.TryLock? { OpeningLock(cfg, s, tid, j, o); }
    else if Running(j.pc) { ExecutingLock(cfg, s, tid, j, o); }
    else if j.pc.Finish? || j.pc.GetFinal? || j.pc.WriteReceipt? || j.pc.Unlock? { EndingLock(s, tid, j); }
    else { LockingLock(cfg, s, tid, j, o); }
  }

  lemma OtherLock(cfg: Config, s: State, tid: Tid, j: Job, o: Oracle)
    requires Fits(j.req, j.pc) && !Holding(j.pc) && (j.pc.Expire? || j.req.Close? || j.req.Look?)
    ensures LockStep(s, tid, j, Do(cfg, s, tid, j, o))
  {
  }

  lemma DoLock(cfg: Config, s: State, tid: Tid, j: Job, o: Oracle)
    requires Fits(j.req, j.pc) && (Holding(j.pc) ==> s.lock == Some(tid))
    ensures LockStep(s, tid, j, Do(cfg, s, tid, j, o))
  {
    if j.pc.Expire? || j.req.Close? || j.req.Look? { OtherLock(cfg, s, tid, j, o); }
    else if j.req.Approve? { ApproveLock(cfg, s, tid, j, o); }
    else { ProposingQuiet(cfg, s, j, o); }
  }

  /** The lock is held by exactly the one handler that is between `_lock` and `_unlock`. */
  ghost predicate LockInv(s: State) {
    && (forall t :: t in s.jobs ==> t < s.next && Fits(s.jobs[t].req, s.jobs[t].pc))
    && (forall t :: t in s.jobs && Holding(s.jobs[t].pc) ==> s.lock == Some(t))
    && (s.lock.Some? ==> s.lock.value in s.jobs && Holding(s.jobs[s.lock.value].pc))
  }

  lemma ApplyLock(s: State, tid: Tid, a: Act)
    requires LockInv(s) && tid in s.jobs && LockStep(s, tid, s.jobs[tid], a)
    ensures LockInv(Apply(s, tid, a))
  {
  }

  lemma LockInvNext(cfg: Config, s: State, c: Choice)
    requires LockInv(s)
    ensures LockInv(Next(cfg, s, c))
  {
    if c.Go? && c.tid in s.jobs && DictAnswer(c.o) {
      DoLock(cfg, s, c.tid, s.jobs[c.tid], c.o);
      ApplyLock(s, c.tid, Do(cfg, s, c.tid, s.jobs[c.tid], c.o));
    }
  }

  lemma {:induction false} LockInvRun(cfg: Config, s: State, cs: seq<Choice>)
    requires LockInv(s)
    ensures LockInv(Run(cfg, s, cs))
  {
    if cs == [] {
    } else {
      LockInvRun(cfg, s, cs[..|cs| - 1]);
      LockInvNext(cfg, Run(cfg, s, cs[..|cs| - 1]), cs[|cs| - 1]);
    }
  }

  /** At most one handler is ever between `_lock` and `_unlock`, so adapter calls never overlap. */
  lemma MutualExclusion(cfg: Config, s: State, cs: seq<Choice>, t1: Tid, t2: Tid)
    requires Initial(s)
    requires var e := Run(cfg, s, cs);
             t1 in e.jobs && t2 in e.jobs && Holding(e.jobs[t1].pc) && Holding(e.jobs[t2].pc)
    ensures t1 == t2
  {
    LockInvRun(cfg, s, cs);
  }

  // ----- the rows -----

  /** The UPDATE a handler's next step commits. */
  function PcPatch(j: Job, now: int): Option<Patch> {
    match j.pc
    case MarkTampered => Some(EndPatch(FAILED, now))
    case MarkApproved => Some(ApprovePatch(j.req.actor.name, now))
    case Abandon(status) => Some(EndPatch(status, now))
    case MarkExecuting(_, _) => Some(StartPatch(now))
    case Finish(rc) => Some(ResultPatch(rc, now))
    case CloseMark => if j.req.Close? then Some(ClosePatch(j.req.verdict, j.req.actor.name, now)) else None
    case _ => None
  }

  predicate RowsByPatch(s: State, j: Job, a: Act) {
    && a.births == s.births
    && a.db.rows == match PcPatch(j, s.clock) case Some(p) => Update(s.db.rows, PidOf(j.req), p) case None => s.db.rows
  }

  lemma OpeningPatch(cfg: Config, s: State, tid: Tid, j: Job, o: Oracle)
    requires j.req.Approve? && Fits(j.req, j.pc) && !Holding(j.pc) && !j.pc.Expire?
    ensures RowsByPatch(s, j, Opening(cfg, s, tid, j, o))
  {
  }

  lemma LockingPatch(cfg: Config, s: State, tid: Tid, j: Job, o: Oracle)
    requires j.req.Approve? && Holding(j.pc) && StillToEnter(j.pc)
    ensures RowsByPatch(s, j, Locking(cfg, s, tid, j, o))
  {
  }

  lemma EndingPatch(s: State, tid: Tid, j: Job)
    requires j.req.Approve? && Holding(j.pc) && !StillToEnter(j.pc) && !Running(j.pc)
    ensures RowsByPatch(s, j, Ending(s, tid, j))
  {
  }

  /** Approvals and closings change rows by that UPDATE and by nothing else. */
  lemma DoPatch(cfg: Config, s: State, tid: Tid, j: Job, o: Oracle)
    requires (j.req.Approve? || j.req.Close?) && Fits(j.req, j.pc) && !j.pc.Expire?
    ensures RowsByPatch(s, j, Do(cfg, s, tid, j, o))
  {
    if j.req.Approve? {
      if !Holding(j.pc) { OpeningPatch(cfg, s, tid, j, o); }
      else if StillToEnter(j.pc) { LockingPatch(cfg, s, tid, j, o); }
      else if !Running(j.pc) { EndingPatch(s, tid, j); }
    }
  }

  /** What a step writes into its row, column by column. */
  predicate RowAfter(j: Job, row: Row, now: int, r: Row) {
    match j.pc
    case MarkTampered => r == row.(status := FAILED, finishedAt := Some(now))
    case MarkApproved => r == row.(status := APPROVED, approvedAt := Some(now), approver := Some(j.req.actor.name))
    case Abandon(status) => r == row.(status := status, finishedAt := Some(now))
    case MarkExecuting(_, _) => r == row.(status := EXECUTING, startedAt := Some(now))
    case Finish(rc) => r == row.(status := if rc == 0 then SUCCEEDED else FAILED, finishedAt := Some(now), rc := Some(rc))
    case CloseMark =>
      if !j.req.Close? then r == row
      else if j.req.verdict == REJECTED
      then r == row.(status := REJECTED, finishedAt := Some(now), approver := Some(j.req.actor.name))
      else r == row.(status := j.req.verdict, finishedAt := Some(now))
    case _ => r == row
  }

  lemma PatchedExactly(j: Job, row: Row, now: int)
    ensures RowAfter(j, row, now, match PcPatch(j, now) case Some(p) => Patched(row, p) case None => row)
  {
  }

  /** A step of an approval or a closing writes these columns of its own row and nothing else of any row. */
  lemma CommitsExactly(cfg: Config, s: State, tid: Tid, j: Job, o: Oracle)
    requires (j.req.Approve? || j.req.Close?) && Fits(j.req, j.pc) && !j.pc.Expire? && PidOf(j.req) in s.db.rows
    ensures var rows, later, p := s.db.rows, Do(cfg, s, tid, j, o).db.rows, PidOf(j.req);
            && later.Keys == rows.Keys && RowAfter(j, rows[p], s.clock, later[p])
            && forall q :: q in rows && q != p ==> later[q] == rows[q]
  {
    DoPatch(cfg, s, tid, j, o);
    PatchedExactly(j, s.db.rows[PidOf(j.req)], s.clock);
  }

  // ----- the log -----

  predicate IsEntry(e: Event, p: Pid) { e.Entered? && e.pid == p }

  predicate HasEntry(log: seq<Event>, p: Pid) { exists i :: 0 <= i < |log| && IsEntry(log[i], p) }

  /** An execution's read and lock lie before it, in that order, and nobody else entered while it held the lock. */
  ghost predicate EntryOk(log: seq<Event>, k: nat)
    requires k < |log| && log[k].Entered?
  {
    var e := log[k];
    && e.sawAt < e.lockedAt < k
    && log[e.sawAt] == Saw(e.tid, e.pid)
    && log[e.lockedAt].Locked? && log[e.lockedAt].tid == e.tid && log[e.lockedAt].pid == e.pid
    && forall i :: e.lockedAt < i < k && log[i].Entered? ==> log[i].tid == e.tid
  }

  ghost predicate LogOk(log: seq<Event>) {
    && (forall k :: 0 <= k < |log| && log[k].Entered? ==> EntryOk(log, k))
    && (forall i, k :: 0 <= i < k < |log| && log[i].Entered? && log[k].Entered? ==> log[i].tid != log[k].tid)
    && (forall i, k :: 0 <= i < k < |log| && log[k].Saw? ==> !Touches(log[i], log[k].pid))
  }

  ghost predicate MayAppend(log: seq<Event>, e: Event) {
    match e
    case Saw(_, p) => forall i :: 0 <= i < |log| ==> !Touches(log[i], p)
    case Entered(t, p, _, sawAt, lockedAt) =>
      && sawAt < lockedAt < |log| && log[sawAt] == Saw(t, p)
      && log[lockedAt].Locked? && log[lockedAt].tid == t && log[lockedAt].pid == p
      && (forall i :: lockedAt < i < |log| && log[i].Entered? ==> log[i].tid == t)
      && (forall i :: 0 <= i < |log| && log[i].Entered? ==> log[i].tid != t)
    case _ => true
  }

  lemma AppendLog(log: seq<Event>, e: Event)
    requires LogOk(log) && MayAppend(log, e)
    ensures LogOk(log + [e])
  {
    var r := log + [e];
    assert r[..|log|] == log;
    forall k | 0 <= k < |r| && r[k].Entered? ensures EntryOk(r, k) {
      if k < |log| { assert EntryOk(log, k); }
    }
  }

  function Entries(log: seq<Event>, p: Pid): nat {
    if log == [] then 0 else Entries(log[..|log| - 1], p) + if IsEntry(log[|log| - 1], p) then 1 else 0
  }

  function Sights(log: seq<Event>, p: Pid): nat {
    if log == [] then 0
    else Sights(log[..|log| - 1], p) + if log[|log| - 1].Saw? && log[|log| - 1].pid == p then 1 else 0
  }

  lemma {:induction false} EntriesCount(log: seq<Event>, p: Pid)
    ensures Entries(log, p) == 0 <==> !HasEntry(log, p)
    ensures Entries(log, p) <= 1 <==> forall i, k :: 0 <= i < k < |log| ==> !(IsEntry(log[i], p) && IsEntry(log[k], p))
  {
    if log == [] {
    } else {
      var init, n := log[..|log| - 1], |log| - 1;
      EntriesCount(init, p);
      if HasEntry(init, p) {
        var i :| 0 <= i < |init| && IsEntry(init[i], p);
        assert IsEntry(log[i], p);
      }
    }
  }

  /** Before a second execution the first one committed between its read and its lock. */
  lemma SecondEntryIsLate(log: seq<Event>, p: Pid, i: nat, k: nat)
    requires LogOk(log) && i < k < |log| && IsEntry(log[i], p) && IsEntry(log[k], p)
    ensures log[k].sawAt < i < log[k].lockedAt < |log|
  {
    assert EntryOk(log, k);
    assert i < log[k].lockedAt;
    assert Touches(log[i], log[log[k].sawAt].pid);
  }

  /** No other execution of the row is entered between an executing approval's read and its lock. */
  ghost predicate NoEntryBetween(log: seq<Event>, p: Pid) {
    forall k, i :: 0 <= k < |log| && IsEntry(log[k], p) && log[k].sawAt < i < log[k].lockedAt < |log| ==> !IsEntry(log[i], p)
  }

  /** The exact condition: a row is executed at most once if and only if no execution of it is entered between an
      executing approval's read and its lock. */
  lemma AtMostOnceExactly(log: seq<Event>, p: Pid)
    requires LogOk(log)
    ensures Entries(log, p) <= 1 <==> NoEntryBetween(log, p)
  {
    EntriesCount(log, p);
    forall i, k | 0 <= i < k < |log| && IsEntry(log[i], p) && IsEntry(log[k], p)
      ensures log[k].sawAt < i < log[k].lockedAt < |log|
    {
      SecondEntryIsLate(log, p, i, k);
    }
    forall k, i | 0 <= k < |log| && IsEntry(log[k], p) && log[k].sawAt < i < log[k].lockedAt < |log| && IsEntry(log[i], p)
      ensures i < k
    {
      assert EntryOk(log, k);
    }
  }

  /** No other commit to the row falls between an executing approval's read and its lock. */
  ghost predicate Quiet(log: seq<Event>, p: Pid) {
    forall k, i :: 0 <= k < |log| && IsEntry(log[k], p) && log[k].sawAt < i < log[k].lockedAt < |log| ==> !Touches(log[i], p)
  }

  lemma QuietReadsExecuteOnce(log: seq<Event>, p: Pid)
    requires LogOk(log) && Quiet(log, p)
    ensures Entries(log, p) <= 1
  {
    EntriesCount(log, p);
    forall i, k | 0 <= i < k < |log| && IsEntry(log[i], p) && IsEntry(log[k], p) ensures false {
      SecondEntryIsLate(log, p, i, k);
    }
  }

  function EntryTids(log: seq<Event>, p: Pid): set<Tid> {
    set i | 0 <= i < |log| && IsEntry(log[i], p) :: log[i].tid
  }

  function SawTids(log: seq<Event>, p: Pid): set<Tid> {
    set i | 0 <= i < |log| && log[i].Saw? && log[i].pid == p :: log[i].tid
  }

  lemma TidsMore(log: seq<Event>, p: Pid)
    requires log != []
    ensures var init, e := log[..|log| - 1], log[|log| - 1];
            && EntryTids(log, p) == EntryTids(init, p) + (if IsEntry(e, p) then {e.tid} else {})
            && ((forall i :: 0 <= i < |init| && init[i].Entered? ==> init[i].tid != e.tid) ==> e.tid !in EntryTids(init, p))
  {
    var init, e := log[..|log| - 1], log[|log| - 1];
    forall t | t in EntryTids(log, p) ensures t in EntryTids(init, p) || (IsEntry(e, p) && t == e.tid) {
      var i :| 0 <= i < |log| && IsEntry(log[i], p) && log[i].tid == t;
      if i < |init| { assert IsEntry(init[i], p); }
    }
    forall t | t in EntryTids(init, p) ensures t in EntryTids(log, p) {
      var i :| 0 <= i < |init| && IsEntry(init[i], p) && init[i].tid == t;
      assert IsEntry(log[i], p);
    }
  }

  lemma {:induction false} EntriesAreTids(log: seq<Event>, p: Pid)
    requires forall i, k :: 0 <= i < k < |log| && log[i].Entered? && log[k].Entered? ==> log[i].tid != log[k].tid
    ensures Entries(log, p) == |EntryTids(log, p)|
  {
    if log == [] {
    } else {
      EntriesAreTids(log[..|log| - 1], p);
      TidsMore(log, p);
    }
  }

  lemma {:induction false} SightsBoundTids(log: seq<Event>, p: Pid)
    ensures |SawTids(log, p)| <= Sights(log, p)
  {
    if log == [] {
    } else {
      var n := |log| - 1;
      SightsBoundTids(log[..n], p);
      if log[n].Saw? && log[n].pid == p {
        assert SawTids(log, p) == SawTids(log[..n], p) + {log[n].tid};
      } else {
        assert SawTids(log, p) == SawTids(log[..n], p);
      }
    }
  }

  lemma SubsetSize<T>(a: set<T>, b: set<T>)
    requires a <= b
    ensures |a| <= |b|
  {
    assert |b| == |a| + |b - a| by { assert b == a + (b - a); }
  }

  /** Executions of a row never outnumber the approvals that read it as PROPOSED. */
  lemma EntriesBoundedBySights(log: seq<Event>, p: Pid)
    requires LogOk(log)
    ensures Entries(log, p) <= Sights(log, p)
  {
    EntriesAreTids(log, p);
    SightsBoundTids(log, p);
    forall t | t in EntryTids(log, p) ensures t in SawTids(log, p) {
      var k :| 0 <= k < |log| && IsEntry(log[k], p) && log[k].tid == t;
      assert EntryOk(log, k);
      assert log[log[k].sawAt].tid == t;
    }
    SubsetSize(EntryTids(log, p), SawTids(log, p));
  }

  // ----- how a step adds to the log and changes the rows -----

  predicate HasRead(pc: Pc) { pc.MarkTampered? || pc.TryLock? || Holding(pc) }

  predicate Shape(j: Job) {
    && (j.pc.Abandon? ==> j.pc.status == FAILED || j.pc.status == EXPIRED)
    && (j.req.Close? ==> j.req.verdict == REJECTED || j.req.verdict == CANCELLED)
  }

  predicate Known(pc: Pc) { HasRead(pc) || pc.CloseMark? || pc.CloseGet? || pc.CloseReceipt? }

  ghost predicate EventOk(s: State, tid: Tid, j: Job, e: Event) {
    && e.tid == tid
    && (e.Saw? ==> e.pid in s.db.rows && s.db.rows[e.pid].status == PROPOSED)
    && (e.Locked? ==> e.pid == PidOf(j.req) && j.pc.TryLock?)
    && (e.Entered? ==> j.pc.MarkExecuting? && e.pid == PidOf(j.req) && e.plan == j.pc.p.plan && e.sawAt == j.sawAt && e.lockedAt == j.lockedAt)
  }

  ghost predicate LogStep(s: State, tid: Tid, j: Job, a: Act) {
    && |a.events| <= 1
    && (j.pc.Read? || a.sawAt == j.sawAt)
    && (a.events == [] ==> a.sawAt == j.sawAt && a.lockedAt == j.lockedAt)
    && (j.pc.TryLock? || a.lockedAt == j.lockedAt)
    && (a.pc.Some? && HasRead(a.pc.value) && !HasRead(j.pc) ==> a.sawAt == |s.log| && a.events == [Saw(tid, PidOf(j.req))])
    && (a.pc.Some? && Holding(a.pc.value) && !Holding(j.pc) ==>
          a.lockedAt == |s.log| && |a.events| == 1 && a.events[0].Locked? && a.events[0].pid == PidOf(j.req))
    && (a.pc.Some? && StillToEnter(a.pc.value) ==> StillToEnter(j.pc) && !j.pc.MarkExecuting?)
    && (a.pc.Some? && Known(a.pc.value) && !Known(j.pc) ==> PidOf(j.req) in s.db.rows)
    && (a.pc.Some? ==> Shape(Job(j.req, a.pc.value, a.sawAt, a.lockedAt)))
    && (|a.events| == 1 ==> EventOk(s, tid, j, a.events[0]))
  }

  ghost predicate RowStep(s: State, a: Act) {
    && (forall p :: p in s.db.rows ==>
          p in a.db.rows && (a.db.rows[p].status == PROPOSED ==> s.db.rows[p].status == PROPOSED))
    && (forall p :: a.events != [] && Touches(a.events[0], p) ==> p in a.db.rows && a.db.rows[p].status != PROPOSED)
    && (forall p :: p in a.db.rows && p !in s.db.rows ==> a.events == [])
  }

  lemma OpeningLog(cfg: Config, s: State, tid: Tid, j: Job, o: Oracle)
    requires j.req.Approve? && Fits(j.req, j.pc) && !j.pc.Expire? && !Holding(j.pc) && Shape(j)
    requires Known(j.pc) ==> j.req.pid in s.db.rows
    ensures LogStep(s, tid, j, Opening(cfg, s, tid, j, o))
  {
  }

  lemma OpeningRows(cfg: Config, s: State, tid: Tid, j: Job, o: Oracle)
    requires j.req.Approve? && Fits(j.req, j.pc) && !j.pc.Expire? && !Holding(j.pc) && Shape(j)
    requires Known(j.pc) ==> j.req.pid in s.db.rows
    ensures RowStep(s, Opening(cfg, s, tid, j, o))
  {
  }

  lemma LockingLog(cfg: Config, s: State, tid: Tid, j: Job, o: Oracle)
    requires j.req.Approve? && Holding(j.pc) && StillToEnter(j.pc) && Shape(j) && j.req.pid in s.db.rows
    ensures LogStep(s, tid, j, Locking(cfg, s, tid, j, o))
  {
  }

  lemma CommitRows(s: State, a: Act, pid: Pid, p: Patch, e: Event)
    requires pid in s.db.rows && a.db.rows == Update(s.db.rows, pid, p) && a.events == [e] && p.status != PROPOSED
    requires forall q :: Touches(e, q) <==> q == pid
    ensures RowStep(s, a)
  {
  }

  lemma LockingRows(cfg: Config, s: State, tid: Tid, j: Job, o: Oracle)
    requires j.req.Approve? && Holding(j.pc) && StillToEnter(j.pc) && Shape(j) && j.req.pid in s.db.rows
    ensures RowStep(s, Locking(cfg, s, tid, j, o))
  {
    var a, pid := Locking(cfg, s, tid, j, o), j.req.pid;
    match j.pc
    case MarkApproved => CommitRows(s, a, pid, ApprovePatch(j.req.actor.name, s.clock), Approved(tid, pid, j.req.actor));
    case Abandon(status) => CommitRows(s, a, pid, EndPatch(status, s.clock), Ended(tid, pid, status));
    case MarkExecuting(p, t) =>
      CommitRows(s, a, pid, StartPatch(s.clock), Entered(tid, pid, p.plan, j.sawAt, j.lockedAt));
    case _ =>
  }

  lemma ExecutingSteps(cfg: Config, s: State, tid: Tid, j: Job, o: Oracle)
    requires j.req.Approve? && Running(j.pc) && Shape(j) && j.req.pid in s.db.rows
    ensures var a := Executing(cfg, s, tid, j, o); LogStep(s, tid, j, a) && RowStep(s, a)
  {
  }

  lemma EndingSteps(s: State, tid: Tid, j: Job)
    requires j.req.Approve? && Holding(j.pc) && !StillToEnter(j.pc) && !Running(j.pc) && Shape(j) && j.req.pid in s.db.rows
    ensures var a := Ending(s, tid, j); LogStep(s, tid, j, a) && RowStep(s, a)
  {
  }

  lemma ClosingLog(cfg: Config, s: State, tid: Tid, j: Job)
    requires j.req.Close? && Fits(j.req, j.pc) && !j.pc.Expire? && Shape(j)
    requires Known(j.pc) ==> j.req.pid in s.db.rows
    ensures LogStep(s, tid, j, Closing(cfg, s, tid, j))
  {
  }

  lemma ClosingRows(cfg: Config, s: State, tid: Tid, j: Job)
    requires j.req.Close? && Fits(j.req, j.pc) && !j.pc.Expire? && Shape(j)
    requires Known(j.pc) ==> j.req.pid in s.db.rows
    ensures RowStep(s, Closing(cfg, s, tid, j))
  {
  }

  lemma QuietLog(s: State, tid: Tid, j: Job, a: Act)
    requires a.events == [] && a.sawAt == j.sawAt && a.lockedAt == j.lockedAt
    requires (j.pc.Resolve? || j.pc.Pre? || j.pc.Insert?) && !j.req.Approve? && !j.req.Close?
    requires a.pc.Some? ==> a.pc.value.Pre? || a.pc.value.Insert?
    ensures LogStep(s, tid, j, a)
  {
  }

  lemma ProposingRows(cfg: Config, s: State, tid: Tid, j: Job, o: Oracle)
    requires (j.req.Propose? || j.req.ProposePlan? || j.req.ProposeScript?) && Fits(j.req, j.pc) && !j.pc.Expire? && Shape(j)
    ensures RowStep(s, Proposing(cfg, s, j, o))
  {
  }

  lemma ExpireSteps(s: State, tid: Tid, j: Job)
    requires j.pc.Expire? && Shape(j)
    ensures var a := ExpireAct(s, tid, j); LogStep(s, tid, j, a) && RowStep(s, a)
  {
  }

  lemma DoSteps(cfg: Config, s: State, tid: Tid, j: Job, o: Oracle)
    requires Fits(j.req, j.pc) && Shape(j) && (Known(j.pc) ==> PidOf(j.req) in s.db.rows)
    ensures var a := Do(cfg, s, tid, j, o); LogStep(s, tid, j, a) && RowStep(s, a)
  {
    if j.pc.Expire? { ExpireSteps(s, tid, j); }
    else if j.req.Approve? {
      if j.pc.Read? || j.pc.MarkTampered? || j.pc.TryLock? { OpeningLog(cfg, s, tid, j, o); OpeningRows(cfg, s, tid, j, o); }
      else if Running(j.pc) { ExecutingSteps(cfg, s, tid, j, o); }
      else if StillToEnter(j.pc) { LockingLog(cfg, s, tid, j, o); LockingRows(cfg, s, tid, j, o); }
      else { EndingSteps(s, tid, j); }
    }
    else if j.req.Close? { ClosingLog(cfg, s, tid, j); ClosingRows(cfg, s, tid, j); }
    else { ProposingQuiet(cfg, s, j, o); QuietLog(s, tid, j, Proposing(cfg, s, j, o)); ProposingRows(cfg, s, tid, j, o); }
  }

  // ----- the history every run keeps -----

  /** What the log says about a live handler. */
  ghost predicate Past(log: seq<Event>, t: Tid, j: Job) {
    && (HasRead(j.pc) ==> j.sawAt < |log| && log[j.sawAt] == Saw(t, PidOf(j.req)))
    && (Holding(j.pc) ==>
          && j.sawAt < j.lockedAt < |log|
          && log[j.lockedAt].Locked? && log[j.lockedAt].tid == t && log[j.lockedAt].pid == PidOf(j.req)
          && forall i :: j.lockedAt < i < |log| && log[i].Entered? ==> log[i].tid == t)
    && (StillToEnter(j.pc) ==> forall i :: 0 <= i < |log| && log[i].Entered? ==> log[i].tid != t)
  }

  ghost predicate JobHistory(s: State, t: Tid)
    requires t in s.jobs
  {
    && Shape(s.jobs[t])
    && (Known(s.jobs[t].pc) ==> PidOf(s.jobs[t].req) in s.db.rows)
    && Past(s.log, t, s.jobs[t])
  }

  ghost predicate HistoryInv(s: State) {
    && LogOk(s.log)
    && (forall i :: 0 <= i < |s.log| ==> s.log[i].tid < s.next)
    && (forall i, p :: 0 <= i < |s.log| && Touches(s.log[i], p) ==> p in s.db.rows && s.db.rows[p].status != PROPOSED)
    && (forall t :: t in s.jobs ==> JobHistory(s, t))
  }

  lemma StepAppends(s: State, tid: Tid, a: Act)
    requires LockInv(s) && HistoryInv(s) && tid in s.jobs
    requires LogStep(s, tid, s.jobs[tid], a) && RowStep(s, a)
    ensures LogOk(s.log + a.events)
  {
    if a.events == [] {
      assert s.log + a.events == s.log;
    } else {
      assert JobHistory(s, tid);
      assert MayAppend(s.log, a.events[0]);
      AppendLog(s.log, a.events[0]);
      assert s.log + a.events == s.log + [a.events[0]];
    }
  }

  ghost predicate FullStep(s: State, tid: Tid, a: Act) {
    tid in s.jobs && LockStep(s, tid, s.jobs[tid], a) && LogStep(s, tid, s.jobs[tid], a) && RowStep(s, a)
  }

  lemma StepTouches(s: State, tid: Tid, a: Act)
    requires LockInv(s) && HistoryInv(s) && FullStep(s, tid, a)
    ensures var r := Apply(s, tid, a);
            && (forall i :: 0 <= i < |r.log| ==> r.log[i].tid < r.next)
            && (forall i, p :: 0 <= i < |r.log| && Touches(r.log[i], p) ==> p in r.db.rows && r.db.rows[p].status != PROPOSED)
  {
    var r := Apply(s, tid, a);
    forall i, p | 0 <= i < |r.log| && Touches(r.log[i], p) ensures p in r.db.rows && r.db.rows[p].status != PROPOSED {
      if i < |s.log| { assert Touches(s.log[i], p); } else { assert r.log[i] == a.events[0]; }
    }
  }

  lemma OwnPast(log: seq<Event>, t: Tid, j: Job, k: Job, e: Event)
    requires Past(log, t, j) && k.req == j.req && e.tid == t
    requires HasRead(k.pc) && !HasRead(j.pc) ==> k.sawAt == |log| && e == Saw(t, PidOf(j.req))
    requires Holding(k.pc) && !Holding(j.pc) ==> k.lockedAt == |log| && HasRead(j.pc) && e.Locked? && e.pid == PidOf(j.req)
    requires HasRead(j.pc) ==> k.sawAt == j.sawAt
    requires Holding(j.pc) ==> k.lockedAt == j.lockedAt
    requires StillToEnter(k.pc) ==> StillToEnter(j.pc) && !e.Entered?
    ensures Past(log + [e], t, k)
  {
  }

  lemma OwnPastQuiet(log: seq<Event>, t: Tid, j: Job, k: Job)
    requires Past(log, t, j) && k.req == j.req && k.sawAt == j.sawAt && k.lockedAt == j.lockedAt
    requires (HasRead(k.pc) ==> HasRead(j.pc)) && (Holding(k.pc) ==> Holding(j.pc))
    requires StillToEnter(k.pc) ==> StillToEnter(j.pc)
    ensures Past(log, t, k)
  {
  }

  lemma OtherPast(log: seq<Event>, t: Tid, j: Job, e: Event)
    requires Past(log, t, j) && e.tid != t && (e.Entered? ==> !Holding(j.pc))
    ensures Past(log + [e], t, j)
  {
  }

  lemma StepOwnJob(s: State, tid: Tid, a: Act)
    requires LockInv(s) && HistoryInv(s) && FullStep(s, tid, a) && a.pc.Some?
    ensures Past(s.log + a.events, tid, Job(s.jobs[tid].req, a.pc.value, a.sawAt, a.lockedAt))
  {
    var j, k := s.jobs[tid], Job(s.jobs[tid].req, a.pc.value, a.sawAt, a.lockedAt);
    assert JobHistory(s, tid);
    if a.events == [] {
      OwnPastQuiet(s.log, tid, j, k);
      assert s.log + a.events == s.log;
    } else {
      assert a.events == [a.events[0]];
      OwnPast(s.log, tid, j, k, a.events[0]);
    }
  }

  lemma StepOtherJob(s: State, tid: Tid, a: Act, t: Tid)
    requires LockInv(s) && HistoryInv(s) && FullStep(s, tid, a) && t in s.jobs && t != tid
    ensures Past(s.log + a.events, t, s.jobs[t])
  {
    assert JobHistory(s, t);
    if a.events == [] {
      assert s.log + a.events == s.log;
    } else {
      assert a.events == [a.events[0]];
      OtherPast(s.log, t, s.jobs[t], a.events[0]);
    }
  }

  lemma StepHistory(s: State, tid: Tid, a: Act)
    requires LockInv(s) && HistoryInv(s) && FullStep(s, tid, a)
    ensures HistoryInv(Apply(s, tid, a))
  {
    var r := Apply(s, tid, a);
    StepAppends(s, tid, a); StepTouches(s, tid, a);
    forall t | t in r.jobs ensures JobHistory(r, t) {
      if t == tid {
        assert JobHistory(s, tid);
        StepOwnJob(s, tid, a);
      } else {
        assert JobHistory(s, t);
        StepOtherJob(s, tid, a, t);
      }
    }
  }

  predicate NewJob(j: Job) { j.pc.Expire? && Shape(j) && DictRequest(j.req) && Permitted(j.req) }

  /** Beginning, dying, restarting, the clock and an edited plan column: no event, no row but for plan texts. */
  ghost predicate Frame(s: State, r: State) {
    && r.log == s.log && r.births == s.births && r.mock == s.mock && s.next <= r.next
    && r.db.receipts == s.db.receipts
    && (forall p :: p in r.db.rows <==> p in s.db.rows)
    && (forall p :: p in s.db.rows ==> r.db.rows[p] == s.db.rows[p].(planText := r.db.rows[p].planText))
    && (forall t :: t in r.jobs ==> (t in s.jobs && r.jobs[t] == s.jobs[t]) || (t >= s.next && NewJob(r.jobs[t])))
  }

  predicate Enabled(s: State, c: Choice) { c.Go? && c.tid in s.jobs && DictAnswer(c.o) }

  lemma NextFrame(cfg: Config, s: State, c: Choice)
    requires !Enabled(s, c)
    ensures Frame(s, Next(cfg, s, c))
  {
  }

  lemma NextApply(cfg: Config, s: State, c: Choice)
    requires Enabled(s, c)
    ensures Next(cfg, s, c) == Apply(s, c.tid, Do(cfg, s, c.tid, s.jobs[c.tid], c.o))
  {
  }

  lemma GoFullStep(cfg: Config, s: State, tid: Tid, o: Oracle)
    requires LockInv(s) && HistoryInv(s) && tid in s.jobs
    ensures FullStep(s, tid, Do(cfg, s, tid, s.jobs[tid], o))
  {
    assert JobHistory(s, tid);
    DoLock(cfg, s, tid, s.jobs[tid], o);
    DoSteps(cfg, s, tid, s.jobs[tid], o);
  }

  lemma HistoryFrame(s: State, r: State)
    requires LockInv(s) && HistoryInv(s) && Frame(s, r)
    ensures HistoryInv(r)
  {
    forall t | t in r.jobs ensures JobHistory(r, t) {
      if t in s.jobs && r.jobs[t] == s.jobs[t] { assert JobHistory(s, t); }
    }
  }

  lemma HistoryInvNext(cfg: Config, s: State, c: Choice)
    requires LockInv(s) && HistoryInv(s)
    ensures HistoryInv(Next(cfg, s, c))
  {
    if Enabled(s, c) {
      NextApply(cfg, s, c);
      GoFullStep(cfg, s, c.tid, c.o);
      StepHistory(s, c.tid, Do(cfg, s, c.tid, s.jobs[c.tid], c.o));
    } else {
      NextFrame(cfg, s, c);
      HistoryFrame(s, Next(cfg, s, c));
    }
  }

  lemma {:induction false} HistoryInvRun(cfg: Config, s: State, cs: seq<Choice>)
    requires Initial(s)
    ensures LockInv(Run(cfg, s, cs)) && HistoryInv(Run(cfg, s, cs))
  {
    LockInvRun(cfg, s, cs);
    if cs == [] {
    } else {
      HistoryInvRun(cfg, s, cs[..|cs| - 1]);
      HistoryInvNext(cfg, Run(cfg, s, cs[..|cs| - 1]), cs[|cs| - 1]);
    }
  }

  // ----- the theorems about whole interleaved runs -----

  /** Executions of one proposal never outnumber the approvals that read it as PROPOSED. */
  lemma ExecutionsBounded(cfg: Config, s: State, cs: seq<Choice>, p: Pid)
    requires Initial(s)
    ensures Entries(Run(cfg, s, cs).log, p) <= Sights(Run(cfg, s, cs).log, p)
  {
    HistoryInvRun(cfg, s, cs);
    EntriesBoundedBySights(Run(cfg, s, cs).log, p);
  }

  /** Over every interleaving: at most one execution if and only if no execution of the row is entered between the read
      and the lock of an approval that executes it. */
  lemma ExecutedOnceIff(cfg: Config, s: State, cs: seq<Choice>, p: Pid)
    requires Initial(s)
    ensures Entries(Run(cfg, s, cs).log, p) <= 1 <==> NoEntryBetween(Run(cfg, s, cs).log, p)
  {
    HistoryInvRun(cfg, s, cs);
    AtMostOnceExactly(Run(cfg, s, cs).log, p);
  }

  /** Over every interleaving in which no other commit to the row falls between an executing approval's read and
      its lock, the proposal is executed at most once. */
  lemma ExecutedOnceWhenQuiet(cfg: Config, s: State, cs: seq<Choice>, p: Pid)
    requires Initial(s) && Quiet(Run(cfg, s, cs).log, p)
    ensures Entries(Run(cfg, s, cs).log, p) <= 1
  {
    HistoryInvRun(cfg, s, cs);
    QuietReadsExecuteOnce(Run(cfg, s, cs).log, p);
  }
}
