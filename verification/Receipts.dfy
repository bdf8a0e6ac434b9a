/** Receipts and approval times over serialized runs. */
module Receipts {
  import opened Options
  import opened JsonText
  import opened JsonProofs
  import opened Lifecycle
  import opened Threads
  import opened FrozenContent
  import opened Serial

  /** Equal in every column but the plan text, which may be edited behind the broker's back. */
  predicate Same(a: Row, b: Row) { a.(planText := b.planText) == b }

  /** The rows that are owed a receipt. */
  predicate Closed(r: Row) {
    r.status == REJECTED || r.status == CANCELLED || r.status == SUCCEEDED || (r.status == FAILED && r.startedAt.Some?)
  }

  predicate Agrees(receipt: Receipt, row: Row) {
    Closed(row) && Same(receipt.columns, row) && receipt.status == row.status && receipt.rc == row.rc
  }

  // ----- one step -----

  function PcReceipt(j: Job): Option<Receipt> {
    match j.pc
    case WriteReceipt(row, rc) => Some(Receipt(if rc == 0 then SUCCEEDED else FAILED, j.req.actor.name, Some(rc), row))
    case CloseReceipt(row) => if j.req.Close? then Some(Receipt(j.req.verdict, j.req.actor.name, None, row)) else None
    case _ => None
  }

  predicate ReceiptStep(s: State, j: Job, a: Act) {
    a.db.receipts == match PcReceipt(j) case Some(r) => s.db.receipts[PidOf(j.req) := r] case None => s.db.receipts
  }

  lemma OpeningReceipt(cfg: Config, s: State, tid: Tid, j: Job, o: Oracle)
    requires j.req.Approve? && (j.pc.Read? || j.pc.MarkTampered? || j.pc.TryLock?)
    ensures ReceiptStep(s, j, Opening(cfg, s, tid, j, o))
  {
  }

  lemma LockingReceipt(cfg: Config, s: State, tid: Tid, j: Job, o: Oracle)
    requires j.req.Approve? && Holding(j.pc) && StillToEnter(j.pc)
    ensures ReceiptStep(s, j, Locking(cfg, s, tid, j, o))
  {
  }

  lemma EndingReceipt(s: State, tid: Tid, j: Job)
    requires j.req.Approve? && (j.pc.Finish? || j.pc.GetFinal? || j.pc.WriteReceipt? || j.pc.Unlock?)
    ensures ReceiptStep(s, j, Ending(s, tid, j))
  {
  }

  lemma DoReceipt(cfg: Config, s: State, tid: Tid, j: Job, o: Oracle)
    requires Fits(j.req, j.pc)
    ensures ReceiptStep(s, j, Do(cfg, s, tid, j, o))
  {
    if j.req.Approve? && !j.pc.Expire? && !Running(j.pc) {
      if j.pc.Read? || j.pc.MarkTampered? || j.pc.TryLock? { OpeningReceipt(cfg, s, tid, j, o); }
      else if StillToEnter(j.pc) { LockingReceipt(cfg, s, tid, j, o); }
      else { EndingReceipt(s, tid, j); }
    }
  }

  /** A closing handler that has committed its verdict and still owes the receipt. */
  predicate Owing(pc: Pc) { pc.GetFinal? || pc.WriteReceipt? || pc.CloseGet? || pc.CloseReceipt? }

  /** What an owing handler carries agrees with the row. */
  predicate Carries(rows: map<Pid, Row>, receipts: map<Pid, Receipt>, j: Job) {
    Owing(j.pc) ==>
      && PidOf(j.req) in rows && PidOf(j.req) !in receipts
      && match j.pc
         case GetFinal(rc) => rows[PidOf(j.req)].rc == Some(rc)
         case WriteReceipt(row, rc) => rows[PidOf(j.req)].rc == Some(rc) && Same(row, rows[PidOf(j.req)])
         case CloseReceipt(row) => Same(row, rows[PidOf(j.req)])
         case _ => true
  }

  /** A step that starts or carries on owing. */
  predicate OwingStep(s: State, j: Job, a: Act) {
    && (Owing(j.pc) && (j.pc.GetFinal? || j.pc.CloseGet?) && Fetch(s.db, PidOf(j.req)).Some? ==> a.pc.Some? && Owing(a.pc.value))
    && (j.pc.Finish? || j.pc.CloseMark? ==> a.pc.Some? && Owing(a.pc.value))
    && (a.pc.Some? && Owing(a.pc.value) ==>
          match a.pc.value
          case GetFinal(rc) => j.pc == Finish(rc)
          case WriteReceipt(row, rc) => j.pc == GetFinal(rc) && PidOf(j.req) in s.db.rows && row == s.db.rows[PidOf(j.req)]
          case CloseGet => j.pc == CloseMark
          case CloseReceipt(row) => j.pc == CloseGet && PidOf(j.req) in s.db.rows && row == s.db.rows[PidOf(j.req)])
  }

  lemma OpeningOwes(cfg: Config, s: State, tid: Tid, j: Job, o: Oracle)
    requires j.req.Approve? && (j.pc.Read? || j.pc.MarkTampered? || j.pc.TryLock?)
    ensures OwingStep(s, j, Opening(cfg, s, tid, j, o))
  {
  }

  lemma LockingOwes(cfg: Config, s: State, tid: Tid, j: Job, o: Oracle)
    requires j.req.Approve? && Holding(j.pc) && StillToEnter(j.pc)
    ensures OwingStep(s, j, Locking(cfg, s, tid, j, o))
  {
  }

  lemma ExecutingOwes(cfg: Config, s: State, tid: Tid, j: Job, o: Oracle)
    requires j.req.Approve? && Running(j.pc)
    ensures OwingStep(s, j, Executing(cfg, s, tid, j, o))
  {
  }

  lemma EndingOwes(s: State, tid: Tid, j: Job)
    requires j.req.Approve? && (j.pc.Finish? || j.pc.GetFinal? || j.pc.WriteReceipt? || j.pc.Unlock?)
    ensures OwingStep(s, j, Ending(s, tid, j))
  {
  }

  lemma DoOwes(cfg: Config, s: State, tid: Tid, j: Job, o: Oracle)
    requires Fits(j.req, j.pc)
    ensures OwingStep(s, j, Do(cfg, s, tid, j, o))
  {
    if j.req.Propose? || j.req.ProposePlan? || j.req.ProposeScript? { ProposingQuiet(cfg, s, j, o); }
    if j.req.Approve? && !j.pc.Expire? {
      if j.pc.Read? || j.pc.MarkTampered? || j.pc.TryLock? { OpeningOwes(cfg, s, tid, j, o); }
      else if Running(j.pc) { ExecutingOwes(cfg, s, tid, j, o); }
      else if StillToEnter(j.pc) { LockingOwes(cfg, s, tid, j, o); }
      else { EndingOwes(s, tid, j); }
    }
  }

  /** How rows change in a serialized step: terminal rows not at all, the others by the handler's own UPDATE. */
  predicate RowChange(s: State, j: Job, a: Act) {
    && (forall p :: p in s.db.rows && Terminal(s.db.rows[p].status) ==> p in a.db.rows && a.db.rows[p] == s.db.rows[p])
    && (forall p :: p in s.db.rows ==> p in a.db.rows)
    && (forall p :: p in a.db.rows && Closed(a.db.rows[p]) ==>
          p in s.db.rows && (Closed(s.db.rows[p]) || (p == PidOf(j.req) && (j.pc.Finish? || j.pc.CloseMark?))))
    && (j.pc.Finish? && PidOf(j.req) in a.db.rows ==> a.db.rows[PidOf(j.req)].rc == Some(j.pc.rc))
  }

  lemma OwnRowChange(j: Job, row: Row, now: int)
    requires PcPatch(j, now).Some? && Known(j.pc) && Shape(j) && StatusAt(j, row.status) && RowShape(row)
    ensures !Terminal(row.status)
    ensures Closed(Patched(row, PcPatch(j, now).value)) ==> j.pc.Finish? || j.pc.CloseMark?
    ensures j.pc.Finish? ==> Patched(row, PcPatch(j, now).value).rc == Some(j.pc.rc)
  {
  }

  lemma PatchChange(s: State, j: Job, a: Act)
    requires RowsByPatch(s, j, a) && Shape(j) && AtStatus(s.db.rows, j) && Shapes(s.db.rows)
    requires PcPatch(j, s.clock).Some? ==> Known(j.pc)
    ensures RowChange(s, j, a)
  {
    if PcPatch(j, s.clock).Some? { OwnRowChange(j, s.db.rows[PidOf(j.req)], s.clock); }
  }

  lemma ProposingChange(cfg: Config, s: State, j: Job, o: Oracle)
    requires j.req.Propose? || j.req.ProposePlan? || j.req.ProposeScript?
    requires Fits(j.req, j.pc)
    ensures RowChange(s, j, Proposing(cfg, s, j, o))
  {
  }

  lemma DoChange(cfg: Config, s: State, tid: Tid, j: Job, o: Oracle)
    requires Fits(j.req, j.pc) && Shape(j) && AtStatus(s.db.rows, j) && Shapes(s.db.rows)
    ensures RowChange(s, j, Do(cfg, s, tid, j, o))
  {
    if j.pc.Expire? { }
    else if j.req.Approve? || j.req.Close? {
      DoPatch(cfg, s, tid, j, o);
      PatchKnown(j, s.clock);
      PatchChange(s, j, Do(cfg, s, tid, j, o));
    }
    else { ProposingChange(cfg, s, j, o); }
  }

  // ----- every serialized run -----

  /** A choice that stops a live handler, or leaves a row that can no longer be read back. */
  predicate Breaks(s: State, c: Choice) {
    || (c.Die? && c.tid in s.jobs)
    || (c.Restart? && s.jobs != map[])
    || (c.Tamper? && c.pid in s.db.rows && Decode(c.text) == None)
  }

  /** No handler is ever stopped and every row stays readable. */
  ghost predicate Unbroken(cfg: Config, s: State, cs: seq<Choice>) {
    cs == [] || (Unbroken(cfg, s, cs[..|cs| - 1]) && !Breaks(Run(cfg, s, cs[..|cs| - 1]), cs[|cs| - 1]))
  }

  ghost predicate Readable(rows: map<Pid, Row>) { forall p :: p in rows ==> Decode(rows[p].planText).Some? }

  lemma ReadableGo(cfg: Config, s: State, a: Act)
    requires Readable(s.db.rows) && KeepsFrozen(cfg, s, a)
    ensures Readable(a.db.rows)
  {
    forall p | p in a.db.rows ensures Decode(a.db.rows[p].planText).Some? {
      if p !in s.db.rows { StoreRoundTrip(a.births[p].plan); }
    }
  }

  lemma DoReadable(cfg: Config, s: State, tid: Tid, o: Oracle)
    requires LockInv(s) && FrozenInv(cfg, s) && Readable(s.db.rows) && tid in s.jobs
    ensures Readable(Do(cfg, s, tid, s.jobs[tid], o).db.rows)
  {
    DoKeeps(cfg, s, tid, s.jobs[tid], o);
    ReadableGo(cfg, s, Do(cfg, s, tid, s.jobs[tid], o));
  }

  lemma RestReadable(cfg: Config, s: State, c: Choice)
    requires Readable(s.db.rows) && !Enabled(s, c) && !Breaks(s, c)
    ensures Readable(Next(cfg, s, c).db.rows)
  {
  }

  lemma ReadableNext(cfg: Config, s: State, c: Choice)
    requires LockInv(s) && HistoryInv(s) && FrozenInv(cfg, s) && Readable(s.db.rows) && !Breaks(s, c)
    ensures Readable(Next(cfg, s, c).db.rows)
  {
    if Enabled(s, c) {
      NextApply(cfg, s, c);
      DoReadable(cfg, s, c.tid, c.o);
    } else {
      RestReadable(cfg, s, c);
    }
  }

  lemma {:induction false} ReadableRun(cfg: Config, s: State, cs: seq<Choice>)
    requires Initial(s) && Unbroken(cfg, s, cs)
    ensures Readable(Run(cfg, s, cs).db.rows)
  {
    if cs == [] {
    } else {
      ReadableRun(cfg, s, cs[..|cs| - 1]);
      FrozenRun(cfg, s, cs[..|cs| - 1]);
      ReadableNext(cfg, Run(cfg, s, cs[..|cs| - 1]), cs[|cs| - 1]);
    }
  }

  ghost predicate ReceiptInv(s: State) {
    && (forall p :: p in s.db.receipts ==> p in s.db.rows && Agrees(s.db.receipts[p], s.db.rows[p]))
    && (forall t :: t in s.jobs ==> Carries(s.db.rows, s.db.receipts, s.jobs[t]))
  }

  /** Every closed row has its receipt, or the live handler is about to write it. */
  ghost predicate NoneMissing(s: State) {
    forall p :: p in s.db.rows && Closed(s.db.rows[p]) && p !in s.db.receipts ==>
      exists t :: t in s.jobs && Owing(s.jobs[t].pc) && PidOf(s.jobs[t].req) == p
  }

  /** A serialized step of the one live handler. */
  ghost predicate LoneStep(s: State, tid: Tid, a: Act) {
    && tid in s.jobs && (forall t :: t in s.jobs ==> t == tid)
    && ReceiptStep(s, s.jobs[tid], a) && OwingStep(s, s.jobs[tid], a) && RowChange(s, s.jobs[tid], a)
    && AtStatus(s.db.rows, s.jobs[tid]) && Shapes(s.db.rows) && Fits(s.jobs[tid].req, s.jobs[tid].pc) && Shape(s.jobs[tid])
  }

  lemma WrittenAgrees(j: Job, row: Row)
    requires PcReceipt(j).Some? && Shape(j) && RowShape(row) && StatusAt(j, row.status)
    requires j.pc.WriteReceipt? ==> Same(j.pc.row, row) && row.rc == Some(j.pc.rc)
    requires j.pc.CloseReceipt? ==> Same(j.pc.row, row)
    ensures Agrees(PcReceipt(j).value, row) && Terminal(row.status)
  {
  }

  lemma OpenHasNoReceipt(j: Job, row: Row)
    requires j.pc.Finish? || j.pc.CloseMark?
    requires StatusAt(j, row.status)
    ensures !Closed(row)
  {
  }

  lemma NewReceipts(s: State, tid: Tid, a: Act)
    requires ReceiptInv(s) && LoneStep(s, tid, a)
    ensures forall p :: p in s.db.receipts ==> p in a.db.receipts && a.db.receipts[p] == s.db.receipts[p]
    ensures forall p :: p in a.db.receipts ==> p in a.db.rows && Agrees(a.db.receipts[p], a.db.rows[p])
  {
    var j, pid := s.jobs[tid], PidOf(s.jobs[tid].req);
    assert Carries(s.db.rows, s.db.receipts, j);
    if PcReceipt(j).Some? { WrittenAgrees(j, s.db.rows[pid]); }
    forall p | p in a.db.receipts ensures p in a.db.rows && Agrees(a.db.receipts[p], a.db.rows[p]) {
      if p in s.db.receipts { assert Agrees(s.db.receipts[p], s.db.rows[p]); }
    }
  }

  lemma NewCarries(s: State, tid: Tid, a: Act)
    requires ReceiptInv(s) && LoneStep(s, tid, a) && a.pc.Some?
    ensures Carries(a.db.rows, a.db.receipts, Job(s.jobs[tid].req, a.pc.value, a.sawAt, a.lockedAt))
  {
    var j, pid := s.jobs[tid], PidOf(s.jobs[tid].req);
    assert Carries(s.db.rows, s.db.receipts, j);
    if j.pc.Finish? || j.pc.CloseMark? { OpenHasNoReceipt(j, s.db.rows[pid]); }
  }

  lemma ReceiptGo(s: State, tid: Tid, a: Act)
    requires ReceiptInv(s) && LoneStep(s, tid, a)
    ensures ReceiptInv(Apply(s, tid, a))
    ensures forall p :: p in s.db.receipts ==> p in a.db.receipts && a.db.receipts[p] == s.db.receipts[p]
  {
    NewReceipts(s, tid, a);
    if a.pc.Some? { NewCarries(s, tid, a); }
  }

  lemma MissingGo(s: State, tid: Tid, a: Act)
    requires ReceiptInv(s) && NoneMissing(s) && LoneStep(s, tid, a) && Readable(s.db.rows)
    ensures NoneMissing(Apply(s, tid, a))
  {
    var r := Apply(s, tid, a);
    forall p | p in r.db.rows && Closed(r.db.rows[p]) && p !in r.db.receipts
      ensures exists t :: t in r.jobs && Owing(r.jobs[t].pc) && PidOf(r.jobs[t].req) == p
    {
      assert PidOf(s.jobs[tid].req) == p;
      assert tid in r.jobs && Owing(r.jobs[tid].pc);
    }
  }

  lemma GoLoneStep(cfg: Config, s: State, tid: Tid, o: Oracle)
    requires LockInv(s) && HistoryInv(s) && SerialInv(s) && tid in s.jobs
    ensures LoneStep(s, tid, Do(cfg, s, tid, s.jobs[tid], o))
  {
    assert JobHistory(s, tid);
    DoReceipt(cfg, s, tid, s.jobs[tid], o);
    DoOwes(cfg, s, tid, s.jobs[tid], o);
    DoChange(cfg, s, tid, s.jobs[tid], o);
  }

  lemma ReceiptFrame(s: State, r: State)
    requires ReceiptInv(s) && Frame(s, r)
    ensures ReceiptInv(r)
  {
    forall p | p in r.db.receipts ensures p in r.db.rows && Agrees(r.db.receipts[p], r.db.rows[p]) {
      assert Agrees(s.db.receipts[p], s.db.rows[p]);
    }
    forall t | t in r.jobs ensures Carries(r.db.rows, r.db.receipts, r.jobs[t]) {
      if t in s.jobs && r.jobs[t] == s.jobs[t] { assert Carries(s.db.rows, s.db.receipts, s.jobs[t]); }
    }
  }

  lemma ReceiptNext(cfg: Config, s: State, c: Choice)
    requires LockInv(s) && HistoryInv(s) && SerialInv(s) && ReceiptInv(s)
    ensures var r := Next(cfg, s, c);
            && ReceiptInv(r)
            && forall p :: p in s.db.receipts ==> p in r.db.receipts && r.db.receipts[p] == s.db.receipts[p]
  {
    if Enabled(s, c) {
      NextApply(cfg, s, c);
      GoLoneStep(cfg, s, c.tid, c.o);
      ReceiptGo(s, c.tid, Do(cfg, s, c.tid, s.jobs[c.tid], c.o));
    } else {
      NextFrame(cfg, s, c);
      ReceiptFrame(s, Next(cfg, s, c));
    }
  }

  lemma MissingNext(cfg: Config, s: State, c: Choice)
    requires LockInv(s) && HistoryInv(s) && SerialInv(s) && ReceiptInv(s) && NoneMissing(s)
    requires !Breaks(s, c) && Readable(s.db.rows)
    ensures NoneMissing(Next(cfg, s, c))
  {
    if Enabled(s, c) {
      NextApply(cfg, s, c);
      GoLoneStep(cfg, s, c.tid, c.o);
      MissingGo(s, c.tid, Do(cfg, s, c.tid, s.jobs[c.tid], c.o));
    } else {
      var r := Next(cfg, s, c);
      assert forall t :: t in s.jobs && t < s.next ==> t in r.jobs && r.jobs[t] == s.jobs[t];
      forall p | p in r.db.rows && Closed(r.db.rows[p]) && p !in r.db.receipts
        ensures exists t :: t in r.jobs && Owing(r.jobs[t].pc) && PidOf(r.jobs[t].req) == p
      {
        NextFrame(cfg, s, c);
        assert Closed(s.db.rows[p]);
        var t :| t in s.jobs && Owing(s.jobs[t].pc) && PidOf(s.jobs[t].req) == p;
        assert t in r.jobs;
      }
    }
  }

  lemma {:induction false} ReceiptRun(cfg: Config, s: State, cs: seq<Choice>)
    requires Initial(s) && OneAtATime(cfg, s, cs)
    ensures ReceiptInv(Run(cfg, s, cs))
    ensures Unbroken(cfg, s, cs) ==> NoneMissing(Run(cfg, s, cs))
  {
    if cs == [] {
    } else {
      var init, c := cs[..|cs| - 1], cs[|cs| - 1];
      ReceiptRun(cfg, s, init);
      HistoryInvRun(cfg, s, init);
      SerialRun(cfg, s, init);
      ReceiptNext(cfg, Run(cfg, s, init), c);
      if Unbroken(cfg, s, cs) {
        ReadableRun(cfg, s, init);
        MissingNext(cfg, Run(cfg, s, init), c);
      }
    }
  }

  /** In every serialized run a receipt belongs to a closed row and agrees with it; if no handler was stopped and every
      row stays readable, between requests, the receipts are exactly those of the closed rows. */
  lemma ReceiptsExactly(cfg: Config, s: State, cs: seq<Choice>, p: Pid)
    requires Initial(s) && OneAtATime(cfg, s, cs)
    ensures var d := Run(cfg, s, cs).db;
            && (p in d.receipts ==> p in d.rows && Agrees(d.receipts[p], d.rows[p]))
            && (Unbroken(cfg, s, cs) && Run(cfg, s, cs).jobs == map[] ==>
                  (p in d.receipts <==> p in d.rows && Closed(d.rows[p])))
  {
    ReceiptRun(cfg, s, cs);
  }

  /** A receipt is written once: no later step of a serialized run, crashes included, changes it. */
  lemma {:induction false} ReceiptsNeverChange(cfg: Config, s: State, before: seq<Choice>, later: seq<Choice>, p: Pid)
    requires Initial(s) && OneAtATime(cfg, s, before + later) && p in Run(cfg, s, before).db.receipts
    ensures var b := Run(cfg, s, before + later).db;
            p in b.receipts && b.receipts[p] == Run(cfg, s, before).db.receipts[p]
  {
    if later == [] {
      assert before + later == before;
    } else {
      var init, c := later[..|later| - 1], later[|later| - 1];
      assert before + later == (before + init) + [c];
      assert ((before + init) + [c])[..|before + later| - 1] == before + init;
      PrefixOneAtATime(cfg, s, before + init, [c]);
      ReceiptsNeverChange(cfg, s, before, init, p);
      ReceiptRun(cfg, s, before + init);
      HistoryInvRun(cfg, s, before + init);
      SerialRun(cfg, s, before + init);
      ReceiptNext(cfg, Run(cfg, s, before + init), c);
    }
  }

  // ----- approval times -----

  predicate InTime(r: Row) {
    r.approvedAt.Some? && r.frozen.createdAt <= r.approvedAt.value < r.frozen.expiresAt
  }

  predicate TimeRow(r: Row, now: int) {
    && r.frozen.createdAt <= now
    && (r.approvedAt.Some? ==> r.frozen.createdAt <= r.approvedAt.value <= now)
    && (r.startedAt.Some? ==> InTime(r))
  }

  predicate JobInTime(rows: map<Pid, Row>, j: Job) {
    (j.pc.FindTarget? || j.pc.MarkExecuting?) && PidOf(j.req) in rows ==> InTime(rows[PidOf(j.req)])
  }

  ghost predicate TimeInv(s: State) {
    && (forall p :: p in s.db.rows ==> TimeRow(s.db.rows[p], s.clock))
    && (forall t :: t in s.jobs ==> JobInTime(s.db.rows, s.jobs[t]))
  }

  /** The clock never runs backwards. */
  ghost predicate Monotone(cfg: Config, s: State, cs: seq<Choice>) {
    cs == [] ||
    (var init, c := cs[..|cs| - 1], cs[|cs| - 1];
     Monotone(cfg, s, init) && (c.Tick? ==> c.now >= Run(cfg, s, init).clock))
  }

  predicate TimelyRows(s: State, a: Act) {
    forall p :: p in a.db.rows ==> TimeRow(a.db.rows[p], s.clock)
  }

  lemma PatchTimely(s: State, j: Job, a: Act)
    requires RowsByPatch(s, j, a) && TimelyRows(s, a.(db := s.db)) && AtStatus(s.db.rows, j) && JobInTime(s.db.rows, j)
    requires PcPatch(j, s.clock).Some? ==> Known(j.pc)
    requires Shapes(s.db.rows)
    ensures TimelyRows(s, a)
  {
  }

  lemma ProposingTimely(cfg: Config, s: State, j: Job, o: Oracle)
    requires j.req.Propose? || j.req.ProposePlan? || j.req.ProposeScript?
    requires forall p :: p in s.db.rows ==> TimeRow(s.db.rows[p], s.clock)
    ensures TimelyRows(s, Proposing(cfg, s, j, o))
  {
  }

  lemma DoTimely(cfg: Config, s: State, tid: Tid, j: Job, o: Oracle)
    requires Fits(j.req, j.pc) && AtStatus(s.db.rows, j) && JobInTime(s.db.rows, j) && Shapes(s.db.rows)
    requires forall p :: p in s.db.rows ==> TimeRow(s.db.rows[p], s.clock)
    ensures TimelyRows(s, Do(cfg, s, tid, j, o))
  {
    if j.pc.Expire? { }
    else if j.req.Approve? || j.req.Close? {
      DoPatch(cfg, s, tid, j, o);
      PatchKnown(j, s.clock);
      PatchTimely(s, j, Do(cfg, s, tid, j, o));
    }
    else { ProposingTimely(cfg, s, j, o); }
  }

  lemma LockingTimely(cfg: Config, s: State, tid: Tid, j: Job, o: Oracle)
    requires j.req.Approve? && Holding(j.pc) && StillToEnter(j.pc) && CopyOk(s.db.rows, j) && AtStatus(s.db.rows, j)
    requires JobInTime(s.db.rows, j) && Shapes(s.db.rows)
    requires forall p :: p in s.db.rows ==> TimeRow(s.db.rows[p], s.clock)
    ensures var a := Locking(cfg, s, tid, j, o);
            a.pc.Some? ==> JobInTime(a.db.rows, Job(j.req, a.pc.value, a.sawAt, a.lockedAt))
  {
  }

  lemma NotYetFound(cfg: Config, s: State, tid: Tid, j: Job, o: Oracle)
    requires Fits(j.req, j.pc) && !(j.req.Approve? && Holding(j.pc) && StillToEnter(j.pc))
    ensures var a := Do(cfg, s, tid, j, o); a.pc.Some? ==> !a.pc.value.FindTarget? && !a.pc.value.MarkExecuting?
  {
    if j.req.Propose? || j.req.ProposePlan? || j.req.ProposeScript? { ProposingQuiet(cfg, s, j, o); }
  }

  lemma DoJobInTime(cfg: Config, s: State, tid: Tid, j: Job, o: Oracle)
    requires Fits(j.req, j.pc) && CopyOk(s.db.rows, j) && AtStatus(s.db.rows, j) && JobInTime(s.db.rows, j) && Shapes(s.db.rows)
    requires forall p :: p in s.db.rows ==> TimeRow(s.db.rows[p], s.clock)
    ensures var a := Do(cfg, s, tid, j, o);
            a.pc.Some? ==> JobInTime(a.db.rows, Job(j.req, a.pc.value, a.sawAt, a.lockedAt))
  {
    if j.req.Approve? && Holding(j.pc) && StillToEnter(j.pc) { LockingTimely(cfg, s, tid, j, o); }
    else { NotYetFound(cfg, s, tid, j, o); }
  }

  lemma TimeGo(s: State, tid: Tid, a: Act)
    requires TimeInv(s) && tid in s.jobs && (forall t :: t in s.jobs ==> t == tid) && TimelyRows(s, a)
    requires a.pc.Some? ==> JobInTime(a.db.rows, Job(s.jobs[tid].req, a.pc.value, a.sawAt, a.lockedAt))
    ensures TimeInv(Apply(s, tid, a))
  {
  }

  lemma TimeFrame(s: State, r: State)
    requires TimeInv(s) && Frame(s, r) && r.clock >= s.clock
    ensures TimeInv(r)
  {
    forall t | t in r.jobs ensures JobInTime(r.db.rows, r.jobs[t]) {
      if t in s.jobs && r.jobs[t] == s.jobs[t] { assert JobInTime(s.db.rows, s.jobs[t]); }
    }
  }

  lemma TimeNext(cfg: Config, s: State, c: Choice)
    requires LockInv(s) && HistoryInv(s) && FrozenInv(cfg, s) && SerialInv(s) && TimeInv(s)
    requires c.Tick? ==> c.now >= s.clock
    ensures TimeInv(Next(cfg, s, c))
  {
    if Enabled(s, c) {
      NextApply(cfg, s, c);
      DoTimely(cfg, s, c.tid, s.jobs[c.tid], c.o);
      DoJobInTime(cfg, s, c.tid, s.jobs[c.tid], c.o);
      TimeGo(s, c.tid, Do(cfg, s, c.tid, s.jobs[c.tid], c.o));
    } else {
      NextFrame(cfg, s, c);
      TimeFrame(s, Next(cfg, s, c));
    }
  }

  lemma {:induction false} TimeRun(cfg: Config, s: State, cs: seq<Choice>)
    requires Initial(s) && OneAtATime(cfg, s, cs) && Monotone(cfg, s, cs)
    ensures TimeInv(Run(cfg, s, cs))
  {
    if cs == [] {
    } else {
      TimeRun(cfg, s, cs[..|cs| - 1]);
      FrozenRun(cfg, s, cs[..|cs| - 1]);
      SerialRun(cfg, s, cs[..|cs| - 1]);
      TimeNext(cfg, Run(cfg, s, cs[..|cs| - 1]), cs[|cs| - 1]);
    }
  }

  /** Under a monotone clock every row that reached EXECUTING was approved after it was created and before it
      expired, and its expiry is its creation plus the configured lifetime. */
  lemma ExecutedInTime(cfg: Config, s: State, cs: seq<Choice>, p: Pid)
    requires Initial(s) && OneAtATime(cfg, s, cs) && Monotone(cfg, s, cs)
    requires p in Run(cfg, s, cs).db.rows && Run(cfg, s, cs).db.rows[p].startedAt.Some?
    ensures var r := Run(cfg, s, cs).db.rows[p];
            && r.approvedAt.Some?
            && r.frozen.createdAt <= r.approvedAt.value < r.frozen.expiresAt == r.frozen.createdAt + cfg.ttl
  {
    TimeRun(cfg, s, cs);
    ColumnsMatchPlan(cfg, s, cs, p);
  }
}
