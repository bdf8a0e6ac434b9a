/** The mock adapter's optimistic drift check: a single operation is called only when no call that moved the counter
    has been saved since the operation's own precheck at proposal time. */
module MockDrift {
  import opened JsonText
  import opened Registry
  import opened Lifecycle
  import opened Threads
  import opened FrozenContent

  predicate IsSave(e: Event) { e.Returned? && e.saved }

  function Saves(log: seq<Event>): nat {
    if log == [] then 0 else Saves(log[..|log| - 1]) + if IsSave(log[|log| - 1]) then 1 else 0
  }

  lemma {:induction false} SavesAppend(log: seq<Event>, es: seq<Event>)
    requires |es| <= 1
    ensures Saves(log + es) == Saves(log) + if es != [] && IsSave(es[0]) then 1 else 0
  {
    if es == [] { assert log + es == log; } else { assert (log + es)[..|log + es| - 1] == log; }
  }

  lemma {:induction false} NoSaveBetween(log: seq<Event>, a: nat, b: nat)
    requires a <= b <= |log|
    ensures Saves(log[..a]) <= Saves(log[..b])
    ensures Saves(log[..a]) == Saves(log[..b]) ==> forall i :: a <= i < b ==> !IsSave(log[i])
  {
    if a == b {
    } else {
      NoSaveBetween(log, a, b - 1);
      assert log[..b][..b - 1] == log[..b - 1];
    }
  }

  /** A row whose precheck is the mock adapter's and is compared again before its call. */
  predicate Compared(adapter: string, operation: string) {
    adapter == "mock" && operation != "plan.run" && operation != "script.run"
  }

  predicate CountedAt(pre: Json, m0: int, log: seq<Event>, at: nat) {
    at <= |log| && Get(pre, "counter") == Int(m0 + Saves(log[..at]))
  }

  /** While a handler runs, the counter it compared or loaded is still the adapter's counter. */
  predicate RunCount(mock: int, pc: Pc) {
    match pc
    case Returning(_, _, _, before) => before == mock
    case Call(p, _, w) =>
      w.Single? ==>
        && p.row.frozen.operation != "plan.run" && p.row.frozen.operation != "script.run"
        && (p.row.frozen.adapter == "mock" ==> Get(p.row.frozen.preState, "counter") == Int(mock))
    case Precheck(p, _) => p.row.frozen.operation != "plan.run"
    case _ => true
  }

  predicate DraftCount(m0: int, log: seq<Event>, pc: Pc) {
    pc.Insert? && Compared(pc.d.adapter, pc.d.operation) ==> CountedAt(pc.pre, m0, log, pc.checkedAt)
  }

  ghost predicate CallFresh(rows: map<Pid, Row>, births: map<Pid, Birth>, log: seq<Event>, k: nat)
    requires k < |log| && log[k].Called?
  {
    var p := log[k].pid;
    p in rows && p in births &&
    (log[k].w.Single? && rows[p].frozen.adapter == "mock" ==>
      births[p].checkedAt <= k && Saves(log[..k]) == Saves(log[..births[p].checkedAt]))
  }

  ghost predicate CounterInv(m0: int, s: State) {
    && s.mock == m0 + Saves(s.log)
    && (forall t :: t in s.jobs ==> RunCount(s.mock, s.jobs[t].pc) && DraftCount(m0, s.log, s.jobs[t].pc))
    && (forall p :: p in s.db.rows && Compared(s.db.rows[p].frozen.adapter, s.db.rows[p].frozen.operation) ==>
          p in s.births && CountedAt(s.db.rows[p].frozen.preState, m0, s.log, s.births[p].checkedAt))
    && (forall k :: 0 <= k < |s.log| && s.log[k].Called? ==> CallFresh(s.db.rows, s.births, s.log, k))
  }

  // ----- one step -----

  predicate NewPoint(s: State, j: Job, a: Act) {
    a.pc.Some? ==>
      && RunCount(a.mock, a.pc.value)
      && (a.pc.value.Insert? && Compared(a.pc.value.d.adapter, a.pc.value.d.operation) ==>
            a.pc.value.checkedAt == |s.log| && Get(a.pc.value.pre, "counter") == Int(s.mock))
  }

  predicate NewRows(s: State, j: Job, a: Act) {
    forall p :: p in a.db.rows && p !in s.db.rows ==>
      j.pc.Insert? && p in a.births && a.births[p].checkedAt == j.pc.checkedAt && a.db.rows[p].frozen.preState == j.pc.pre
      && a.db.rows[p].frozen.adapter == j.pc.d.adapter && a.db.rows[p].frozen.operation == j.pc.d.operation
  }

  predicate CountStep(s: State, tid: Tid, j: Job, a: Act) {
    && |a.events| <= 1
    && (RunCount(s.mock, j.pc) ==>
          && a.mock == s.mock + (if a.events != [] && IsSave(a.events[0]) then 1 else 0)
          && NewPoint(s, j, a))
    && (a.mock != s.mock ==> Holding(j.pc))
    && NewRows(s, j, a)
    && (a.events != [] && a.events[0].Called? ==>
          j.pc.Call? && a.events[0].w == j.pc.w && a.events[0].pid == PidOf(j.req) && a.events[0].tid == tid)
  }

  lemma MockCounter(n: int, t: Target)
    ensures Get(MockState(n, t), "counter") == Int(n)
  {
    FindAt(MockState(n, t).members, 0);
  }

  /** The comparison of two observed states of the mock adapter looks at the counter alone, and at all of it. */
  lemma HoldsExactly(m: int, t: Target, n: int, u: Target)
    ensures Holds("mock", MockState(m, t), MockState(n, u)) <==> m == n
  {
    MockCounter(m, t);
    MockCounter(n, u);
  }

  lemma ExecutingCounts(cfg: Config, s: State, tid: Tid, j: Job, o: Oracle)
    requires j.req.Approve? && Running(j.pc)
    ensures CountStep(s, tid, j, Executing(cfg, s, tid, j, o))
  {
    if j.pc.Precheck? { MockCounter(s.mock, j.pc.t); }
  }

  lemma ProposingCounts(cfg: Config, s: State, tid: Tid, j: Job, o: Oracle)
    requires j.req.Propose? || j.req.ProposePlan? || j.req.ProposeScript?
    requires DictRequest(j.req)
    ensures CountStep(s, tid, j, Proposing(cfg, s, j, o))
  {
    ProposingQuiet(cfg, s, j, o);
    if j.pc.Pre? { MockCounter(s.mock, j.pc.d.target); }
  }

  /** A step outside the adapter calls neither calls nor saves anything. */
  predicate CallFree(s: State, a: Act) {
    && a.mock == s.mock && |a.events| <= 1
    && (a.events != [] ==> !a.events[0].Called? && !IsSave(a.events[0]))
    && (a.pc.Some? ==> RunCount(a.mock, a.pc.value) && !a.pc.value.Insert?)
    && (forall p :: p in a.db.rows ==> p in s.db.rows)
  }

  lemma OpeningQuiet(cfg: Config, s: State, tid: Tid, j: Job, o: Oracle)
    requires j.req.Approve?
    ensures CallFree(s, Opening(cfg, s, tid, j, o))
  {
  }

  lemma LockingQuiet(cfg: Config, s: State, tid: Tid, j: Job, o: Oracle)
    requires j.req.Approve?
    ensures CallFree(s, Locking(cfg, s, tid, j, o))
  {
  }

  lemma EndingQuiet(s: State, tid: Tid, j: Job)
    requires j.req.Approve?
    ensures CallFree(s, Ending(s, tid, j))
  {
  }

  lemma ApproveQuiet(cfg: Config, s: State, tid: Tid, j: Job, o: Oracle)
    requires j.req.Approve? && !Running(j.pc) && !j.pc.Expire?
    ensures CallFree(s, Do(cfg, s, tid, j, o))
  {
    OpeningQuiet(cfg, s, tid, j, o); LockingQuiet(cfg, s, tid, j, o); EndingQuiet(s, tid, j);
  }

  lemma OtherCounts(cfg: Config, s: State, tid: Tid, j: Job, o: Oracle)
    requires Fits(j.req, j.pc) && !(j.req.Approve? && Running(j.pc))
    requires j.pc.Expire? || !(j.req.Propose? || j.req.ProposePlan? || j.req.ProposeScript?)
    ensures CountStep(s, tid, j, Do(cfg, s, tid, j, o))
  {
    if j.req.Approve? && !j.pc.Expire? { ApproveQuiet(cfg, s, tid, j, o); }
  }

  lemma DoCounts(cfg: Config, s: State, tid: Tid, j: Job, o: Oracle)
    requires Fits(j.req, j.pc) && DictRequest(j.req)
    ensures CountStep(s, tid, j, Do(cfg, s, tid, j, o))
  {
    if j.req.Approve? && Running(j.pc) { ExecutingCounts(cfg, s, tid, j, o); }
    else if j.pc.Expire? || !(j.req.Propose? || j.req.ProposePlan? || j.req.ProposeScript?) { OtherCounts(cfg, s, tid, j, o); }
    else { ProposingCounts(cfg, s, tid, j, o); }
  }

  // ----- every run -----

  lemma CountedLater(pre: Json, m0: int, log: seq<Event>, es: seq<Event>, at: nat)
    requires CountedAt(pre, m0, log, at)
    ensures CountedAt(pre, m0, log + es, at)
  {
    assert (log + es)[..at] == log[..at];
  }

  lemma Whole(log: seq<Event>)
    ensures log[..|log|] == log
  {
  }

  lemma CountedNow(pre: Json, m0: int, log: seq<Event>, es: seq<Event>)
    requires Get(pre, "counter") == Int(m0 + Saves(log))
    ensures CountedAt(pre, m0, log + es, |log|)
  {
    Whole(log);
    CountedLater(pre, m0, log, es, |log|);
  }

  /** What is needed of the state around a step, apart from the counter itself. */
  ghost predicate Around(cfg: Config, s: State, tid: Tid, a: Act) {
    && tid in s.jobs && CountStep(s, tid, s.jobs[tid], a) && KeepsFrozen(cfg, s, a)
    && (forall p :: p in s.births <==> p in s.db.rows)
    && (Holding(s.jobs[tid].pc) ==> forall t :: t in s.jobs && t != tid ==> !Holding(s.jobs[t].pc))
    && CopyOk(s.db.rows, s.jobs[tid])
  }

  lemma StepJobCounts(cfg: Config, m0: int, s: State, tid: Tid, a: Act, t: Tid)
    requires CounterInv(m0, s) && Around(cfg, s, tid, a) && t in Apply(s, tid, a).jobs
    ensures var r := Apply(s, tid, a); RunCount(r.mock, r.jobs[t].pc) && DraftCount(m0, r.log, r.jobs[t].pc)
  {
    if t == tid {
      var pc := a.pc.value;
      if pc.Insert? && Compared(pc.d.adapter, pc.d.operation) { CountedNow(pc.pre, m0, s.log, a.events); }
    } else {
      var pc := s.jobs[t].pc;
      if pc.Insert? && Compared(pc.d.adapter, pc.d.operation) { CountedLater(pc.pre, m0, s.log, a.events, pc.checkedAt); }
    }
  }

  lemma StepRowCounts(cfg: Config, m0: int, s: State, tid: Tid, a: Act, p: Pid)
    requires CounterInv(m0, s) && Around(cfg, s, tid, a) && p in a.db.rows
    requires Compared(a.db.rows[p].frozen.adapter, a.db.rows[p].frozen.operation)
    ensures p in a.births && CountedAt(a.db.rows[p].frozen.preState, m0, s.log + a.events, a.births[p].checkedAt)
  {
    if p in s.db.rows {
      CountedLater(s.db.rows[p].frozen.preState, m0, s.log, a.events, s.births[p].checkedAt);
    } else {
      var pc := s.jobs[tid].pc;
      CountedLater(pc.pre, m0, s.log, a.events, pc.checkedAt);
    }
  }

  lemma OldCallFresh(cfg: Config, m0: int, s: State, tid: Tid, a: Act, k: nat)
    requires CounterInv(m0, s) && Around(cfg, s, tid, a) && k < |s.log| && s.log[k].Called?
    ensures CallFresh(a.db.rows, a.births, s.log + a.events, k)
  {
    var log := s.log + a.events;
    assert CallFresh(s.db.rows, s.births, s.log, k);
    assert log[..k] == s.log[..k];
    var p := s.log[k].pid;
    if s.births[p].checkedAt <= k { assert log[..s.births[p].checkedAt] == s.log[..s.births[p].checkedAt]; }
  }

  lemma NewCallFresh(cfg: Config, m0: int, s: State, tid: Tid, a: Act)
    requires CounterInv(m0, s) && Around(cfg, s, tid, a) && a.events != [] && a.events[0].Called?
    ensures CallFresh(a.db.rows, a.births, s.log + a.events, |s.log|)
  {
    var log := s.log + a.events;
    assert log[..|s.log|] == s.log;
    var p, pc := PidOf(s.jobs[tid].req), s.jobs[tid].pc;
    if pc.w.Single? && s.db.rows[p].frozen.adapter == "mock" {
      assert CountedAt(s.db.rows[p].frozen.preState, m0, s.log, s.births[p].checkedAt);
      assert log[..s.births[p].checkedAt] == s.log[..s.births[p].checkedAt];
    }
  }

  lemma CallsStayFresh(cfg: Config, m0: int, s: State, tid: Tid, a: Act)
    requires CounterInv(m0, s) && Around(cfg, s, tid, a)
    ensures var r := Apply(s, tid, a);
            forall k :: 0 <= k < |r.log| && r.log[k].Called? ==> CallFresh(r.db.rows, r.births, r.log, k)
  {
    var r := Apply(s, tid, a);
    forall k | 0 <= k < |r.log| && r.log[k].Called? ensures CallFresh(r.db.rows, r.births, r.log, k) {
      if k < |s.log| { OldCallFresh(cfg, m0, s, tid, a, k); } else { NewCallFresh(cfg, m0, s, tid, a); }
    }
  }

  lemma CounterGo(cfg: Config, m0: int, s: State, tid: Tid, a: Act)
    requires CounterInv(m0, s) && Around(cfg, s, tid, a)
    ensures CounterInv(m0, Apply(s, tid, a))
  {
    var r := Apply(s, tid, a);
    SavesAppend(s.log, a.events);
    forall t | t in r.jobs ensures RunCount(r.mock, r.jobs[t].pc) && DraftCount(m0, r.log, r.jobs[t].pc) {
      StepJobCounts(cfg, m0, s, tid, a, t);
    }
    forall p | p in r.db.rows && Compared(r.db.rows[p].frozen.adapter, r.db.rows[p].frozen.operation)
      ensures p in r.births && CountedAt(r.db.rows[p].frozen.preState, m0, r.log, r.births[p].checkedAt)
    {
      StepRowCounts(cfg, m0, s, tid, a, p);
    }
    CallsStayFresh(cfg, m0, s, tid, a);
  }

  lemma CounterFrame(m0: int, s: State, r: State)
    requires CounterInv(m0, s) && Frame(s, r)
    ensures CounterInv(m0, r)
  {
    forall k | 0 <= k < |r.log| && r.log[k].Called? ensures CallFresh(r.db.rows, r.births, r.log, k) {
      assert CallFresh(s.db.rows, s.births, s.log, k);
    }
  }

  lemma CounterNext(cfg: Config, m0: int, s: State, c: Choice)
    requires LockInv(s) && HistoryInv(s) && FrozenInv(cfg, s) && CounterInv(m0, s)
    ensures CounterInv(m0, Next(cfg, s, c))
  {
    if Enabled(s, c) {
      NextApply(cfg, s, c);
      DoCounts(cfg, s, c.tid, s.jobs[c.tid], c.o);
      DoKeeps(cfg, s, c.tid, s.jobs[c.tid], c.o);
      CounterGo(cfg, m0, s, c.tid, Do(cfg, s, c.tid, s.jobs[c.tid], c.o));
    } else {
      NextFrame(cfg, s, c);
      CounterFrame(m0, s, Next(cfg, s, c));
    }
  }

  lemma {:induction false} CounterRun(cfg: Config, s: State, cs: seq<Choice>)
    requires Initial(s)
    ensures CounterInv(s.mock, Run(cfg, s, cs))
  {
    if cs == [] {
    } else {
      CounterRun(cfg, s, cs[..|cs| - 1]);
      FrozenRun(cfg, s, cs[..|cs| - 1]);
      CounterNext(cfg, s.mock, Run(cfg, s, cs[..|cs| - 1]), cs[|cs| - 1]);
    }
  }

  /** Over every run, threads and crashes included: a single mock operation is called only if no counter-changing
      execution, from any proposal or plan step, was saved since its own precheck. */
  lemma CalledOnlyWithoutDrift(cfg: Config, s: State, cs: seq<Choice>, k: nat)
    requires Initial(s) && k < |Run(cfg, s, cs).log|
    requires Run(cfg, s, cs).log[k].Called? && Run(cfg, s, cs).log[k].w.Single?
    ensures var r := Run(cfg, s, cs);
            var p := r.log[k].pid;
            && p in r.db.rows && p in r.births
            && (r.db.rows[p].frozen.adapter == "mock" ==>
                  r.births[p].checkedAt <= k && forall i :: r.births[p].checkedAt <= i < k ==> !IsSave(r.log[i]))
  {
    var r := Run(cfg, s, cs);
    CounterRun(cfg, s, cs);
    assert CallFresh(r.db.rows, r.births, r.log, k);
    var p := r.log[k].pid;
    if r.db.rows[p].frozen.adapter == "mock" { NoSaveBetween(r.log, r.births[p].checkedAt, k); }
  }

  /** So a second call of one mock operation is made only if nothing was saved since the first: its own call failed, or its
      handler was stopped before it returned. */
  lemma SecondCallOnlyIfUnsaved(cfg: Config, s: State, cs: seq<Choice>, i: nat, k: nat)
    requires Initial(s) && i < k < |Run(cfg, s, cs).log|
    requires var log := Run(cfg, s, cs).log; log[i].Called? && log[k].Called? && log[i].w.Single? && log[k].w.Single?
    requires var r := Run(cfg, s, cs);
             r.log[k].pid == r.log[i].pid && (r.log[k].pid in r.db.rows ==> r.db.rows[r.log[k].pid].frozen.adapter == "mock")
    ensures forall m :: i <= m < k ==> !IsSave(Run(cfg, s, cs).log[m])
  {
    CalledOnlyWithoutDrift(cfg, s, cs, i);
    CalledOnlyWithoutDrift(cfg, s, cs, k);
  }
}
