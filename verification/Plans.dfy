/** Plan execution: the adapter calls of one execution are a prefix of the frozen steps, in order, stopping at the
    first failure, and the outcome is SUCCEEDED exactly when all of them ran and returned 0. */
module Plans {
  import opened JsonText
  import opened JsonProofs
  import opened Registry
  import opened Lifecycle
  import opened Threads
  import opened FrozenContent

  /** The state of one handler's calls, replayed from the log. */
  datatype Progress = Idle | Ready(i: nat) | Waiting(i: nat) | Stopped | Done(ok: bool) | Bad

  function Advance(pr: Progress, e: Event, steps: seq<Json>): Progress {
    match e
    case Entered(_, _, _, _, _) => if pr.Idle? then Ready(0) else Bad
    case Called(_, _, w, what) =>
      if pr.Ready? && pr.i < |steps| && w == Nth(pr.i) && what == steps[pr.i] then Waiting(pr.i) else Bad
    case Returned(_, _, w, rc, _) =>
      if pr.Waiting? && w == Nth(pr.i) then (if rc == 0 then Ready(pr.i + 1) else Stopped) else Bad
    case Ended(_, _, status) =>
      if pr.Idle? && status != SUCCEEDED then Idle
      else if pr == Ready(|steps|) && status == SUCCEEDED then Done(true)
      else if (pr.Stopped? || (pr.Ready? && pr.i < |steps|)) && status == FAILED then Done(false)
      else Bad
    case _ => pr
  }

  function Replay(log: seq<Event>, t: Tid, steps: seq<Json>): Progress {
    if log == [] then Idle
    else
      var pr, e := Replay(log[..|log| - 1], t, steps), log[|log| - 1];
      if e.tid == t then Advance(pr, e, steps) else pr
  }

  lemma ReplayAppend(log: seq<Event>, e: Event, t: Tid, steps: seq<Json>)
    ensures Replay(log + [e], t, steps)
         == if e.tid == t then Advance(Replay(log, t, steps), e, steps) else Replay(log, t, steps)
  {
    assert (log + [e])[..|log + [e]| - 1] == log;
  }

  // ----- what a replay that never goes bad says -----

  function CallsOf(log: seq<Event>, t: Tid): seq<Json> {
    if log == [] then []
    else
      var e := log[|log| - 1];
      CallsOf(log[..|log| - 1], t) + if e.tid == t && e.Called? then [e.what] else []
  }

  function ReturnsOf(log: seq<Event>, t: Tid): seq<int> {
    if log == [] then []
    else
      var e := log[|log| - 1];
      ReturnsOf(log[..|log| - 1], t) + if e.tid == t && e.Returned? then [e.rc] else []
  }

  predicate EndedAs(log: seq<Event>, t: Tid, status: Status) {
    exists i :: 0 <= i < |log| && log[i].tid == t && log[i].Ended? && log[i].status == status
  }

  predicate AllZero(rcs: seq<int>) { forall i :: 0 <= i < |rcs| ==> rcs[i] == 0 }

  predicate AllZeroButLast(rcs: seq<int>) { rcs != [] && AllZero(rcs[..|rcs| - 1]) && rcs[|rcs| - 1] != 0 }

  /** Every step was called and every call returned 0. */
  predicate Complete(calls: seq<Json>, rcs: seq<int>, steps: seq<Json>) {
    calls == steps && |rcs| == |steps| && AllZero(rcs)
  }

  predicate Matches(pr: Progress, calls: seq<Json>, rcs: seq<int>, steps: seq<Json>) {
    && calls <= steps
    && match pr
       case Idle => calls == [] && rcs == []
       case Ready(i) => |calls| == i && |rcs| == i && AllZero(rcs)
       case Waiting(i) => |calls| == i + 1 && |rcs| == i && AllZero(rcs)
       case Stopped => |calls| == |rcs| && AllZeroButLast(rcs)
       case Done(ok) => |calls| == |rcs| && (if ok then Complete(calls, rcs, steps)
                                            else AllZeroButLast(rcs) || (AllZero(rcs) && |calls| < |steps|))
       case Bad => false
  }

  lemma AdvanceMatches(pr: Progress, e: Event, calls: seq<Json>, rcs: seq<int>, steps: seq<Json>)
    requires Matches(pr, calls, rcs, steps) && Advance(pr, e, steps) != Bad
    ensures Matches(Advance(pr, e, steps), calls + (if e.Called? then [e.what] else []),
                    rcs + (if e.Returned? then [e.rc] else []), steps)
  {
    if e.Called? {
      assert calls + [e.what] <= steps;
      assert rcs + [] == rcs;
    } else if e.Returned? {
      assert (rcs + [e.rc])[..|rcs + [e.rc]| - 1] == rcs;
      assert calls + [] == calls;
    } else {
      assert calls + [] == calls && rcs + [] == rcs;
    }
  }

  lemma NextMatches(pr: Progress, e: Event, t: Tid, calls: seq<Json>, rcs: seq<int>, steps: seq<Json>)
    requires Matches(pr, calls, rcs, steps) && (e.tid == t ==> Advance(pr, e, steps) != Bad)
    ensures Matches(if e.tid == t then Advance(pr, e, steps) else pr,
                    calls + (if e.tid == t && e.Called? then [e.what] else []),
                    rcs + (if e.tid == t && e.Returned? then [e.rc] else []), steps)
  {
    if e.tid == t { AdvanceMatches(pr, e, calls, rcs, steps); } else { assert calls + [] == calls && rcs + [] == rcs; }
  }

  lemma {:induction false} ReplayMatches(log: seq<Event>, t: Tid, steps: seq<Json>)
    requires Replay(log, t, steps) != Bad
    ensures Matches(Replay(log, t, steps), CallsOf(log, t), ReturnsOf(log, t), steps)
  {
    if log == [] {
    } else {
      var init, e := log[..|log| - 1], log[|log| - 1];
      ReplayMatches(init, t, steps);
      NextMatches(Replay(init, t, steps), e, t, CallsOf(init, t), ReturnsOf(init, t), steps);
    }
  }

  lemma {:induction false} ReplayEnds(log: seq<Event>, t: Tid, steps: seq<Json>)
    requires Replay(log, t, steps) != Bad
    ensures EndedAs(log, t, SUCCEEDED) <==> Replay(log, t, steps) == Done(true)
  {
    if log == [] {
    } else {
      var init, e := log[..|log| - 1], log[|log| - 1];
      ReplayEnds(init, t, steps);
      if EndedAs(init, t, SUCCEEDED) {
        var i :| 0 <= i < |init| && init[i].tid == t && init[i].Ended? && init[i].status == SUCCEEDED;
        assert log[i] == init[i];
      }
    }
  }

  lemma {:induction false} ReplayEntered(log: seq<Event>, t: Tid, steps: seq<Json>, k: nat)
    requires k < |log| && log[k].Entered? && log[k].tid == t
    ensures Replay(log, t, steps) != Idle
  {
    if k == |log| - 1 {
    } else {
      ReplayEntered(log[..|log| - 1], t, steps, k);
    }
  }

  /** The handler committed the result of what it entered at k. */
  predicate Concluded(log: seq<Event>, t: Tid, k: nat) {
    exists i :: k < i < |log| && log[i].tid == t && log[i].Ended? && (log[i].status == SUCCEEDED || log[i].status == FAILED)
  }

  lemma {:induction false} ReplayConcluded(log: seq<Event>, t: Tid, steps: seq<Json>, k: nat, i: nat)
    requires k < i < |log| && log[k].Entered? && log[k].tid == t && log[i].Ended? && log[i].tid == t
    requires Replay(log, t, steps) != Bad
    ensures Replay(log, t, steps).Done?
  {
    var init := log[..|log| - 1];
    if i < |init| {
      ReplayConcluded(init, t, steps, k, i);
    } else {
      ReplayEntered(init, t, steps, k);
    }
  }

  lemma {:induction false} MeansLength(a: seq<Json>)
    ensures |MeanItems(a)| == |a|
  {
    if a == [] {
    } else {
      MeansLength(a[1..]);
    }
  }

  lemma {:induction false} MeansIndex(a: seq<Json>, i: nat)
    requires i < |a|
    ensures |MeanItems(a)| == |a| && MeanItems(a)[i] == Mean(a[i])
  {
    MeansLength(a);
    if i == 0 {
    } else {
      MeansIndex(a[1..], i - 1);
    }
  }

  lemma {:induction false} MeansAt(a: seq<Json>, b: seq<Json>, i: nat)
    requires MeanItems(a) == MeanItems(b)
    ensures |a| == |b|
    ensures i < |a| ==> Mean(a[i]) == Mean(b[i])
  {
    MeansLength(a);
    MeansLength(b);
    if i < |a| {
      MeansIndex(a, i);
      MeansIndex(b, i);
    }
  }

  // ----- every run -----

  /** Where a handler inside a plan stands, given what its calls so far replay to. */
  predicate Stands(pc: Pc, pr: Progress, plan: Json) {
    match pc
    case Step(p, i) => p.plan == plan && pr == Ready(i) && i <= |Steps(plan)|
    case Call(p, _, w) => p.plan == plan && w.Nth? && w.i < |Steps(plan)| && pr == Ready(w.i)
    case Returning(p, _, w, _) => p.plan == plan && w.Nth? && w.i < |Steps(plan)| && pr == Waiting(w.i)
    case Finish(rc) => if rc == 0 then pr == Ready(|Steps(plan)|) else pr.Stopped? || (pr.Ready? && pr.i < |Steps(plan)|)
    case GetFinal(_) => pr.Done?
    case WriteReceipt(_, _) => pr.Done?
    case Unlock => pr.Done?
    case _ => false
  }

  predicate Plain(log: seq<Event>, t: Tid) {
    forall i :: 0 <= i < |log| && log[i].tid == t ==>
      !log[i].Entered? && !log[i].Called? && !log[i].Returned? && !(log[i].Ended? && log[i].status == SUCCEEDED)
  }

  lemma {:induction false} PlainReplay(log: seq<Event>, t: Tid, steps: seq<Json>)
    requires Plain(log, t)
    ensures Replay(log, t, steps) == Idle
  {
    if log == [] {
    } else {
      PlainReplay(log[..|log| - 1], t, steps);
    }
  }

  predicate IsPlanRow(rows: map<Pid, Row>, p: Pid) { p in rows && rows[p].frozen.operation == "plan.run" }

  ghost predicate TrailOk(s: State, k: nat)
    requires k < |s.log| && s.log[k].Entered?
  {
    var t, plan := s.log[k].tid, s.log[k].plan;
    var pr := Replay(s.log, t, Steps(plan));
    if t in s.jobs then Stands(s.jobs[t].pc, pr, plan) else pr != Bad
  }

  ghost predicate PlanInv(s: State) {
    && (forall t :: t in s.jobs && StillToEnter(s.jobs[t].pc) ==> Plain(s.log, t))
    && (forall k :: 0 <= k < |s.log| && s.log[k].Entered? && IsPlanRow(s.db.rows, s.log[k].pid) ==> TrailOk(s, k))
  }

  lemma CallStep(cfg: Config, s: State, tid: Tid, j: Job, o: Oracle, pr: Progress, plan: Json)
    requires j.req.Approve? && Running(j.pc) && Stands(j.pc, pr, plan) && Get(plan, "steps").Arr?
    ensures var a := Executing(cfg, s, tid, j, o);
            && a.pc.Some? && |a.events| <= 1
            && Stands(a.pc.value, if a.events == [] then pr else Advance(pr, a.events[0], Steps(plan)), plan)
  {
  }

  lemma EndStep(s: State, tid: Tid, j: Job, pr: Progress, plan: Json)
    requires j.req.Approve? && (j.pc.Finish? || j.pc.GetFinal? || j.pc.WriteReceipt? || j.pc.Unlock?) && Stands(j.pc, pr, plan)
    ensures var a := Ending(s, tid, j);
            var next := if a.events == [] then pr else Advance(pr, a.events[0], Steps(plan));
            |a.events| <= 1 && (if a.pc.Some? then Stands(a.pc.value, next, plan) else next != Bad)
  {
  }

  lemma DoStands(cfg: Config, s: State, tid: Tid, j: Job, o: Oracle, pr: Progress, plan: Json)
    requires Fits(j.req, j.pc) && j.req.Approve? && Stands(j.pc, pr, plan) && Get(plan, "steps").Arr?
    ensures var a := Do(cfg, s, tid, j, o);
            var next := if a.events == [] then pr else Advance(pr, a.events[0], Steps(plan));
            |a.events| <= 1 && (if a.pc.Some? then Stands(a.pc.value, next, plan) else next != Bad)
  {
    if Running(j.pc) { CallStep(cfg, s, tid, j, o, pr, plan); } else { EndStep(s, tid, j, pr, plan); }
  }

  /** An approval that is not yet executing adds no call to the log. */
  lemma PlainSteps(cfg: Config, s: State, tid: Tid, j: Job, o: Oracle)
    requires Fits(j.req, j.pc) && StillToEnter(j.pc) && !j.pc.MarkExecuting? && Shape(j)
    ensures forall e :: e in Do(cfg, s, tid, j, o).events ==>
              !e.Entered? && !e.Called? && !e.Returned? && !(e.Ended? && e.status == SUCCEEDED)
  {
    if j.req.Propose? || j.req.ProposePlan? || j.req.ProposeScript? { ProposingQuiet(cfg, s, j, o); }
  }

  lemma SameSteps(a: Json, b: Json)
    requires IsDict(a) && IsDict(b) && Mean(a) == Mean(b) && Get(b, "steps").Arr?
    ensures Get(a, "steps").Arr? && MeanItems(Steps(a)) == MeanItems(Steps(b))
  {
    GetMean(a, b, "steps");
  }

  lemma BornSteps(cfg: Config, f: Frozen, b: Birth)
    requires Born(cfg, f, b) && f.operation == "plan.run"
    ensures IsDict(b.plan) && Get(b.plan, "steps").Arr?
  {
  }

  lemma FrozenStepsArray(cfg: Config, s: State, k: nat)
    requires HistoryInv(s) && FrozenInv(cfg, s) && k < |s.log| && s.log[k].Entered? && IsPlanRow(s.db.rows, s.log[k].pid)
    ensures s.log[k].pid in s.births && Get(s.log[k].plan, "steps").Arr?
    ensures MeanItems(Steps(s.log[k].plan)) == MeanItems(Steps(s.births[s.log[k].pid].plan))
  {
    var e := s.log[k];
    assert EntryFaithful(s.births, e);
    BornSteps(cfg, s.db.rows[e.pid].frozen, s.births[e.pid]);
    SameSteps(e.plan, s.births[e.pid].plan);
  }

  lemma ReplayEvents(log: seq<Event>, es: seq<Event>, t: Tid, steps: seq<Json>)
    requires |es| <= 1 && forall e :: e in es ==> e.tid == t
    ensures Replay(log + es, t, steps)
         == if es == [] then Replay(log, t, steps) else Advance(Replay(log, t, steps), es[0], steps)
  {
    if es == [] { assert log + es == log; } else { assert es == [es[0]]; ReplayAppend(log, es[0], t, steps); }
  }

  lemma ReplayOthers(log: seq<Event>, es: seq<Event>, t: Tid, steps: seq<Json>)
    requires |es| <= 1 && forall e :: e in es ==> e.tid != t
    ensures Replay(log + es, t, steps) == Replay(log, t, steps)
  {
    if es == [] { assert log + es == log; } else { assert es == [es[0]]; ReplayAppend(log, es[0], t, steps); }
  }

  /** Standing somewhere in a plan before the step `a`, a handler stands after it or has ended well. */
  predicate StandsAfter(a: Act, pr: Progress, plan: Json) {
    var next := if a.events == [] then pr else Advance(pr, a.events[0], Steps(plan));
    if a.pc.Some? then Stands(a.pc.value, next, plan) else next != Bad
  }

  predicate OwnEvents(tid: Tid, a: Act) { |a.events| <= 1 && forall e :: e in a.events ==> e.tid == tid }

  lemma OldTrail(s: State, tid: Tid, a: Act, k: nat)
    requires tid in s.jobs && OwnEvents(tid, a) && k < |s.log| && s.log[k].Entered? && TrailOk(s, k)
    requires s.log[k].tid == tid ==> StandsAfter(a, Replay(s.log, tid, Steps(s.log[k].plan)), s.log[k].plan)
    ensures TrailOk(Apply(s, tid, a), k)
  {
    var t, plan := s.log[k].tid, s.log[k].plan;
    if t == tid {
      ReplayEvents(s.log, a.events, t, Steps(plan));
    } else {
      ReplayOthers(s.log, a.events, t, Steps(plan));
    }
  }

  lemma NewTrail(s: State, tid: Tid, a: Act)
    requires tid in s.jobs && OwnEvents(tid, a) && |a.events| == 1 && a.events[0].Entered? && Plain(s.log, tid)
    requires a.pc.Some? && Stands(a.pc.value, Ready(0), a.events[0].plan)
    ensures TrailOk(Apply(s, tid, a), |s.log|)
  {
    PlainReplay(s.log, tid, Steps(a.events[0].plan));
    ReplayEvents(s.log, a.events, tid, Steps(a.events[0].plan));
  }

  /** A step that enters an execution starts a plan at its first step. */
  predicate StartsPlan(s: State, a: Act) {
    |a.events| == 1 && a.events[0].Entered? && IsPlanRow(s.db.rows, a.events[0].pid) ==>
      a.pc.Some? && Stands(a.pc.value, Ready(0), a.events[0].plan)
  }

  predicate PlainStep(a: Act) {
    a.pc.Some? && StillToEnter(a.pc.value) ==>
      forall e :: e in a.events ==> !e.Entered? && !e.Called? && !e.Returned? && !(e.Ended? && e.status == SUCCEEDED)
  }

  ghost predicate PlanStep(s: State, tid: Tid, a: Act) {
    && tid in s.jobs && OwnEvents(tid, a) && StartsPlan(s, a) && PlainStep(a)
    && (a.pc.Some? && StillToEnter(a.pc.value) ==> StillToEnter(s.jobs[tid].pc))
    && (|a.events| == 1 && a.events[0].Entered? ==> StillToEnter(s.jobs[tid].pc) && a.events[0].pid in s.db.rows)
    && (forall p :: p in s.db.rows ==> p in a.db.rows && a.db.rows[p].frozen == s.db.rows[p].frozen)
    && (forall k :: 0 <= k < |s.log| && s.log[k].Entered? ==> s.log[k].pid in s.db.rows)
    && (forall k :: 0 <= k < |s.log| && s.log[k].Entered? && s.log[k].tid == tid && IsPlanRow(s.db.rows, s.log[k].pid) ==>
          StandsAfter(a, Replay(s.log, tid, Steps(s.log[k].plan)), s.log[k].plan))
  }

  lemma StillPlain(s: State, tid: Tid, a: Act, t: Tid)
    requires t in s.jobs && Plain(s.log, t) && OwnEvents(tid, a)
    requires t == tid ==> forall e :: e in a.events ==>
               !e.Entered? && !e.Called? && !e.Returned? && !(e.Ended? && e.status == SUCCEEDED)
    ensures Plain(s.log + a.events, t)
  {
    assert a.events == [] || a.events == [a.events[0]];
  }

  lemma PlanGo(s: State, tid: Tid, a: Act)
    requires PlanInv(s) && PlanStep(s, tid, a)
    ensures PlanInv(Apply(s, tid, a))
  {
    var r := Apply(s, tid, a);
    forall t | t in r.jobs && StillToEnter(r.jobs[t].pc) ensures Plain(r.log, t) { StillPlain(s, tid, a, t); }
    forall k | 0 <= k < |r.log| && r.log[k].Entered? && IsPlanRow(r.db.rows, r.log[k].pid) ensures TrailOk(r, k) {
      if k < |s.log| {
        OldTrail(s, tid, a, k);
      } else {
        assert r.log[k] == a.events[0];
        NewTrail(s, tid, a);
      }
    }
  }

  lemma EntryStarts(cfg: Config, s: State, tid: Tid, o: Oracle)
    requires tid in s.jobs && CopyOk(s.db.rows, s.jobs[tid]) && s.jobs[tid].req.Approve? && s.jobs[tid].pc.MarkExecuting?
    ensures StartsPlan(s, Locking(cfg, s, tid, s.jobs[tid], o))
  {
  }

  lemma DoStandsAfter(cfg: Config, s: State, tid: Tid, o: Oracle, k: nat)
    requires tid in s.jobs && Fits(s.jobs[tid].req, s.jobs[tid].pc)
    requires k < |s.log| && s.log[k].Entered? && s.log[k].tid == tid && TrailOk(s, k) && Get(s.log[k].plan, "steps").Arr?
    ensures StandsAfter(Do(cfg, s, tid, s.jobs[tid], o), Replay(s.log, tid, Steps(s.log[k].plan)), s.log[k].plan)
  {
    DoStands(cfg, s, tid, s.jobs[tid], o, Replay(s.log, tid, Steps(s.log[k].plan)), s.log[k].plan);
  }

  lemma TrailsStand(cfg: Config, s: State, tid: Tid, o: Oracle)
    requires LockInv(s) && HistoryInv(s) && FrozenInv(cfg, s) && PlanInv(s) && tid in s.jobs
    ensures forall k :: 0 <= k < |s.log| && s.log[k].Entered? && s.log[k].tid == tid && IsPlanRow(s.db.rows, s.log[k].pid) ==>
              StandsAfter(Do(cfg, s, tid, s.jobs[tid], o), Replay(s.log, tid, Steps(s.log[k].plan)), s.log[k].plan)
  {
    forall k | 0 <= k < |s.log| && s.log[k].Entered? && s.log[k].tid == tid && IsPlanRow(s.db.rows, s.log[k].pid)
      ensures StandsAfter(Do(cfg, s, tid, s.jobs[tid], o), Replay(s.log, tid, Steps(s.log[k].plan)), s.log[k].plan)
    {
      FrozenStepsArray(cfg, s, k);
      DoStandsAfter(cfg, s, tid, o, k);
    }
  }

  lemma EntriesKnown(s: State)
    requires HistoryInv(s)
    ensures forall k :: 0 <= k < |s.log| && s.log[k].Entered? ==> s.log[k].pid in s.db.rows
  {
    forall k | 0 <= k < |s.log| && s.log[k].Entered? ensures s.log[k].pid in s.db.rows {
      assert Touches(s.log[k], s.log[k].pid);
    }
  }

  lemma PlainOrStarts(cfg: Config, s: State, tid: Tid, j: Job, o: Oracle)
    requires tid in s.jobs && j == s.jobs[tid] && Fits(j.req, j.pc) && Shape(j) && CopyOk(s.db.rows, j)
    requires LogStep(s, tid, j, Do(cfg, s, tid, j, o))
    ensures var a := Do(cfg, s, tid, j, o); StartsPlan(s, a) && PlainStep(a)
  {
    if StillToEnter(j.pc) && !j.pc.MarkExecuting? { PlainSteps(cfg, s, tid, j, o); }
    if j.pc.MarkExecuting? { EntryStarts(cfg, s, tid, o); }
  }

  lemma CollectPlanStep(cfg: Config, s: State, tid: Tid, a: Act)
    requires tid in s.jobs && FullStep(s, tid, a) && KeepsFrozen(cfg, s, a) && StartsPlan(s, a) && PlainStep(a)
    requires Known(s.jobs[tid].pc) ==> PidOf(s.jobs[tid].req) in s.db.rows
    requires forall k :: 0 <= k < |s.log| && s.log[k].Entered? ==> s.log[k].pid in s.db.rows
    requires forall k :: 0 <= k < |s.log| && s.log[k].Entered? && s.log[k].tid == tid && IsPlanRow(s.db.rows, s.log[k].pid) ==>
               StandsAfter(a, Replay(s.log, tid, Steps(s.log[k].plan)), s.log[k].plan)
    ensures PlanStep(s, tid, a)
  {
    if |a.events| == 1 { assert EventOk(s, tid, s.jobs[tid], a.events[0]); }
  }

  lemma DoPlanStep(cfg: Config, s: State, tid: Tid, o: Oracle)
    requires LockInv(s) && HistoryInv(s) && FrozenInv(cfg, s) && PlanInv(s) && tid in s.jobs
    ensures PlanStep(s, tid, Do(cfg, s, tid, s.jobs[tid], o))
  {
    assert JobHistory(s, tid);
    GoFullStep(cfg, s, tid, o);
    DoKeeps(cfg, s, tid, s.jobs[tid], o);
    PlainOrStarts(cfg, s, tid, s.jobs[tid], o);
    TrailsStand(cfg, s, tid, o);
    EntriesKnown(s);
    CollectPlanStep(cfg, s, tid, Do(cfg, s, tid, s.jobs[tid], o));
  }

  lemma StandsNotBad(s: State, k: nat)
    requires k < |s.log| && s.log[k].Entered? && TrailOk(s, k)
    ensures Replay(s.log, s.log[k].tid, Steps(s.log[k].plan)) != Bad
  {
  }

  lemma PlanFrame(s: State, r: State)
    requires HistoryInv(s) && PlanInv(s) && Frame(s, r)
    ensures PlanInv(r)
  {
    forall t | t in r.jobs && StillToEnter(r.jobs[t].pc) ensures Plain(r.log, t) { }
    forall k | 0 <= k < |r.log| && r.log[k].Entered? && IsPlanRow(r.db.rows, r.log[k].pid) ensures TrailOk(r, k) {
      assert TrailOk(s, k);
      StandsNotBad(s, k);
    }
  }

  lemma PlanNext(cfg: Config, s: State, c: Choice)
    requires LockInv(s) && HistoryInv(s) && FrozenInv(cfg, s) && PlanInv(s)
    ensures PlanInv(Next(cfg, s, c))
  {
    if Enabled(s, c) {
      NextApply(cfg, s, c);
      DoPlanStep(cfg, s, c.tid, c.o);
      PlanGo(s, c.tid, Do(cfg, s, c.tid, s.jobs[c.tid], c.o));
    } else {
      NextFrame(cfg, s, c);
      PlanFrame(s, Next(cfg, s, c));
    }
  }

  lemma {:induction false} PlanRun(cfg: Config, s: State, cs: seq<Choice>)
    requires Initial(s)
    ensures PlanInv(Run(cfg, s, cs))
  {
    if cs == [] {
    } else {
      PlanRun(cfg, s, cs[..|cs| - 1]);
      FrozenRun(cfg, s, cs[..|cs| - 1]);
      PlanNext(cfg, Run(cfg, s, cs[..|cs| - 1]), cs[|cs| - 1]);
    }
  }

  /** Over every run, with threads, crashes and edited plan columns: the calls an execution of a plan has made are a
      prefix of the executed steps in order, every call before the last returned 0, no two calls are open at once,
      and once a result is committed it is SUCCEEDED exactly when every step was called and every call returned 0. */
  lemma PlanCallsArePrefix(cfg: Config, s: State, cs: seq<Choice>, k: nat)
    requires Initial(s) && k < |Run(cfg, s, cs).log| && Run(cfg, s, cs).log[k].Entered?
    requires IsPlanRow(Run(cfg, s, cs).db.rows, Run(cfg, s, cs).log[k].pid)
    ensures var log := Run(cfg, s, cs).log;
            var t, steps := log[k].tid, Steps(log[k].plan);
            var calls, rcs := CallsOf(log, t), ReturnsOf(log, t);
            && calls <= steps && |rcs| <= |calls| <= |rcs| + 1
            && (AllZero(rcs) || (AllZeroButLast(rcs) && |calls| == |rcs|))
            && (EndedAs(log, t, SUCCEEDED) ==> Complete(calls, rcs, steps))
            && (Concluded(log, t, k) ==> (EndedAs(log, t, SUCCEEDED) <==> Complete(calls, rcs, steps)))
  {
    var log := Run(cfg, s, cs).log;
    var t, steps := log[k].tid, Steps(log[k].plan);
    PlanRun(cfg, s, cs);
    StandsNotBad(Run(cfg, s, cs), k);
    ReplayMatches(log, t, steps);
    ReplayEnds(log, t, steps);
    if Concluded(log, t, k) {
      var i :| k < i < |log| && log[i].tid == t && log[i].Ended? && (log[i].status == SUCCEEDED || log[i].status == FAILED);
      ReplayConcluded(log, t, steps, k, i);
    }
  }

  /** The executed steps are, one by one, what the proposal was frozen with. */
  lemma ExecutedStepsAreFrozen(cfg: Config, s: State, cs: seq<Choice>, k: nat, i: nat)
    requires Initial(s) && k < |Run(cfg, s, cs).log| && Run(cfg, s, cs).log[k].Entered?
    requires IsPlanRow(Run(cfg, s, cs).db.rows, Run(cfg, s, cs).log[k].pid)
    ensures var r := Run(cfg, s, cs);
            && r.log[k].pid in r.births
            && var executed, frozen := Steps(r.log[k].plan), Steps(r.births[r.log[k].pid].plan);
               |executed| == |frozen| && (i < |executed| ==> Mean(executed[i]) == Mean(frozen[i]))
  {
    FrozenRun(cfg, s, cs);
    var r := Run(cfg, s, cs);
    FrozenStepsArray(cfg, r, k);
    MeansAt(Steps(r.log[k].plan), Steps(r.births[r.log[k].pid].plan), i);
  }

  /** The risk folded over a plan's steps is the highest of theirs, and LOW for none. */
  lemma {:induction false} FoldRiskIsMaximum(cs: seq<Checked>)
    ensures forall i :: 0 <= i < |cs| ==> Order(cs[i].op.risk) <= Order(FoldRisk(cs))
    ensures FoldRisk(cs) == LOW || exists i :: 0 <= i < |cs| && cs[i].op.risk == FoldRisk(cs)
  {
    if cs == [] {
    } else {
      var init := cs[..|cs| - 1];
      FoldRiskIsMaximum(init);
      if FoldRisk(cs) != LOW && FoldRisk(cs) != cs[|cs| - 1].op.risk {
        var i :| 0 <= i < |init| && init[i].op.risk == FoldRisk(init);
        assert cs[i].op.risk == FoldRisk(cs);
      }
    }
  }
}
