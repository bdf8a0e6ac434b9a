/** Before each adapter call: what is checked, written out. Over every run a call is made exactly after those checks, and
    what is called is what was requested. */
module Clearance {
  import opened Options
  import opened JsonText
  import opened JsonProofs
  import opened Registry
  import opened Lifecycle
  import opened Threads
  import opened FrozenContent
  import opened Plans
  import opened Requests
  import opened Origins

  // ----- drift on a host -----

  /** The first of status, activity and node that was stored is observed unchanged; what was stored as existing or not must
      exist now. */
  predicate Undrifted(stored: Json, observed: Json) {
    if Has(stored, "status") then Get(observed, "status") == Get(stored, "status")
    else if Has(stored, "active") then Get(observed, "active") == Get(stored, "active")
    else if Has(stored, "node") then Get(observed, "node") == Get(stored, "node")
    else Has(stored, "exists") ==> Get(observed, "exists") == Bool(true)
  }

  lemma HoldsOnHost(adapter: string, stored: Json, observed: Json)
    requires adapter != "mock"
    ensures Lifecycle.Holds(adapter, stored, observed) <==> Undrifted(stored, observed)
  {
  }

  lemma FirstField(a: Member, rest: seq<Member>, q: string)
    ensures Has(Obj([a] + rest), q) <==> a.key == q || Has(Obj(rest), q)
    ensures Get(Obj([a] + rest), q) == if a.key == q then a.value else Get(Obj(rest), q)
  {
    assert ([a] + rest)[1..] == rest;
  }

  lemma NoField(q: string)
    ensures !Has(Obj([]), q)
  {
  }

  /** A guest has kept its status. */
  lemma GuestUndrifted(id: string, status: string, observed: Json)
    ensures Undrifted(Obj([Member("vmid", Str(id)), Member("status", Str(status))]), observed) <==>
              Get(observed, "status") == Str(status)
  {
    var a, b := Member("vmid", Str(id)), Member("status", Str(status));
    assert [a, b] == [a] + [b] && [b] == [b] + [];
    FirstField(a, [b], "status");
    FirstField(b, [], "status");
  }

  /** A unit has kept its activity. */
  lemma UnitUndrifted(unit: string, active: bool, observed: Json)
    ensures Undrifted(Obj([Member("unit", Str(unit)), Member("active", Bool(active))]), observed) <==>
              Get(observed, "active") == Bool(active)
  {
    var a, b := Member("unit", Str(unit)), Member("active", Bool(active));
    assert [a, b] == [a] + [b] && [b] == [b] + [];
    FirstField(a, [b], "status"); FirstField(b, [], "status"); NoField("status");
    FirstField(a, [b], "active"); FirstField(b, [], "active");
  }

  /** A pool exists now, whatever was stored. */
  lemma PoolUndrifted(pool: string, existed: bool, scrub: bool, observed: Json)
    ensures var stored := Obj([Member("pool", Str(pool)), Member("exists", Bool(existed)), Member("scrub", Bool(scrub))]);
            Undrifted(stored, observed) <==> Get(observed, "exists") == Bool(true)
  {
    var a, b, c := Member("pool", Str(pool)), Member("exists", Bool(existed)), Member("scrub", Bool(scrub));
    assert [a, b, c] == [a] + [b, c] && [b, c] == [b] + [c] && [c] == [c] + [];
    forall q | q == "status" || q == "active" || q == "node" ensures !Has(Obj([a, b, c]), q) {
      FirstField(a, [b, c], q); FirstField(b, [c], q); FirstField(c, [], q); NoField(q);
    }
    FirstField(a, [b, c], "exists"); FirstField(b, [c], "exists");
  }

  // ----- the checks before a call -----

  /** A single operation: its adapter is there, and the mock adapter's counter or the host's answer is as it was stored. */
  predicate SingleClear(cfg: Config, mock: int, f: Frozen, observed: Option<Json>) {
    && f.adapter in cfg.adapters
    && if f.adapter == "mock" then Get(f.preState, "counter") == Int(mock)
       else observed.Some? && Undrifted(f.preState, observed.value)
  }

  /** A step: its target is in the inventory, this client's, and is the one called; its adapter is there and has the
      operation; its precheck answers. */
  predicate StepClear(cfg: Config, inv: map<string, Target>, step: Json, t: Target, answers: bool) {
    var id, adapter, operation := Text(Get(step, "target_id")), Text(Get(step, "adapter")), Text(Get(step, "operation"));
    && id in inv && t == inv[id] && t.clientId == cfg.client.clientId && adapter in cfg.adapters
    && GetOperation(operation).Some? && GetOperation(operation).value.adapter == adapter && answers
  }

  /** Handler tid stands right before the call, and every check of it passes. */
  predicate Cleared(cfg: Config, m: State, tid: Tid, o: Oracle, p: Proposal, t: Target, w: Where) {
    && tid in m.jobs && m.jobs[tid].req.Approve?
    && match w
       case Single => m.jobs[tid].pc == Precheck(p, t) && p.row.frozen.operation != "script.run"
                      && SingleClear(cfg, m.mock, p.row.frozen, o.observed)
       case Script => m.jobs[tid].pc == Precheck(p, t) && p.row.frozen.operation == "script.run"
                      && p.row.frozen.adapter in cfg.adapters && Has(p.plan, "script") && o.ok
       case Nth(i) => m.jobs[tid].pc == Step(p, i) && i < |Steps(p.plan)|
                      && StepClear(cfg, m.db.inventory, Steps(p.plan)[i], t, o.ok)
  }

  lemma CounterIs(stored: Json, mock: int, t: Target)
    ensures Lifecycle.Holds("mock", stored, MockState(mock, t)) <==> Get(stored, "counter") == Int(mock)
  {
    FindAt(MockState(mock, t).members, 0);
  }

  lemma PrecheckClears(cfg: Config, m: State, tid: Tid, o: Oracle, j: Job, p: Proposal, t: Target, w: Where)
    requires tid in m.jobs && j == m.jobs[tid] && j.req.Approve? && j.pc.Precheck?
    ensures Executing(cfg, m, tid, j, o).pc == Some(Call(p, t, w)) <==> Cleared(cfg, m, tid, o, p, t, w)
  {
    var f, u := j.pc.p.row.frozen, j.pc.t;
    if f.adapter == "mock" { CounterIs(f.preState, m.mock, u); }
    else if o.observed.Some? { HoldsOnHost(f.adapter, f.preState, o.observed.value); }
  }

  lemma StepClears(cfg: Config, m: State, tid: Tid, o: Oracle, j: Job, p: Proposal, t: Target, w: Where)
    requires tid in m.jobs && j == m.jobs[tid] && j.req.Approve? && j.pc.Step?
    ensures Executing(cfg, m, tid, j, o).pc == Some(Call(p, t, w)) <==> Cleared(cfg, m, tid, o, p, t, w)
  {
  }

  predicate NoCall(a: Act) { a.pc.Some? ==> !a.pc.value.Call? }

  lemma OpeningNoCall(cfg: Config, m: State, tid: Tid, o: Oracle, j: Job)
    requires j.req.Approve?
    ensures NoCall(Opening(cfg, m, tid, j, o))
  {
  }

  lemma LockingNoCall(cfg: Config, m: State, tid: Tid, o: Oracle, j: Job)
    requires j.req.Approve?
    ensures NoCall(Locking(cfg, m, tid, j, o))
  {
  }

  lemma RestNoCall(cfg: Config, m: State, tid: Tid, o: Oracle, j: Job)
    requires j.req.Approve?
    ensures NoCall(ExpireAct(m, tid, j)) && NoCall(Ending(m, tid, j))
    ensures j.pc.Call? || j.pc.Returning? ==> NoCall(Executing(cfg, m, tid, j, o))
  {
  }

  /** Every other step of an approval leads to no call. */
  lemma ElsewhereNoCall(cfg: Config, m: State, tid: Tid, o: Oracle, j: Job)
    requires j.req.Approve? && Fits(j.req, j.pc) && !j.pc.Precheck? && !j.pc.Step?
    ensures NoCall(Do(cfg, m, tid, j, o))
  {
    OpeningNoCall(cfg, m, tid, o, j);
    LockingNoCall(cfg, m, tid, o, j);
    RestNoCall(cfg, m, tid, o, j);
  }

  lemma DoClears(cfg: Config, m: State, tid: Tid, o: Oracle, j: Job, p: Proposal, t: Target, w: Where)
    requires tid in m.jobs && j == m.jobs[tid] && j.req.Approve? && Fits(j.req, j.pc)
    ensures Do(cfg, m, tid, j, o).pc == Some(Call(p, t, w)) <==> Cleared(cfg, m, tid, o, p, t, w)
  {
    if j.pc.Precheck? { PrecheckClears(cfg, m, tid, o, j, p, t, w); }
    else if j.pc.Step? { StepClears(cfg, m, tid, o, j, p, t, w); }
    else { ElsewhereNoCall(cfg, m, tid, o, j); }
  }

  predicate StandsAt(s: State, tid: Tid, pc: Pc) { tid in s.jobs && s.jobs[tid].pc == pc }

  /** From any state: a step takes an approval to a call exactly when every check before that call passes. */
  lemma ClearedExactly(cfg: Config, m: State, tid: Tid, o: Oracle, p: Proposal, t: Target, w: Where)
    requires LockInv(m) && tid in m.jobs && m.jobs[tid].req.Approve? && DictAnswer(o)
    ensures StandsAt(Next(cfg, m, Go(tid, o)), tid, Call(p, t, w)) <==> Cleared(cfg, m, tid, o, p, t, w)
  {
    DoClears(cfg, m, tid, o, m.jobs[tid], p, t, w);
  }

  lemma CallsNext(cfg: Config, n: State, tid: Tid, o: Oracle)
    requires tid in n.jobs && n.jobs[tid].req.Approve? && DictAnswer(o)
    ensures n.jobs[tid].pc.Call? ==>
              Next(cfg, n, Go(tid, o)).log
                == n.log + [Called(tid, n.jobs[tid].req.pid, n.jobs[tid].pc.w, What(n.jobs[tid].pc.p, n.jobs[tid].pc.w))]
    ensures n.jobs[tid].pc == Finish(1) ==> Next(cfg, n, Go(tid, o)).log == n.log + [Ended(tid, n.jobs[tid].req.pid, FAILED)]
  {
  }

  /** And the next step makes it: an approval at the precheck of a host operation logs its call if and only if the host's
      answer is undrifted and the adapter is there. */
  lemma HostCallMade(cfg: Config, m: State, tid: Tid, o: Oracle, o': Oracle, p: Proposal, t: Target)
    requires LockInv(m) && StandsAt(m, tid, Precheck(p, t)) && m.jobs[tid].req.Approve? && DictAnswer(o) && DictAnswer(o')
    requires p.row.frozen.adapter != "mock" && p.row.frozen.operation != "script.run"
    ensures var r := Next(cfg, Next(cfg, m, Go(tid, o)), Go(tid, o'));
            var clear := && p.row.frozen.adapter in cfg.adapters && o.observed.Some?
                         && Undrifted(p.row.frozen.preState, o.observed.value);
            var what := Obj([Member("adapter", Str(p.row.frozen.adapter)), Member("operation", Str(p.row.frozen.operation)),
                             Member("parameters", p.row.frozen.parameters)]);
            r.log == m.log + [if clear then Called(tid, m.jobs[tid].req.pid, Single, what)
                              else Ended(tid, m.jobs[tid].req.pid, FAILED)]
  {
    var n := Next(cfg, m, Go(tid, o));
    ClearedExactly(cfg, m, tid, o, p, t, Single);
    if o.observed.Some? { HoldsOnHost(p.row.frozen.adapter, p.row.frozen.preState, o.observed.value); }
    assert n.log == m.log;
    CallsNext(cfg, n, tid, o');
  }

  // ----- every run -----

  /** At choice i handler tid stood before this call, and its checks passed. */
  ghost predicate ClearedAt(cfg: Config, s: State, cs: seq<Choice>, tid: Tid, p: Proposal, t: Target, w: Where, i: nat) {
    i < |cs| && cs[i].Go? && cs[i].tid == tid && Cleared(cfg, StateAt(cfg, s, cs, i), tid, cs[i].o, p, t, w)
  }

  ghost predicate JobCleared(cfg: Config, s: State, cs: seq<Choice>, tid: Tid, pc: Pc) {
    pc.Call? ==> exists i: nat :: ClearedAt(cfg, s, cs, tid, pc.p, pc.t, pc.w, i)
  }

  /** A plan is stepped through, a script is run, anything else is one operation. */
  predicate RightWay(operation: string, w: Where) {
    match w
    case Single => operation != "plan.run" && operation != "script.run"
    case Script => operation == "script.run"
    case Nth(_) => operation == "plan.run"
  }

  predicate KindOk(pc: Pc) {
    match pc
    case Precheck(p, _) => p.row.frozen.operation != "plan.run"
    case Step(p, _) => p.row.frozen.operation == "plan.run"
    case Call(p, _, w) => RightWay(p.row.frozen.operation, w)
    case Returning(p, _, w, _) => RightWay(p.row.frozen.operation, w)
    case _ => true
  }

  datatype Clearing = Clearing(p: Proposal, t: Target, i: nat)

  /** The call at k of the log comes from the checks of choice i, made before, with a copy of its row whose plan means the
      one the row was born with. */
  ghost predicate CallFrom(cfg: Config, s: State, cs: seq<Choice>, rows: map<Pid, Row>, births: map<Pid, Birth>,
                           e: Event, k: nat, c: Clearing)
  {
    && e.Called? && ClearedAt(cfg, s, cs, e.tid, c.p, c.t, e.w, c.i) && |StateAt(cfg, s, cs, c.i).log| <= k
    && RightWay(c.p.row.frozen.operation, e.w)
    && e.pid in rows && e.pid in births && c.p.row.frozen == rows[e.pid].frozen
    && IsDict(c.p.plan) && Mean(c.p.plan) == Mean(births[e.pid].plan) && e.what == What(c.p, e.w)
  }

  ghost predicate EventCleared(cfg: Config, s: State, cs: seq<Choice>, rows: map<Pid, Row>, births: map<Pid, Birth>,
                               e: Event, k: nat)
  {
    e.Called? ==> exists c: Clearing :: CallFrom(cfg, s, cs, rows, births, e, k, c)
  }

  lemma StillCleared(cfg: Config, s: State, cs: seq<Choice>, c: Choice, tid: Tid, p: Proposal, t: Target, w: Where, i: nat)
    requires ClearedAt(cfg, s, cs, tid, p, t, w, i)
    ensures ClearedAt(cfg, s, cs + [c], tid, p, t, w, i)
  {
    Earlier(cfg, s, cs, c, i);
  }

  lemma StillJobCleared(cfg: Config, s: State, cs: seq<Choice>, c: Choice, tid: Tid, pc: Pc)
    requires JobCleared(cfg, s, cs, tid, pc)
    ensures JobCleared(cfg, s, cs + [c], tid, pc)
  {
    if pc.Call? {
      var i: nat :| ClearedAt(cfg, s, cs, tid, pc.p, pc.t, pc.w, i);
      StillCleared(cfg, s, cs, c, tid, pc.p, pc.t, pc.w, i);
    }
  }

  lemma StillEventCleared(cfg: Config, s: State, cs: seq<Choice>, c: Choice, m: State, r: State, e: Event, k: nat)
    requires EventCleared(cfg, s, cs, m.db.rows, m.births, e, k) && Undisturbed(m, r)
    ensures EventCleared(cfg, s, cs + [c], r.db.rows, r.births, e, k)
  {
    if e.Called? {
      var q: Clearing :| CallFrom(cfg, s, cs, m.db.rows, m.births, e, k, q);
      StillCleared(cfg, s, cs, c, e.tid, q.p, q.t, e.w, q.i);
      Earlier(cfg, s, cs, c, q.i);
      assert CallFrom(cfg, s, cs + [c], r.db.rows, r.births, e, k, q);
    }
  }

  predicate NextKind(a: Act) { a.pc.Some? ==> KindOk(a.pc.value) }

  lemma LockingKind(cfg: Config, m: State, tid: Tid, o: Oracle, j: Job)
    requires j.req.Approve?
    ensures NextKind(Locking(cfg, m, tid, j, o))
  {
  }

  lemma ExecutingKind(cfg: Config, m: State, tid: Tid, o: Oracle, j: Job)
    requires j.req.Approve? && KindOk(j.pc)
    ensures NextKind(Executing(cfg, m, tid, j, o))
  {
  }

  lemma RestKind(cfg: Config, m: State, tid: Tid, o: Oracle, j: Job)
    requires j.req.Approve?
    ensures NextKind(Opening(cfg, m, tid, j, o)) && NextKind(Ending(m, tid, j))
  {
  }

  lemma OthersKind(cfg: Config, m: State, tid: Tid, o: Oracle, j: Job)
    requires Fits(j.req, j.pc) && (!j.req.Approve? || j.pc.Expire?)
    ensures NextKind(Do(cfg, m, tid, j, o)) && NoCall(Do(cfg, m, tid, j, o))
  {
    if Proposes(j.req) && !j.pc.Expire? { ProposingQuiet(cfg, m, j, o); }
  }

  lemma DoKind(cfg: Config, m: State, tid: Tid, o: Oracle, j: Job)
    requires Fits(j.req, j.pc) && KindOk(j.pc)
    ensures NextKind(Do(cfg, m, tid, j, o))
  {
    if !j.req.Approve? || j.pc.Expire? { OthersKind(cfg, m, tid, o, j); }
    else {
      LockingKind(cfg, m, tid, o, j);
      ExecutingKind(cfg, m, tid, o, j);
      RestKind(cfg, m, tid, o, j);
    }
  }

  /** What is logged as a call is the call the handler stood at. */
  predicate LogsCalls(tid: Tid, j: Job, a: Act) {
    forall e :: e in a.events && e.Called? ==>
      j.req.Approve? && j.pc.Call? && e == Called(tid, j.req.pid, j.pc.w, What(j.pc.p, j.pc.w))
  }

  lemma ApproveLogs(cfg: Config, m: State, tid: Tid, o: Oracle, j: Job)
    requires j.req.Approve?
    ensures LogsCalls(tid, j, Opening(cfg, m, tid, j, o)) && LogsCalls(tid, j, Locking(cfg, m, tid, j, o))
    ensures LogsCalls(tid, j, Executing(cfg, m, tid, j, o)) && LogsCalls(tid, j, Ending(m, tid, j))
  {
  }

  lemma DoLogs(cfg: Config, m: State, tid: Tid, o: Oracle, j: Job)
    requires Fits(j.req, j.pc)
    ensures LogsCalls(tid, j, Do(cfg, m, tid, j, o))
  {
    if j.req.Approve? && !j.pc.Expire? { ApproveLogs(cfg, m, tid, o, j); }
    else if Proposes(j.req) && !j.pc.Expire? { ProposingQuiet(cfg, m, j, o); }
  }

  ghost predicate JobsCleared(cfg: Config, s: State, cs: seq<Choice>, r: State) {
    forall t :: t in r.jobs ==> JobCleared(cfg, s, cs, t, r.jobs[t].pc) && KindOk(r.jobs[t].pc)
  }

  ghost predicate LogCleared(cfg: Config, s: State, cs: seq<Choice>, r: State) {
    forall k :: 0 <= k < |r.log| ==> EventCleared(cfg, s, cs, r.db.rows, r.births, r.log[k], k)
  }

  ghost predicate ClearInv(cfg: Config, s: State, cs: seq<Choice>, r: State) {
    r == Run(cfg, s, cs) && JobsCleared(cfg, s, cs, r) && LogCleared(cfg, s, cs, r)
  }

  lemma NewCallClears(cfg: Config, s: State, cs: seq<Choice>, m: State, c: Choice)
    requires m == Run(cfg, s, cs) && LockInv(m) && Enabled(m, c)
    ensures var a := Do(cfg, m, c.tid, m.jobs[c.tid], c.o); a.pc.Some? ==> JobCleared(cfg, s, cs + [c], c.tid, a.pc.value)
  {
    var j := m.jobs[c.tid];
    var a := Do(cfg, m, c.tid, j, c.o);
    NowIs(cfg, s, cs, c);
    if !j.req.Approve? { OthersKind(cfg, m, c.tid, c.o, j); }
    else if a.pc.Some? && a.pc.value.Call? {
      var pc := a.pc.value;
      DoClears(cfg, m, c.tid, c.o, j, pc.p, pc.t, pc.w);
      assert ClearedAt(cfg, s, cs + [c], c.tid, pc.p, pc.t, pc.w, |cs|);
    }
  }

  lemma JobsClearedGo(cfg: Config, s: State, cs: seq<Choice>, m: State, c: Choice, a: Act)
    requires JobsCleared(cfg, s, cs, m) && c.Go? && c.tid in m.jobs && NextKind(a)
    requires a.pc.Some? ==> JobCleared(cfg, s, cs + [c], c.tid, a.pc.value)
    ensures JobsCleared(cfg, s, cs + [c], Apply(m, c.tid, a))
  {
    var r := Apply(m, c.tid, a);
    forall t | t in r.jobs ensures JobCleared(cfg, s, cs + [c], t, r.jobs[t].pc) && KindOk(r.jobs[t].pc) {
      if t != c.tid { StillJobCleared(cfg, s, cs, c, t, m.jobs[t].pc); }
    }
  }

  lemma LogGrowsBy(cfg: Config, m: State, c: Choice)
    ensures |m.log| <= |Next(cfg, m, c).log|
  {
    if !Enabled(m, c) { NextFrame(cfg, m, c); } else { NextApply(cfg, m, c); }
  }

  lemma {:induction false} LogLonger(cfg: Config, s: State, cs: seq<Choice>, i: nat)
    requires i <= |cs|
    ensures |StateAt(cfg, s, cs, i).log| <= |Run(cfg, s, cs).log|
  {
    if i == |cs| {
      assert cs[..i] == cs;
    } else {
      var init := cs[..|cs| - 1];
      LogLonger(cfg, s, init, i);
      assert init[..i] == cs[..i];
      LogGrowsBy(cfg, Run(cfg, s, init), cs[|cs| - 1]);
    }
  }

  /** The call a handler stands at, logged now, comes from the checks that took it there. */
  lemma LoggedFrom(cfg: Config, s: State, cs: seq<Choice>, m: State, t: Tid, e: Event)
    requires m == Run(cfg, s, cs) && FrozenInv(cfg, m) && JobsCleared(cfg, s, cs, m)
    requires t in m.jobs && m.jobs[t].req.Approve? && m.jobs[t].pc.Call?
    requires e == Called(t, m.jobs[t].req.pid, m.jobs[t].pc.w, What(m.jobs[t].pc.p, m.jobs[t].pc.w))
    ensures EventCleared(cfg, s, cs, m.db.rows, m.births, e, |m.log|)
  {
    var pc := m.jobs[t].pc;
    HeldFacts(cfg, m, t);
    assert CopyOk(m.db.rows, m.jobs[t]);
    SameHashSameMeaning(pc.p, m.births[e.pid].plan);
    var i: nat :| ClearedAt(cfg, s, cs, t, pc.p, pc.t, pc.w, i);
    LogLonger(cfg, s, cs, i);
    assert CallFrom(cfg, s, cs, m.db.rows, m.births, e, |m.log|, Clearing(pc.p, pc.t, i));
  }

  lemma NewEventCleared(cfg: Config, s: State, cs: seq<Choice>, m: State, t: Tid, a: Act, e: Event, k: nat)
    requires m == Run(cfg, s, cs) && FrozenInv(cfg, m) && JobsCleared(cfg, s, cs, m) && t in m.jobs
    requires LogsCalls(t, m.jobs[t], a) && |a.events| == 1 && e == a.events[0] && k == |m.log|
    ensures EventCleared(cfg, s, cs, m.db.rows, m.births, e, k)
  {
    if e.Called? {
      assert e in a.events;
      LoggedFrom(cfg, s, cs, m, t, e);
    }
  }

  lemma LogClearedGo(cfg: Config, s: State, cs: seq<Choice>, m: State, c: Choice, a: Act)
    requires m == Run(cfg, s, cs) && FrozenInv(cfg, m) && JobsCleared(cfg, s, cs, m) && LogCleared(cfg, s, cs, m)
    requires |a.events| <= 1
    requires c.Go? && c.tid in m.jobs && LogsCalls(c.tid, m.jobs[c.tid], a) && Undisturbed(m, Apply(m, c.tid, a))
    ensures LogCleared(cfg, s, cs + [c], Apply(m, c.tid, a))
  {
    var r := Apply(m, c.tid, a);
    forall k | 0 <= k < |r.log| ensures EventCleared(cfg, s, cs + [c], r.db.rows, r.births, r.log[k], k) {
      if k < |m.log| {
        assert r.log[k] == m.log[k];
      } else {
        NewEventCleared(cfg, s, cs, m, c.tid, a, r.log[k], k);
      }
      StillEventCleared(cfg, s, cs, c, m, r, r.log[k], k);
    }
  }

  lemma ClearFrame(cfg: Config, s: State, cs: seq<Choice>, m: State, c: Choice)
    requires ClearInv(cfg, s, cs, m) && FrozenInv(cfg, m) && !Enabled(m, c)
    ensures ClearInv(cfg, s, cs + [c], Next(cfg, m, c))
  {
    var r := Next(cfg, m, c);
    NowIs(cfg, s, cs, c);
    NextFrame(cfg, m, c);
    FrozenFrame(cfg, m, r);
    forall t | t in r.jobs ensures JobCleared(cfg, s, cs + [c], t, r.jobs[t].pc) && KindOk(r.jobs[t].pc) {
      if t in m.jobs && r.jobs[t] == m.jobs[t] { StillJobCleared(cfg, s, cs, c, t, m.jobs[t].pc); }
    }
    forall k | 0 <= k < |r.log| ensures EventCleared(cfg, s, cs + [c], r.db.rows, r.births, r.log[k], k) {
      StillEventCleared(cfg, s, cs, c, m, r, r.log[k], k);
    }
  }

  lemma ClearGo(cfg: Config, s: State, cs: seq<Choice>, m: State, c: Choice)
    requires ClearInv(cfg, s, cs, m) && LockInv(m) && HistoryInv(m) && FrozenInv(cfg, m) && Enabled(m, c)
    ensures ClearInv(cfg, s, cs + [c], Next(cfg, m, c))
  {
    var a := Do(cfg, m, c.tid, m.jobs[c.tid], c.o);
    NowIs(cfg, s, cs, c);
    NextApply(cfg, m, c);
    GoFullStep(cfg, m, c.tid, c.o);
    FrozenGo(cfg, m, c.tid, c.o);
    DoKind(cfg, m, c.tid, c.o, m.jobs[c.tid]);
    DoLogs(cfg, m, c.tid, c.o, m.jobs[c.tid]);
    NewCallClears(cfg, s, cs, m, c);
    JobsClearedGo(cfg, s, cs, m, c, a);
    LogClearedGo(cfg, s, cs, m, c, a);
  }

  lemma ClearNext(cfg: Config, s: State, cs: seq<Choice>, m: State, c: Choice)
    requires ClearInv(cfg, s, cs, m) && LockInv(m) && HistoryInv(m) && FrozenInv(cfg, m)
    ensures ClearInv(cfg, s, cs + [c], Next(cfg, m, c))
  {
    if Enabled(m, c) { ClearGo(cfg, s, cs, m, c); } else { ClearFrame(cfg, s, cs, m, c); }
  }

  lemma {:induction false} ClearRun(cfg: Config, s: State, cs: seq<Choice>)
    requires Initial(s)
    ensures ClearInv(cfg, s, cs, Run(cfg, s, cs))
  {
    if cs == [] {
    } else {
      var init, c := cs[..|cs| - 1], cs[|cs| - 1];
      var m := Run(cfg, s, init);
      ClearRun(cfg, s, init);
      FrozenRun(cfg, s, init);
      ClearNext(cfg, s, init, m, c);
      assert init + [c] == cs;
    }
  }

  // ----- the theorems -----

  /** Over every run: each call was made by a handler whose checks for exactly this call passed at some choice before, on the
      row as it was frozen. */
  lemma CalledOnlyWhenClear(cfg: Config, s: State, cs: seq<Choice>, k: nat) returns (i: nat, p: Proposal, t: Target)
    requires Initial(s) && k < |Run(cfg, s, cs).log| && Run(cfg, s, cs).log[k].Called?
    ensures var r, e := Run(cfg, s, cs), Run(cfg, s, cs).log[k];
            && i < |cs| && cs[i].Go? && cs[i].tid == e.tid && |StateAt(cfg, s, cs, i).log| <= k
            && Cleared(cfg, StateAt(cfg, s, cs, i), e.tid, cs[i].o, p, t, e.w)
            && e.pid in r.db.rows && p.row.frozen == r.db.rows[e.pid].frozen && RightWay(p.row.frozen.operation, e.w)
  {
    ClearRun(cfg, s, cs);
    var r, e := Run(cfg, s, cs), Run(cfg, s, cs).log[k];
    assert EventCleared(cfg, s, cs, r.db.rows, r.births, e, k);
    var c: Clearing :| CallFrom(cfg, s, cs, r.db.rows, r.births, e, k, c);
    i, p, t := c.i, c.p, c.t;
  }

  /** Over every run: a single operation on a host is called only when the state its own precheck observed agrees with the
      preconditions its proposal was frozen with: in status for a guest, in activity for a unit, and for a pool in that it
      exists. */
  lemma HostCallUndrifted(cfg: Config, s: State, cs: seq<Choice>, k: nat) returns (i: nat)
    requires Initial(s) && k < |Run(cfg, s, cs).log| && Run(cfg, s, cs).log[k].Called? && Run(cfg, s, cs).log[k].w == Single
    requires var r := Run(cfg, s, cs); r.log[k].pid in r.db.rows && r.db.rows[r.log[k].pid].frozen.adapter != "mock"
    ensures var e, births := Run(cfg, s, cs).log[k], Run(cfg, s, cs).births;
            && i < |cs| && cs[i].Go? && cs[i].tid == e.tid && |StateAt(cfg, s, cs, i).log| <= k
            && e.tid in StateAt(cfg, s, cs, i).jobs
            && StateAt(cfg, s, cs, i).jobs[e.tid].pc.Precheck? && cs[i].o.observed.Some? && e.pid in births
            && var stored, seen := Get(births[e.pid].plan, "preconditions"), cs[i].o.observed.value;
               && (Has(stored, "status") ==> Get(seen, "status") == Get(stored, "status"))
               && (!Has(stored, "status") && Has(stored, "active") ==> Get(seen, "active") == Get(stored, "active"))
               && (!Has(stored, "status") && !Has(stored, "active") && Has(stored, "node") ==>
                     Get(seen, "node") == Get(stored, "node"))
               && (!Has(stored, "status") && !Has(stored, "active") && !Has(stored, "node") && Has(stored, "exists") ==>
                     Get(seen, "exists") == Bool(true))
  {
    var p, t;
    i, p, t := CalledOnlyWhenClear(cfg, s, cs, k);
    ColumnsMatchPlan(cfg, s, cs, Run(cfg, s, cs).log[k].pid);
  }

  // ----- what is called is what was requested -----

  lemma {:induction false} ItemDict(items: seq<Json>, i: nat)
    requires AreDicts(items) && i < |items|
    ensures IsDict(items[i])
  {
    if i == 0 {
    } else {
      ItemDict(items[1..], i - 1);
    }
  }

  lemma StepDict(plan: Json, i: nat)
    requires IsDict(plan) && i < |Steps(plan)|
    ensures IsDict(Steps(plan)[i])
  {
    GetDict(plan, "steps");
    ItemDict(Steps(plan), i);
  }

  /** What means a step says what the step says. */
  lemma CallsForSame(name: string, params: Json, t: Target, a: Json, b: Json)
    requires IsDict(a) && IsDict(b) && Mean(a) == Mean(b) && CallsFor(name, params, t, a)
    ensures CallsFor(name, params, t, b)
  {
    SameText(a, b, "adapter"); SameText(a, b, "operation"); SameText(a, b, "executor");
    SameText(a, b, "target_id"); SameText(a, b, "target_name"); SameText(a, b, "target_external_id");
    GetMean(a, b, "parameters");
  }

  lemma StepSame(cfg: Config, inv: map<string, Target>, step: StepRequest, a: Json, b: Json)
    requires IsDict(a) && IsDict(b) && Mean(a) == Mean(b) && StepAsked(cfg, inv, step, a)
    ensures StepAsked(cfg, inv, step, b)
  {
    var t: Target :| Suits(cfg, inv, step.operation, step.target, step.parameters, t)
                     && CallsFor(step.operation, step.parameters, t, a);
    CallsForSame(step.operation, step.parameters, t, a, b);
  }

  /** The call names the operation, with its adapter and parameters that mean what was asked. */
  ghost predicate CallMeans(name: string, params: Json, what: Json) {
    && GetOperation(name).Some? && Get(what, "operation") == Str(name)
    && Get(what, "adapter") == Str(GetOperation(name).value.adapter) && Mean(Get(what, "parameters")) == Mean(params)
  }

  /** The call makes what the request asked for: its operation, the step of its plan that the call counts, its script. */
  ghost predicate CallAsked(cfg: Config, inv: map<string, Target>, req: Request, w: Where, what: Json) {
    match req
    case Propose(_, _, name, _, params) => w == Single && CallMeans(name, params, what)
    case ProposePlan(_, _, steps, _) => w.Nth? && w.i < |steps| && StepAsked(cfg, inv, steps[w.i], what)
    case ProposeScript(_, _, _, _, _, _) => w == Script
    case _ => false
  }

  lemma SingleFields(f: Frozen, what: Json)
    requires what == Obj([Member("adapter", Str(f.adapter)), Member("operation", Str(f.operation)),
                          Member("parameters", f.parameters)])
    ensures Get(what, "adapter") == Str(f.adapter) && Get(what, "operation") == Str(f.operation)
    ensures Get(what, "parameters") == f.parameters
  {
    FindAt(what.members, 0); FindAt(what.members, 1); FindAt(what.members, 2);
  }

  lemma SingleAsked(cfg: Config, inv: map<string, Target>, req: Request, t: Target, p: Proposal, plan: Json, w: Where)
    requires req.Propose? && AskedOf(cfg, inv, req, t, p.row.frozen, plan) && RightWay(p.row.frozen.operation, w)
    ensures CallAsked(cfg, inv, req, w, What(p, w))
  {
    NamesApart(req.operation);
    SingleFields(p.row.frozen, What(p, w));
  }

  lemma StepOfPlanAsked(cfg: Config, inv: map<string, Target>, req: Request, t: Target, p: Proposal, plan: Json, w: Where)
    requires req.ProposePlan? && AskedOf(cfg, inv, req, t, p.row.frozen, plan) && RightWay(p.row.frozen.operation, w)
    requires w.Nth? && w.i < |Steps(p.plan)| && IsDict(p.plan) && IsDict(plan) && Mean(p.plan) == Mean(plan)
    requires Get(plan, "steps").Arr?
    ensures CallAsked(cfg, inv, req, w, What(p, w))
  {
    SameSteps(p.plan, plan);
    MeansAt(Steps(p.plan), Steps(plan), w.i);
    StepDict(p.plan, w.i);
    StepDict(plan, w.i);
    StepSame(cfg, inv, req.steps[w.i], Steps(plan)[w.i], Steps(p.plan)[w.i]);
  }

  lemma CopyAsked(cfg: Config, inv: map<string, Target>, req: Request, t: Target, p: Proposal, b: Birth, w: Where)
    requires AskedOf(cfg, inv, req, t, p.row.frozen, b.plan) && Born(cfg, p.row.frozen, b) && RightWay(p.row.frozen.operation, w)
    requires IsDict(p.plan) && Mean(p.plan) == Mean(b.plan) && (w.Nth? ==> w.i < |Steps(p.plan)|)
    ensures CallAsked(cfg, inv, req, w, What(p, w))
  {
    if req.Propose? { SingleAsked(cfg, inv, req, t, p, b.plan, w); }
    else if req.ProposePlan? { StepOfPlanAsked(cfg, inv, req, t, p, b.plan, w); }
  }

  /** Over every run, edits of the plan column included: each call makes what somebody who may read had requested for the
      row. A single operation is called with the adapter of the operation that was named and with parameters that mean
      those that were asked; call i of a plan is, on the target the reference named, step i of the request; a script is run
      for a script. */
  lemma CalledAsAsked(cfg: Config, s: State, cs: seq<Choice>, k: nat) returns (req: Request, i: nat, at: nat)
    requires Initial(s) && k < |Run(cfg, s, cs).log| && Run(cfg, s, cs).log[k].Called?
    ensures i < |cs| && cs[i] == Begin(req) && Proposes(req) && req.actor.canRead && req.pid == Run(cfg, s, cs).log[k].pid
    ensures var e := Run(cfg, s, cs).log[k];
            at < |cs| && CallAsked(cfg, StateAt(cfg, s, cs, at).db.inventory, req, e.w, e.what)
  {
    ClearRun(cfg, s, cs);
    FrozenRun(cfg, s, cs);
    var r, e := Run(cfg, s, cs), Run(cfg, s, cs).log[k];
    assert EventCleared(cfg, s, cs, r.db.rows, r.births, e, k);
    var c: Clearing :| CallFrom(cfg, s, cs, r.db.rows, r.births, e, k, c);
    var t, m, n;
    req, t, i, at, m, n := RowIsAsked(cfg, s, cs, e.pid);
    CopyAsked(cfg, StateAt(cfg, s, cs, at).db.inventory, req, t, c.p, r.births[e.pid], e.w);
  }
}
