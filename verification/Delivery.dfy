/** From an approved row to what the host runs: every plan a row is born with conforms to the operation table, so a scrub, a
    restart or a script is sent as it was frozen and runs exactly as far as the host allows. */
module Delivery {
  import opened Options
  import opened JsonText
  import opened JsonProofs
  import opened Registry
  import opened Lifecycle
  import opened Threads
  import opened FrozenContent
  import HostPath

  /** The argument list of the call a handler is about to make. */
  function CallArgv(p: Proposal, t: Target): Option<seq<string>> {
    HostPath.Argv(Text(Get(p.plan, "executor")), t.externalId, p.row.frozen.parameters)
  }

  /** The argument list the frozen plan determines. */
  function FrozenArgv(plan: Json): Option<seq<string>> {
    HostPath.Argv(Text(Get(plan, "executor")), Text(Get(plan, "target_external_id")), Get(plan, "parameters"))
  }

  // ----- plans conform to the operation table -----

  /** The executor is the one registered for the operation. */
  predicate Registered(operation: string, executor: string) {
    GetOperation(operation).Some? ==> executor == GetOperation(operation).value.executor
  }

  /** A pool to scrub and a unit to restart have passed validation. */
  predicate ValidWords(operation: string, parameters: Json) {
    && (operation == "zpool.scrub" ==> Registry.Valid(PoolKind, Get(parameters, "pool")))
    && (operation == "service.restart" ==> Registry.Valid(UnitKind, Get(parameters, "unit")))
  }

  predicate GoodDraft(d: Draft) { Registered(d.operation, d.executor) && ValidWords(d.operation, d.parameters) }

  predicate GoodPlan(plan: Json) {
    && Registered(Text(Get(plan, "operation")), Text(Get(plan, "executor")))
    && ValidWords(Text(Get(plan, "operation")), Get(plan, "parameters"))
  }

  predicate GoodPc(pc: Pc) { pc.Pre? || pc.Insert? ==> GoodDraft(pc.d) }

  ghost predicate GoodInv(s: State) {
    && (forall p :: p in s.births ==> GoodPlan(s.births[p].plan))
    && (forall t :: t in s.jobs ==> GoodPc(s.jobs[t].pc))
  }

  lemma CleanWords(name: string, parameters: Json)
    requires GetOperation(name).Some? && Clean(GetOperation(name).value, parameters).Some?
    ensures ValidWords(name, Clean(GetOperation(name).value, parameters).value)
  {
    var op := GetOperation(name).value;
    if name == "zpool.scrub" || name == "service.restart" {
      assert op.params[..0] == [] && Picked([], parameters) == [];
      assert Picked(op.params, parameters) == [Member(op.params[0].name, Get(parameters, op.params[0].name))];
    }
  }

  lemma CheckedGood(cfg: Config, inv: map<string, Target>, name: string, ref: string, parameters: Json)
    ensures var c := CheckOperation(cfg, inv, name, ref, parameters); c.Some? ==> GoodDraft(OperationDraft(c.value))
  {
    OneParameter(name);
    if CheckOperation(cfg, inv, name, ref, parameters).Some? { CleanWords(name, parameters); }
  }

  lemma ResolvedGood(cfg: Config, inv: map<string, Target>, req: Request)
    ensures Resolved(cfg, inv, req).Some? ==> GoodDraft(Resolved(cfg, inv, req).value)
  {
    OneParameter("");
    if req.Propose? { CheckedGood(cfg, inv, req.operation, req.target, req.parameters); }
  }

  lemma DraftPlanGood(cfg: Config, d: Draft, pre: Json)
    requires DraftOk(d) && IsDict(pre) && GoodDraft(d)
    ensures GoodPlan(DraftPlan(cfg, d, pre))
  {
    PlanFields(cfg.client, d.adapter, d.operation, d.target, d.parameters, d.executor, d.timeout, pre,
               d.steps, d.script, d.declared);
  }

  /** What one step keeps: the births but for a good new one, and where the handler goes. */
  ghost predicate GoodStep(s: State, a: Act) {
    && (forall p :: p in a.births ==> (p in s.births && a.births[p] == s.births[p]) || GoodPlan(a.births[p].plan))
    && (a.pc.Some? ==> GoodPc(a.pc.value))
  }

  lemma InsertGood(cfg: Config, s: State, j: Job, o: Oracle)
    requires (j.req.Propose? || j.req.ProposePlan? || j.req.ProposeScript?) && j.pc.Insert? && GoodPc(j.pc) && CarryOk(j)
    ensures GoodStep(s, Proposing(cfg, s, j, o))
  {
    DraftPlanGood(cfg, j.pc.d, j.pc.pre);
  }

  lemma DraftingGood(cfg: Config, s: State, j: Job, o: Oracle)
    requires (j.req.Propose? || j.req.ProposePlan? || j.req.ProposeScript?) && !j.pc.Insert? && GoodPc(j.pc)
    ensures GoodStep(s, Proposing(cfg, s, j, o))
  {
    if j.pc.Resolve? { ResolvedGood(cfg, s.db.inventory, j.req); }
  }

  lemma PatchGood(s: State, j: Job, a: Act)
    requires (j.req.Approve? || j.req.Close?) && a.births == s.births && (a.pc.Some? ==> Fits(j.req, a.pc.value))
    ensures GoodStep(s, a)
  {
  }

  lemma ExpireGood(s: State, tid: Tid, j: Job)
    ensures GoodStep(s, ExpireAct(s, tid, j))
  {
  }

  lemma DoGood(cfg: Config, s: State, tid: Tid, j: Job, o: Oracle)
    requires Fits(j.req, j.pc) && (Holding(j.pc) ==> s.lock == Some(tid)) && GoodPc(j.pc) && CarryOk(j)
    ensures GoodStep(s, Do(cfg, s, tid, j, o))
  {
    if j.pc.Expire? { ExpireGood(s, tid, j); }
    else if j.req.Approve? || j.req.Close? {
      DoPatch(cfg, s, tid, j, o);
      DoLock(cfg, s, tid, j, o);
      PatchGood(s, j, Do(cfg, s, tid, j, o));
    }
    else if j.pc.Insert? { InsertGood(cfg, s, j, o); }
    else { DraftingGood(cfg, s, j, o); }
  }

  lemma ApplyGood(s: State, tid: Tid, a: Act)
    requires GoodInv(s) && tid in s.jobs && GoodStep(s, a)
    ensures GoodInv(Apply(s, tid, a))
  {
  }

  lemma RestGood(cfg: Config, s: State, c: Choice)
    requires GoodInv(s) && !Enabled(s, c)
    ensures GoodInv(Next(cfg, s, c))
  {
    NextFrame(cfg, s, c);
  }

  lemma GoodNext(cfg: Config, s: State, c: Choice)
    requires LockInv(s) && FrozenInv(cfg, s) && GoodInv(s)
    ensures GoodInv(Next(cfg, s, c))
  {
    if Enabled(s, c) {
      NextApply(cfg, s, c);
      DoGood(cfg, s, c.tid, s.jobs[c.tid], c.o);
      ApplyGood(s, c.tid, Do(cfg, s, c.tid, s.jobs[c.tid], c.o));
    } else {
      RestGood(cfg, s, c);
    }
  }

  lemma {:induction false} GoodRun(cfg: Config, s: State, cs: seq<Choice>)
    requires Initial(s)
    ensures GoodInv(Run(cfg, s, cs))
  {
    if cs == [] {
    } else {
      GoodRun(cfg, s, cs[..|cs| - 1]);
      FrozenRun(cfg, s, cs[..|cs| - 1]);
      GoodNext(cfg, Run(cfg, s, cs[..|cs| - 1]), cs[|cs| - 1]);
    }
  }

  // ----- to the host -----

  /** What a handler about to call carries, against what its row was born with. */
  predicate Faithful(p: Proposal, plan: Json) {
    && IsDict(p.plan) && IsDict(plan) && Mean(p.plan) == Mean(plan)
    && ColumnsMatch(p.row.frozen, plan) && GoodPlan(plan)
  }

  lemma CallFacts(cfg: Config, s: State, cs: seq<Choice>, tid: Tid)
    requires Initial(s) && tid in Run(cfg, s, cs).jobs && Run(cfg, s, cs).jobs[tid].pc.Call?
    ensures var r := Run(cfg, s, cs);
            var pid := PidOf(r.jobs[tid].req);
            pid in r.births && Faithful(r.jobs[tid].pc.p, r.births[pid].plan)
  {
    GoodRun(cfg, s, cs);
    FrozenRun(cfg, s, cs);
    var r := Run(cfg, s, cs);
    HeldFacts(cfg, r, tid);
    SameHashSameMeaning(r.jobs[tid].pc.p, r.births[PidOf(r.jobs[tid].req)].plan);
  }

  /** What a scrub of the frozen pool runs on the host: the pool's own scrub, exactly when its name is one line, the
      operation is allowed, the tool is installed and the pool exists; and nothing else. */
  predicate ScrubbedExactly(site: HostPath.Site, ran: HostPath.Ran, pool: string)
    requires pool != ""
  {
    && (ran == HostPath.Exec(["zpool", "scrub", pool]) <==>
          pool[|pool| - 1] != '\n' && "zpool.scrub" in site.operations && "zpool" in site.tools && pool in site.pools)
    && (ran.Exec? ==> ran.argv == ["zpool", "scrub", pool]) && !ran.RunScript?
  }

  predicate RestartedExactly(site: HostPath.Site, ran: HostPath.Ran, unit: string)
    requires unit != ""
  {
    && (ran == HostPath.Exec(["systemctl", "restart", unit]) <==>
          unit[|unit| - 1] != '\n' && "service.restart" in site.operations && unit in site.services)
    && (ran.Exec? ==> ran.argv == ["systemctl", "restart", unit]) && !ran.RunScript?
  }

  lemma SentAs(p: Proposal, t: Target, plan: Json)
    requires Faithful(p, plan) && GetOperation(p.row.frozen.operation).Some?
    ensures CallArgv(p, t) == HostPath.Argv(GetOperation(p.row.frozen.operation).value.executor, t.externalId, Get(plan, "parameters"))
    ensures p.row.frozen.parameters == Get(plan, "parameters") && ValidWords(p.row.frozen.operation, Get(plan, "parameters"))
  {
    SameText(p.plan, plan, "executor");
  }

  lemma NodeOperations()
    ensures GetOperation("zpool.scrub").Some? && GetOperation("zpool.scrub").value.executor == "zpool_scrub"
    ensures GetOperation("service.restart").Some? && GetOperation("service.restart").value.executor == "service_restart"
  {
  }

  lemma ScrubSent(p: Proposal, t: Target, plan: Json, site: HostPath.Site)
    requires Faithful(p, plan) && p.row.frozen.operation == "zpool.scrub"
    ensures var pool := Get(Get(plan, "parameters"), "pool");
            && pool.Str? && pool.s != "" && CallArgv(p, t).Some?
            && ScrubbedExactly(site, HostPath.Deliver(site, CallArgv(p, t).value), pool.s)
  {
    NodeOperations();
    SentAs(p, t, plan);
    HostPath.ScrubReachesHost(site, t.externalId, Get(plan, "parameters"));
  }

  lemma RestartSent(p: Proposal, t: Target, plan: Json, site: HostPath.Site)
    requires Faithful(p, plan) && p.row.frozen.operation == "service.restart"
    ensures var unit := Get(Get(plan, "parameters"), "unit");
            && unit.Str? && unit.s != "" && CallArgv(p, t).Some?
            && RestartedExactly(site, HostPath.Deliver(site, CallArgv(p, t).value), unit.s)
  {
    NodeOperations();
    SentAs(p, t, plan);
    HostPath.RestartReachesHost(site, t.externalId, Get(plan, "parameters"));
  }

  /** From an approved scrub to the host, over every run, edits of the plan column included. */
  lemma ApprovedScrubReachesHost(cfg: Config, s: State, cs: seq<Choice>, tid: Tid, site: HostPath.Site)
    requires Initial(s) && tid in Run(cfg, s, cs).jobs && Run(cfg, s, cs).jobs[tid].pc.Call?
    requires Run(cfg, s, cs).jobs[tid].pc.w.Single? && Run(cfg, s, cs).jobs[tid].pc.p.row.frozen.operation == "zpool.scrub"
    ensures var r := Run(cfg, s, cs);
            var p, t, pid := r.jobs[tid].pc.p, r.jobs[tid].pc.t, PidOf(r.jobs[tid].req);
            && pid in r.births
            && var pool := Get(Get(r.births[pid].plan, "parameters"), "pool");
               && pool.Str? && pool.s != "" && CallArgv(p, t).Some?
               && ScrubbedExactly(site, HostPath.Deliver(site, CallArgv(p, t).value), pool.s)
  {
    CallFacts(cfg, s, cs, tid);
    var r := Run(cfg, s, cs);
    ScrubSent(r.jobs[tid].pc.p, r.jobs[tid].pc.t, r.births[PidOf(r.jobs[tid].req)].plan, site);
  }

  /** From an approved restart to the host, over every run, edits of the plan column included. */
  lemma ApprovedRestartReachesHost(cfg: Config, s: State, cs: seq<Choice>, tid: Tid, site: HostPath.Site)
    requires Initial(s) && tid in Run(cfg, s, cs).jobs && Run(cfg, s, cs).jobs[tid].pc.Call?
    requires Run(cfg, s, cs).jobs[tid].pc.w.Single? && Run(cfg, s, cs).jobs[tid].pc.p.row.frozen.operation == "service.restart"
    ensures var r := Run(cfg, s, cs);
            var p, t, pid := r.jobs[tid].pc.p, r.jobs[tid].pc.t, PidOf(r.jobs[tid].req);
            && pid in r.births
            && var unit := Get(Get(r.births[pid].plan, "parameters"), "unit");
               && unit.Str? && unit.s != "" && CallArgv(p, t).Some?
               && RestartedExactly(site, HostPath.Deliver(site, CallArgv(p, t).value), unit.s)
  {
    CallFacts(cfg, s, cs, tid);
    var r := Run(cfg, s, cs);
    RestartSent(r.jobs[tid].pc.p, r.jobs[tid].pc.t, r.births[PidOf(r.jobs[tid].req)].plan, site);
  }

  /** What the frozen script of a plan is run with. */
  function ScriptArgv(plan: Json): Option<seq<string>> {
    var interpreter, timeout := Get(Get(plan, "script"), "interpreter"), Get(Get(plan, "script"), "timeout_seconds");
    if interpreter.Str? && timeout.Int? then Some(["run-script", interpreter.s, PrintInt(timeout.n)]) else None
  }

  lemma SameScript(a: Json, b: Json)
    requires IsDict(a) && IsDict(b) && Mean(a) == Mean(b)
    ensures ScriptArgv(a) == ScriptArgv(b)
  {
    GetMean(a, b, "script"); GetDict(a, "script"); GetDict(b, "script");
    GetMean(Get(a, "script"), Get(b, "script"), "interpreter");
    GetMean(Get(a, "script"), Get(b, "script"), "timeout_seconds");
  }

  /** From an approved script to the host, over every run, edits of the plan column included: what is sent is the frozen
      interpreter and timeout, and it runs exactly when the host allows both. */
  lemma ApprovedScriptReachesHost(cfg: Config, s: State, cs: seq<Choice>, tid: Tid, site: HostPath.Site)
    requires Initial(s) && tid in Run(cfg, s, cs).jobs && Run(cfg, s, cs).jobs[tid].pc.Call?
    requires Run(cfg, s, cs).jobs[tid].pc.w.Script?
    ensures var r := Run(cfg, s, cs);
            var p, pid := r.jobs[tid].pc.p, PidOf(r.jobs[tid].req);
            && pid in r.births && ScriptArgv(p.plan) == ScriptArgv(r.births[pid].plan)
            && (ScriptArgv(p.plan).Some? ==>
                  var script := Get(r.births[pid].plan, "script");
                  var interpreter, timeout := Get(script, "interpreter").s, Get(script, "timeout_seconds").n;
                  HostPath.Deliver(site, ScriptArgv(p.plan).value) == HostPath.RunScript(interpreter, PrintInt(timeout)) <==>
                    && "script.run" in site.operations && HostPath.NameOver(interpreter, {'/', '_', '.', '-'})
                    && interpreter in site.interpreters && (1 <= timeout <= 3600 || timeout >= 0x8000_0000_0000_0000))
  {
    CallFacts(cfg, s, cs, tid);
    var r := Run(cfg, s, cs);
    var plan := r.births[PidOf(r.jobs[tid].req)].plan;
    SameScript(r.jobs[tid].pc.p.plan, plan);
    if ScriptArgv(plan).Some? {
      HostPath.ScriptReachesHost(site, Get(Get(plan, "script"), "interpreter").s, Get(Get(plan, "script"), "timeout_seconds").n);
    }
  }
}
