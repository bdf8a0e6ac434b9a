/** Inventory syncs: a guest's external id is a function of its stable id, so what an approved guest operation runs is
    fixed by its frozen plan however often the inventory was synced in between. */
module Resync {
  import opened JsonText
  import opened JsonProofs
  import opened Registry
  import opened Lifecycle
  import opened Tables
  import opened Threads
  import opened FrozenContent
  import opened Delivery
  import HostPath
  import Shell

  /** One line of `qm list` or `pct list`. */
  datatype Guest = Guest(vmid: string, name: string)

  function NodeChar(c: char): char {
    if 'A' <= c <= 'Z' then c + 32 as char else if 'a' <= c <= 'z' || '0' <= c <= '9' || c == '_' then c else '_'
  }

  function NodeId(hostname: string): string {
    "node_" + seq(|hostname|, i requires 0 <= i < |hostname| => NodeChar(hostname[i]))
  }

  function NodeEntry(c: Client, hostname: string): Target {
    Target(NodeId(hostname), c.clientId, "proxmox", "node", hostname, hostname)
  }

  function GuestEntry(c: Client, kind: string, g: Guest): Target {
    Target(kind + "_" + g.vmid, c.clientId, "proxmox", kind, g.name, g.vmid)
  }

  function GuestEntries(c: Client, kind: string, gs: seq<Guest>): seq<Target> {
    seq(|gs|, i requires 0 <= i < |gs| => GuestEntry(c, kind, gs[i]))
  }

  function SyncEntries(c: Client, hostname: string, vms: seq<Guest>, cts: seq<Guest>): seq<Target> {
    [NodeEntry(c, hostname)] + GuestEntries(c, "vm", vms) + GuestEntries(c, "ct", cts)
  }

  /** What stands for one character of a host name in its node's id. */
  predicate StandsFor(c: char, r: char) {
    if c in Shell.UPPER then r as int == c as int + 32
    else if c in Shell.LOWER + Shell.DIGITS + {'_'} then r == c
    else r == '_'
  }

  lemma NodeCharIs(c: char)
    ensures StandsFor(c, NodeChar(c))
  {
    Shell.Ranges(c);
  }

  /** A sync writes one node, named and addressed by its host name, and then every virtual machine and every container with
      its own vmid and name, all of them this client's. */
  lemma SyncedExactly(c: Client, hostname: string, vms: seq<Guest>, cts: seq<Guest>)
    ensures var es := SyncEntries(c, hostname, vms, cts);
            && |es| == 1 + |vms| + |cts|
            && es[0] == Target(es[0].id, c.clientId, "proxmox", "node", hostname, hostname)
            && |es[0].id| == 5 + |hostname| && es[0].id[..5] == "node_"
            && (forall i :: 0 <= i < |hostname| ==> StandsFor(hostname[i], es[0].id[5 + i]))
            && (forall i :: 0 <= i < |vms| ==>
                  es[1 + i] == Target("vm_" + vms[i].vmid, c.clientId, "proxmox", "vm", vms[i].name, vms[i].vmid))
            && (forall i :: 0 <= i < |cts| ==>
                  es[1 + |vms| + i] == Target("ct_" + cts[i].vmid, c.clientId, "proxmox", "ct", cts[i].name, cts[i].vmid))
  {
    var id := NodeId(hostname);
    forall i | 0 <= i < |hostname| ensures id[5 + i] == NodeChar(hostname[i]) && StandsFor(hostname[i], id[5 + i]) {
      NodeCharIs(hostname[i]);
    }
    assert id[..5] == "node_";
    assert "vm" + "_" == "vm_" && "ct" + "_" == "ct_";
  }

  method SyncInventory(store: Store, c: Client, hostname: string, vms: seq<Guest>, cts: seq<Guest>)
    modifies store`inventory
    ensures store.inventory == Upserted(old(store.inventory), SyncEntries(c, hostname, vms, cts))
  {
    var entries := [NodeEntry(c, hostname)];
    for i := 0 to |vms|
      invariant entries == [NodeEntry(c, hostname)] + GuestEntries(c, "vm", vms[..i])
    {
      assert GuestEntries(c, "vm", vms[..i + 1]) == GuestEntries(c, "vm", vms[..i]) + [GuestEntry(c, "vm", vms[i])];
      entries := entries + [GuestEntry(c, "vm", vms[i])];
    }
    assert vms[..|vms|] == vms;
    for i := 0 to |cts|
      invariant entries == [NodeEntry(c, hostname)] + GuestEntries(c, "vm", vms) + GuestEntries(c, "ct", cts[..i])
    {
      assert GuestEntries(c, "ct", cts[..i + 1]) == GuestEntries(c, "ct", cts[..i]) + [GuestEntry(c, "ct", cts[i])];
      entries := entries + [GuestEntry(c, "ct", cts[i])];
    }
    assert cts[..|cts|] == cts;
    store.InventoryUpsert(entries);
  }

  /** A sync of the tables is a merge of the synced entries into them. */
  lemma {:induction false} UpsertMerges(inv: map<string, Target>, entries: seq<Target>)
    ensures Upserted(inv, entries) == inv + Upserted(map[], entries)
  {
    if entries == [] {
    } else {
      UpsertMerges(inv, entries[..|entries| - 1]);
    }
  }

  // ----- stable ids -----

  predicate GuestId(id: string) { |id| >= 3 && (id[..3] == "vm_" || id[..3] == "ct_") }

  predicate StableTarget(t: Target) { GuestId(t.id) ==> t.externalId == t.id[3..] }

  /** No inventory row reuses a guest's stable id for another external id. */
  predicate Stable(inv: map<string, Target>) {
    forall k :: k in inv ==> inv[k].id == k && StableTarget(inv[k])
  }

  lemma EntryStable(c: Client, hostname: string, g: Guest)
    ensures StableTarget(NodeEntry(c, hostname)) && StableTarget(GuestEntry(c, "vm", g)) && StableTarget(GuestEntry(c, "ct", g))
  {
    assert NodeId(hostname)[..3] == "nod";
    assert ("vm" + "_" + g.vmid)[3..] == g.vmid && ("ct" + "_" + g.vmid)[3..] == g.vmid;
  }

  lemma {:induction false} UpsertStable(inv: map<string, Target>, entries: seq<Target>)
    requires Stable(inv) && forall i :: 0 <= i < |entries| ==> StableTarget(entries[i])
    ensures Stable(Upserted(inv, entries))
  {
    if entries == [] {
    } else {
      UpsertStable(inv, entries[..|entries| - 1]);
    }
  }

  /** Any sync, whatever the host lists, keeps every guest's external id the one its stable id spells. */
  lemma SyncStable(inv: map<string, Target>, c: Client, hostname: string, vms: seq<Guest>, cts: seq<Guest>)
    requires Stable(inv)
    ensures Stable(Upserted(inv, SyncEntries(c, hostname, vms, cts)))
  {
    var es := SyncEntries(c, hostname, vms, cts);
    forall i | 0 <= i < |es| ensures StableTarget(es[i]) {
      var g := if i == 0 then Guest("", "") else if i <= |vms| then vms[i - 1] else cts[i - 1 - |vms|];
      EntryStable(c, hostname, g);
    }
    UpsertStable(inv, es);
  }

  /** What a start of the broker loads: the seed file, and the sync if the host answered. */
  datatype Load = Load(seeds: seq<Target>, answered: bool, hostname: string, vms: seq<Guest>, cts: seq<Guest>)

  function LoadEntries(c: Client, l: Load): seq<Target> {
    if l.answered then SyncEntries(c, l.hostname, l.vms, l.cts) else []
  }

  function Loaded(c: Client, l: Load): map<string, Target> {
    Upserted(Upserted(map[], l.seeds), LoadEntries(c, l))
  }

  /** Loading into the table is the merge of what is loaded over it. */
  lemma LoadMerges(inv: map<string, Target>, c: Client, l: Load)
    ensures Upserted(Upserted(inv, l.seeds), LoadEntries(c, l)) == inv + Loaded(c, l)
  {
    UpsertMerges(inv, l.seeds);
    UpsertMerges(Upserted(inv, l.seeds), LoadEntries(c, l));
    UpsertMerges(Upserted(map[], l.seeds), LoadEntries(c, l));
    var seeds, entries := Upserted(map[], l.seeds), Upserted(map[], LoadEntries(c, l));
    assert (inv + seeds) + entries == inv + (seeds + entries);
  }

  /** No seed entry reuses a guest's stable id for another external id. */
  predicate FairSeeds(l: Load) { forall i :: 0 <= i < |l.seeds| ==> StableTarget(l.seeds[i]) }

  /** Every restart of the run loads fair seeds and whatever the host lists. */
  ghost predicate Loads(c: Client, cs: seq<Choice>) {
    forall i :: 0 <= i < |cs| && cs[i].Restart? ==> exists l: Load :: FairSeeds(l) && cs[i].synced == Loaded(c, l)
  }

  lemma LoadedStable(c: Client, l: Load)
    requires FairSeeds(l)
    ensures Stable(Loaded(c, l))
  {
    UpsertStable(map[], l.seeds);
    if l.answered { SyncStable(Upserted(map[], l.seeds), c, l.hostname, l.vms, l.cts); }
  }

  // ----- over every run -----

  /** A plan that names a guest names its external id as the stable id spells it. */
  predicate GuestPlan(plan: Json) {
    var id := Text(Get(plan, "target_id"));
    GuestId(id) ==> Get(plan, "target_external_id") == Str(id[3..])
  }

  predicate StableDraft(d: Draft) { StableTarget(d.target) }

  predicate StablePc(pc: Pc) {
    match pc
    case Pre(d) => StableDraft(d)
    case Insert(d, _, _) => StableDraft(d)
    case MarkExecuting(p, t) => StableTarget(t) && t.id == p.row.frozen.targetId
    case Precheck(p, t) => StableTarget(t) && t.id == p.row.frozen.targetId
    case Call(p, t, w) => !w.Nth? ==> StableTarget(t) && t.id == p.row.frozen.targetId
    case _ => true
  }

  ghost predicate StableInv(s: State) {
    && Stable(s.db.inventory)
    && (forall p :: p in s.births ==> GuestPlan(s.births[p].plan))
    && (forall t :: t in s.jobs ==> StablePc(s.jobs[t].pc))
  }

  lemma FoundStable(cfg: Config, inv: map<string, Target>, ref: string)
    requires Stable(inv)
    ensures Lifecycle.ResolveTarget(cfg, inv, ref).Some? ==> StableTarget(Lifecycle.ResolveTarget(cfg, inv, ref).value)
  {
  }

  lemma CheckedStable(cfg: Config, inv: map<string, Target>, name: string, ref: string, parameters: Json)
    requires Stable(inv)
    ensures var c := CheckOperation(cfg, inv, name, ref, parameters); c.Some? ==> StableDraft(OperationDraft(c.value))
  {
    FoundStable(cfg, inv, ref);
  }

  lemma DraftStable(cfg: Config, inv: map<string, Target>, req: Request)
    requires Stable(inv)
    ensures Resolved(cfg, inv, req).Some? ==> StableDraft(Resolved(cfg, inv, req).value)
  {
    match req
    case Propose(_, _, operation, target, parameters) => CheckedStable(cfg, inv, operation, target, parameters);
    case ProposePlan(_, _, steps, _) =>
      var cs := CheckSteps(cfg, inv, steps);
      if cs.Some? && cs.value != [] { FoundStable(cfg, inv, cs.value[0].target.id); }
    case ProposeScript(_, _, target, _, _, _) => FoundStable(cfg, inv, target);
    case _ =>
  }

  lemma DraftPlanStable(cfg: Config, d: Draft, pre: Json)
    requires DraftOk(d) && IsDict(pre) && StableDraft(d)
    ensures GuestPlan(DraftPlan(cfg, d, pre))
  {
    PlanFields(cfg.client, d.adapter, d.operation, d.target, d.parameters, d.executor, d.timeout, pre,
               d.steps, d.script, d.declared);
  }

  /** What one step keeps: the inventory, the births but for a stable new one, and where the handler goes. */
  ghost predicate StableStep(s: State, a: Act) {
    && a.db.inventory == s.db.inventory
    && (forall p :: p in a.births ==> (p in s.births && a.births[p] == s.births[p]) || GuestPlan(a.births[p].plan))
    && (a.pc.Some? ==> StablePc(a.pc.value))
  }

  lemma OpeningStable(cfg: Config, s: State, tid: Tid, j: Job, o: Oracle)
    requires j.req.Approve? && (j.pc.Read? || j.pc.MarkTampered? || j.pc.TryLock?)
    ensures StableStep(s, Opening(cfg, s, tid, j, o))
  {
  }

  lemma LockingStable(cfg: Config, s: State, tid: Tid, j: Job, o: Oracle)
    requires j.req.Approve? && Holding(j.pc) && StillToEnter(j.pc) && StablePc(j.pc) && Stable(s.db.inventory)
    ensures StableStep(s, Locking(cfg, s, tid, j, o))
  {
  }

  lemma ExecutingStable(cfg: Config, s: State, tid: Tid, j: Job, o: Oracle)
    requires j.req.Approve? && Running(j.pc) && StablePc(j.pc)
    ensures StableStep(s, Executing(cfg, s, tid, j, o))
  {
  }

  lemma EndingStable(s: State, tid: Tid, j: Job)
    requires j.req.Approve? && (j.pc.Finish? || j.pc.GetFinal? || j.pc.WriteReceipt? || j.pc.Unlock?)
    ensures StableStep(s, Ending(s, tid, j))
  {
  }

  lemma ProposingStable(cfg: Config, s: State, tid: Tid, j: Job, o: Oracle)
    requires (j.req.Propose? || j.req.ProposePlan? || j.req.ProposeScript?) && Fits(j.req, j.pc) && !j.pc.Expire?
    requires StablePc(j.pc) && Stable(s.db.inventory) && CopyOk(s.db.rows, j)
    ensures StableStep(s, Proposing(cfg, s, j, o))
  {
    if j.pc.Resolve? { DraftStable(cfg, s.db.inventory, j.req); }
    if j.pc.Insert? { DraftPlanStable(cfg, j.pc.d, j.pc.pre); }
  }

  lemma DoStable(cfg: Config, s: State, tid: Tid, j: Job, o: Oracle)
    requires Fits(j.req, j.pc) && StablePc(j.pc) && Stable(s.db.inventory) && CopyOk(s.db.rows, j)
    ensures StableStep(s, Do(cfg, s, tid, j, o))
  {
    if j.pc.Expire? || j.req.Close? || j.req.Look? { }
    else if j.req.Approve? {
      if j.pc.Read? || j.pc.MarkTampered? || j.pc.TryLock? { OpeningStable(cfg, s, tid, j, o); }
      else if Running(j.pc) { ExecutingStable(cfg, s, tid, j, o); }
      else if StillToEnter(j.pc) { LockingStable(cfg, s, tid, j, o); }
      else { EndingStable(s, tid, j); }
    }
    else { ProposingStable(cfg, s, tid, j, o); }
  }

  lemma ApplyStable(s: State, tid: Tid, a: Act)
    requires StableInv(s) && tid in s.jobs && StableStep(s, a)
    ensures StableInv(Apply(s, tid, a))
  {
  }

  lemma RestStable(cfg: Config, s: State, c: Choice)
    requires StableInv(s) && !Enabled(s, c) && (c.Restart? ==> Stable(c.synced))
    ensures StableInv(Next(cfg, s, c))
  {
  }

  lemma StableNext(cfg: Config, s: State, c: Choice)
    requires LockInv(s) && FrozenInv(cfg, s) && StableInv(s) && (c.Restart? ==> Stable(c.synced))
    ensures StableInv(Next(cfg, s, c))
  {
    if Enabled(s, c) {
      NextApply(cfg, s, c);
      DoStable(cfg, s, c.tid, s.jobs[c.tid], c.o);
      ApplyStable(s, c.tid, Do(cfg, s, c.tid, s.jobs[c.tid], c.o));
    } else {
      RestStable(cfg, s, c);
    }
  }

  lemma {:induction false} StableRun(cfg: Config, s: State, cs: seq<Choice>)
    requires Initial(s) && Stable(s.db.inventory) && Loads(cfg.client, cs)
    ensures StableInv(Run(cfg, s, cs))
  {
    if cs == [] {
    } else {
      StableRun(cfg, s, cs[..|cs| - 1]);
      FrozenRun(cfg, s, cs[..|cs| - 1]);
      var c := cs[|cs| - 1];
      if c.Restart? {
        var l: Load :| FairSeeds(l) && c.synced == Loaded(cfg.client, l);
        LoadedStable(cfg.client, l);
      }
      StableNext(cfg, Run(cfg, s, cs[..|cs| - 1]), c);
    }
  }

  lemma StableFacts(r: State, tid: Tid, pid: Pid)
    requires StableInv(r) && tid in r.jobs && pid in r.births
    ensures StablePc(r.jobs[tid].pc) && GuestPlan(r.births[pid].plan)
  {
  }

  /** The target a guest operation is about to be called on has the external id that was frozen. */
  lemma GuestTarget(p: Proposal, t: Target, plan: Json)
    requires Faithful(p, plan) && GuestPlan(plan) && StableTarget(t) && t.id == p.row.frozen.targetId && GuestId(t.id)
    ensures t.externalId == Text(Get(plan, "target_external_id"))
  {
  }

  lemma GuestFacts(cfg: Config, s: State, cs: seq<Choice>, tid: Tid)
    requires Initial(s) && Stable(s.db.inventory) && Loads(cfg.client, cs)
    requires var r := Run(cfg, s, cs);
             tid in r.jobs && r.jobs[tid].pc.Call? && r.jobs[tid].pc.w.Single? && GuestId(r.jobs[tid].pc.p.row.frozen.targetId)
    ensures var r := Run(cfg, s, cs);
            var p, t, pid := r.jobs[tid].pc.p, r.jobs[tid].pc.t, PidOf(r.jobs[tid].req);
            && pid in r.births && Faithful(p, r.births[pid].plan)
            && t.externalId == Text(Get(r.births[pid].plan, "target_external_id"))
  {
    CallFacts(cfg, s, cs, tid);
    StableRun(cfg, s, cs);
    var r := Run(cfg, s, cs);
    StableFacts(r, tid, PidOf(r.jobs[tid].req));
    GuestTarget(r.jobs[tid].pc.p, r.jobs[tid].pc.t, r.births[PidOf(r.jobs[tid].req)].plan);
  }

  lemma FaithfulArgv(p: Proposal, t: Target, plan: Json)
    requires Faithful(p, plan) && t.externalId == Text(Get(plan, "target_external_id"))
    ensures CallArgv(p, t) == FrozenArgv(plan)
  {
    SameText(p.plan, plan, "executor");
  }

  /** Over every run, syncs and edits of the plan column included: the argument list of a guest operation is the one
      its frozen plan determines. */
  lemma GuestArgvIsFrozen(cfg: Config, s: State, cs: seq<Choice>, tid: Tid)
    requires Initial(s) && Stable(s.db.inventory) && Loads(cfg.client, cs)
    requires var r := Run(cfg, s, cs);
             tid in r.jobs && r.jobs[tid].pc.Call? && r.jobs[tid].pc.w.Single? && GuestId(r.jobs[tid].pc.p.row.frozen.targetId)
    ensures var r := Run(cfg, s, cs);
            var pc, pid := r.jobs[tid].pc, PidOf(r.jobs[tid].req);
            pid in r.births && CallArgv(pc.p, pc.t) == FrozenArgv(r.births[pid].plan)
  {
    GuestFacts(cfg, s, cs, tid);
    var r := Run(cfg, s, cs);
    FaithfulArgv(r.jobs[tid].pc.p, r.jobs[tid].pc.t, r.births[PidOf(r.jobs[tid].req)].plan);
  }

  /** From an approved guest operation to the host, over every run, syncs and edits of the plan column included: what it
      runs there is the tool and action of the operation on the external id that was frozen, exactly when that id is a
      plain vmid that is not excluded, the allowlist holds the operation and the tool is installed; and whatever that id
      holds, nothing else than the operation on its first word. */
  lemma ApprovedGuestReachesHost(cfg: Config, s: State, cs: seq<Choice>, tid: Tid, site: HostPath.Site)
    requires Initial(s) && Stable(s.db.inventory) && Loads(cfg.client, cs)
    requires var r := Run(cfg, s, cs);
             tid in r.jobs && r.jobs[tid].pc.Call? && r.jobs[tid].pc.w.Single? && GuestId(r.jobs[tid].pc.p.row.frozen.targetId)
    requires var op := GetOperation(Run(cfg, s, cs).jobs[tid].pc.p.row.frozen.operation);
             op.Some? && HostPath.Ext(op.value.executor).Some?
    ensures var r := Run(cfg, s, cs);
            var p, t, pid := r.jobs[tid].pc.p, r.jobs[tid].pc.t, PidOf(r.jobs[tid].req);
            pid in r.births && CallArgv(p, t).Some? &&
            var name, id := p.row.frozen.operation, Text(Get(r.births[pid].plan, "target_external_id"));
            var (tool, action) := HostPath.Ext(GetOperation(name).value.executor).value;
            var ran := HostPath.Deliver(site, CallArgv(p, t).value);
            && (ran == HostPath.Exec([tool, action, id]) <==>
                  HostPath.OpenId(site, id) && name in site.operations && tool in site.tools)
            && (ran.Exec? ==> ran.argv == [tool, action, HostPath.Arg(Shell.Words(id), 0)])
  {
    GuestFacts(cfg, s, cs, tid);
    var r := Run(cfg, s, cs);
    var p, t := r.jobs[tid].pc.p, r.jobs[tid].pc.t;
    SentAs(p, t, r.births[PidOf(r.jobs[tid].req)].plan);
    HostPath.GuestReachesHost(site, p.row.frozen.operation, t.externalId, p.row.frozen.parameters);
  }
}
