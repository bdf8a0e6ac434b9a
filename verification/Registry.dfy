/** `model.py`: the operation registry, parameter validation, the frozen plan and its hash. */
module Registry {
  import opened Options
  import opened JsonText
  import opened JsonProofs
  import Shell

  datatype Risk = LOW | DISRUPTIVE | HIGH | FORBIDDEN

  function Order(r: Risk): nat {
    match r case LOW => 0 case DISRUPTIVE => 1 case HIGH => 2 case FORBIDDEN => 3
  }

  datatype Kind = SecondsKind | MessageKind | UnitKind | PoolKind
  datatype Param = Param(name: string, kind: Kind)

  datatype Operation = Operation(name: string, adapter: string, risk: Risk, targetKind: string,
                                 params: seq<Param>, executor: string, confirm: string)

  function ProxmoxOperation(name: string): Option<Operation> {
    if name == "vm.start" then Some(Operation(name, "proxmox", LOW, "vm", [], "vm_start", ""))
    else if name == "vm.shutdown" then Some(Operation(name, "proxmox", DISRUPTIVE, "vm", [], "vm_shutdown", ""))
    else if name == "vm.reboot" then Some(Operation(name, "proxmox", DISRUPTIVE, "vm", [], "vm_reboot", ""))
    else if name == "vm.stop" then Some(Operation(name, "proxmox", HIGH, "vm", [], "vm_stop", "STOP "))
    else if name == "ct.start" then Some(Operation(name, "proxmox", LOW, "ct", [], "ct_start", ""))
    else if name == "ct.shutdown" then Some(Operation(name, "proxmox", DISRUPTIVE, "ct", [], "ct_shutdown", ""))
    else if name == "ct.reboot" then Some(Operation(name, "proxmox", DISRUPTIVE, "ct", [], "ct_reboot", ""))
    else if name == "ct.stop" then Some(Operation(name, "proxmox", HIGH, "ct", [], "ct_stop", "STOP "))
    else if name == "zpool.scrub" then
      Some(Operation(name, "proxmox", DISRUPTIVE, "node", [Param("pool", PoolKind)], "zpool_scrub", ""))
    else if name == "service.restart" then
      Some(Operation(name, "proxmox", DISRUPTIVE, "node", [Param("unit", UnitKind)], "service_restart", ""))
    else if name == "vm.destroy" then Some(Operation(name, "proxmox", FORBIDDEN, "vm", [], "vm_destroy", ""))
    else if name == "ct.destroy" then Some(Operation(name, "proxmox", FORBIDDEN, "ct", [], "ct_destroy", ""))
    else None
  }

  /** The confirmation template is kept as the text before the target name. */
  function GetOperation(name: string): Option<Operation> {
    if name == "mock.echo" then Some(Operation(name, "mock", LOW, "mock", [Param("message", MessageKind)], "echo", ""))
    else if name == "mock.noop" then Some(Operation(name, "mock", LOW, "mock", [], "noop", ""))
    else if name == "mock.fail" then Some(Operation(name, "mock", LOW, "mock", [], "fail", ""))
    else if name == "mock.sleep" then Some(Operation(name, "mock", DISRUPTIVE, "mock", [Param("seconds", SecondsKind)], "sleep", ""))
    else if name == "mock.halt" then Some(Operation(name, "mock", HIGH, "mock", [], "noop", "HALT "))
    else ProxmoxOperation(name)
  }

  function ConfirmationPhrase(op: Operation, targetName: string): string {
    (if op.confirm != "" then op.confirm else "APPROVE ") + targetName
  }

  // ----- the operation table, by what each column holds -----

  const LOW_OPERATIONS := {"mock.echo", "mock.noop", "mock.fail", "vm.start", "ct.start"}
  const DISRUPTIVE_OPERATIONS :=
    {"mock.sleep", "vm.shutdown", "vm.reboot", "ct.shutdown", "ct.reboot", "zpool.scrub", "service.restart"}
  const HIGH_OPERATIONS := {"mock.halt", "vm.stop", "ct.stop"}
  const FORBIDDEN_OPERATIONS := {"vm.destroy", "ct.destroy"}

  /** The operations of each risk, and no others. */
  lemma RisksExactly(name: string)
    ensures var op := GetOperation(name);
            && (op.Some? && op.value.risk == LOW <==> name in LOW_OPERATIONS)
            && (op.Some? && op.value.risk == DISRUPTIVE <==> name in DISRUPTIVE_OPERATIONS)
            && (op.Some? && op.value.risk == HIGH <==> name in HIGH_OPERATIONS)
            && (op.Some? && op.value.risk == FORBIDDEN <==> name in FORBIDDEN_OPERATIONS)
  {
  }

  lemma AdaptersExactly(name: string)
    requires GetOperation(name).Some?
    ensures var op := GetOperation(name).value;
            && op.name == name
            && (op.adapter == "mock" <==> name in {"mock.echo", "mock.noop", "mock.fail", "mock.sleep", "mock.halt"})
            && (op.adapter == "proxmox" <==> op.adapter != "mock")
  {
  }

  /** What an operation applies to. */
  lemma KindsExactly(name: string)
    requires GetOperation(name).Some?
    ensures var kind := GetOperation(name).value.targetKind;
            && (kind == "mock" <==> name in {"mock.echo", "mock.noop", "mock.fail", "mock.sleep", "mock.halt"})
            && (kind == "node" <==> name in {"zpool.scrub", "service.restart"})
            && (kind == "vm" <==> name in {"vm.start", "vm.shutdown", "vm.reboot", "vm.stop", "vm.destroy"})
            && (kind == "ct" <==> name in {"ct.start", "ct.shutdown", "ct.reboot", "ct.stop", "ct.destroy"})
  {
  }

  /** The executors of the mock operations; those of a host's are what `HostPath.GuestOperation` and
      `Delivery.NodeOperations` say they run. */
  lemma MockExecutors(name: string)
    requires GetOperation(name).Some? && GetOperation(name).value.adapter == "mock"
    ensures GetOperation(name).value.executor ==
            if name == "mock.halt" then "noop" else if |name| >= 5 then name[5..] else ""
  {
  }

  /** What the person who approves must type: empty where nothing is asked. */
  function Phrase(name: string, targetName: string): string {
    if name == "vm.stop" || name == "ct.stop" then "STOP " + targetName
    else if name == "mock.halt" then "HALT " + targetName
    else ""
  }

  lemma PhraseExactly(name: string, targetName: string)
    requires GetOperation(name).Some?
    ensures var op := GetOperation(name).value;
            Phrase(name, targetName) == if op.risk == HIGH then ConfirmationPhrase(op, targetName) else ""
  {
  }

  // ----- parameter validation -----

  predicate PoolChar(c: char) { Shell.Alnum(c) || c == '.' || c == '_' || c == ':' || c == '-' }
  predicate UnitChar(c: char) { PoolChar(c) || c == '@' }

  predicate AllUnit(s: string) { 1 <= |s| <= 64 && forall c <- s :: UnitChar(c) }
  predicate AllPool(s: string) { 1 <= |s| <= 64 && forall c <- s :: PoolChar(c) }

  /** A `$` in a Python pattern also matches just before one trailing newline. */
  predicate MatchesUnit(s: string) {
    AllUnit(s) || (s != "" && s[|s| - 1] == '\n' && AllUnit(s[..|s| - 1]))
  }

  predicate MatchesPool(s: string) {
    AllPool(s) || (s != "" && s[|s| - 1] == '\n' && AllPool(s[..|s| - 1]))
  }

  predicate Valid(kind: Kind, v: Json) {
    match kind
    case SecondsKind => v.Int? && 1 <= v.n <= 3600
    case MessageKind => v.Str? && 1 <= |v.s| <= 128 && forall c <- v.s :: 32 <= c as int < 127
    case UnitKind => v.Str? && MatchesUnit(v.s)
    case PoolKind => v.Str? && MatchesPool(v.s)
  }

  predicate Names(ps: seq<Param>, k: string) {
    exists i :: 0 <= i < |ps| && ps[i].name == k
  }

  /** No name of `ms` outside the allowed ones. */
  predicate OnlyNames(ms: seq<Member>, ps: seq<Param>) {
    ms == [] || (Names(ps, ms[0].key) && OnlyNames(ms[1..], ps))
  }

  predicate AllValid(ps: seq<Param>, params: Json) {
    forall i :: 0 <= i < |ps| ==> Has(params, ps[i].name) && Valid(ps[i].kind, Get(params, ps[i].name))
  }

  function Picked(ps: seq<Param>, params: Json): seq<Member> {
    if ps == [] then []
    else Picked(ps[..|ps| - 1], params) + [Member(ps[|ps| - 1].name, Get(params, ps[|ps| - 1].name))]
  }

  /** What validation accepts, and the clean parameters it returns. */
  function Clean(op: Operation, params: Json): Option<Json> {
    if params.Obj? && OnlyNames(params.members, op.params) && AllValid(op.params, params)
    then Some(Obj(Picked(op.params, params))) else None
  }

  method ValidateParams(op: Operation, params: Json) returns (r: Option<Json>)
    ensures r == Clean(op, params)
  {
    if !params.Obj? || !OnlyNames(params.members, op.params) { return None; }
    var clean: seq<Member> := [];
    for i := 0 to |op.params|
      invariant clean == Picked(op.params[..i], params)
      invariant AllValid(op.params[..i], params)
    {
      var p := op.params[i];
      assert op.params[..i + 1][..i] == op.params[..i];
      if !Has(params, p.name) || !Valid(p.kind, Get(params, p.name)) {
        assert !AllValid(op.params, params);
        return None;
      }
      clean := clean + [Member(p.name, Get(params, p.name))];
    }
    assert op.params[..|op.params|] == op.params;
    return Some(Obj(clean));
  }

  predicate DistinctNames(ps: seq<Param>) {
    forall i, j :: 0 <= i < j < |ps| ==> ps[i].name != ps[j].name
  }

  lemma {:induction false} AppendField(ms: seq<Member>, m: Member)
    ensures forall k :: HasKey(ms + [m], k) <==> HasKey(ms, k) || k == m.key
    ensures AreFields(ms) && !HasKey(ms, m.key) && IsDict(m.value) ==> AreFields(ms + [m])
    ensures !HasKey(ms, m.key) ==> Table(ms + [m]) == Table(ms)[m.key := Mean(m.value)]
  {
    if ms == [] {
    } else {
      AppendField(ms[1..], m);
      assert (ms + [m])[1..] == ms[1..] + [m];
    }
  }

  lemma {:induction false} PickedTable(ps: seq<Param>, params: Json)
    requires params.Obj? && IsDict(params) && DistinctNames(ps)
    requires forall i :: 0 <= i < |ps| ==> Has(params, ps[i].name)
    ensures AreFields(Picked(ps, params))
    ensures forall k :: HasKey(Picked(ps, params), k) <==> Names(ps, k)
    ensures forall k :: k in Table(Picked(ps, params)) <==> Names(ps, k)
    ensures forall k :: Names(ps, k) ==> k in Table(params.members)
    ensures forall k :: Names(ps, k) ==> Table(Picked(ps, params))[k] == Table(params.members)[k]
  {
    if ps == [] {
    } else {
      var qs, p := ps[..|ps| - 1], ps[|ps| - 1];
      PickedTable(qs, params);
      assert !Names(qs, p.name);
      FindMean(params.members, p.name);
      AppendField(Picked(qs, params), Member(p.name, Get(params, p.name)));
      forall k ensures Names(ps, k) <==> Names(qs, k) || k == p.name {
        if Names(qs, k) { var i :| 0 <= i < |qs| && qs[i].name == k; assert ps[i].name == k; }
      }
    }
  }

  lemma {:induction false} OnlyNamesKeys(ms: seq<Member>, ps: seq<Param>)
    ensures OnlyNames(ms, ps) <==> forall k :: HasKey(ms, k) ==> Names(ps, k)
  {
    if ms == [] {
    } else {
      OnlyNamesKeys(ms[1..], ps);
      assert HasKey(ms, ms[0].key);
      if OnlyNames(ms, ps) { forall k | HasKey(ms, k) ensures Names(ps, k) { } }
      if forall k :: HasKey(ms, k) ==> Names(ps, k) {
        forall k | HasKey(ms[1..], k) ensures Names(ps, k) { assert HasKey(ms, k); }
      }
    }
  }

  /** Validation accepts exactly the declared names with valid values, and returns the same dictionary. */
  lemma CleanKeepsParameters(op: Operation, params: Json)
    requires DistinctNames(op.params) && IsDict(params)
    ensures Clean(op, params).Some? <==>
              params.Obj? && (forall k :: Has(params, k) <==> Names(op.params, k)) && AllValid(op.params, params)
    ensures Clean(op, params).Some? ==> IsDict(Clean(op, params).value) && Mean(Clean(op, params).value) == Mean(params)
  {
    if params.Obj? {
      OnlyNamesKeys(params.members, op.params);
      if AllValid(op.params, params) && OnlyNames(params.members, op.params) {
        forall k ensures Has(params, k) <==> Names(op.params, k) { }
        PickedTable(op.params, params);
        TableKeys(params.members);
        assert Table(Picked(op.params, params)) == Table(params.members);
      }
    }
  }

  // ----- which parameters each operation takes, written out -----

  /** 1 to 64 letters, digits and marks. */
  predicate WordOver(w: string, marks: set<char>) {
    1 <= |w| <= 64 && forall i :: 0 <= i < |w| ==> w[i] in Shell.UPPER + Shell.LOWER + Shell.DIGITS + marks
  }

  /** Such a word, perhaps with one newline after it. */
  predicate Word(s: string, marks: set<char>) {
    WordOver(s, marks) || (s != "" && s[|s| - 1] == '\n' && WordOver(s[..|s| - 1], marks))
  }

  lemma UnitOver(w: string)
    ensures AllUnit(w) <==> WordOver(w, {'@', '.', '_', ':', '-'})
  {
    forall i | 0 <= i < |w| ensures UnitChar(w[i]) <==> w[i] in Shell.UPPER + Shell.LOWER + Shell.DIGITS + {'@', '.', '_', ':', '-'} {
      Shell.Ranges(w[i]);
    }
  }

  lemma UnitWord(s: string)
    ensures Valid(UnitKind, Str(s)) <==> Word(s, {'@', '.', '_', ':', '-'})
  {
    UnitOver(s);
    if s != "" { UnitOver(s[..|s| - 1]); }
  }

  lemma PoolOver(w: string)
    ensures AllPool(w) <==> WordOver(w, {'.', '_', ':', '-'})
  {
    forall i | 0 <= i < |w| ensures PoolChar(w[i]) <==> w[i] in Shell.UPPER + Shell.LOWER + Shell.DIGITS + {'.', '_', ':', '-'} {
      Shell.Ranges(w[i]);
    }
  }

  lemma PoolWord(s: string)
    ensures Valid(PoolKind, Str(s)) <==> Word(s, {'.', '_', ':', '-'})
  {
    PoolOver(s);
    if s != "" { PoolOver(s[..|s| - 1]); }
  }

  /** One parameter of this name. */
  ghost predicate Only(params: Json, k: string) { params.Obj? && forall q :: Has(params, q) <==> q == k }

  ghost predicate Takes(name: string, params: Json) {
    if name == "mock.echo" then
      var v := Get(params, "message");
      Only(params, "message") && v.Str? && 1 <= |v.s| <= 128 && forall i :: 0 <= i < |v.s| ==> ' ' <= v.s[i] <= '~'
    else if name == "mock.sleep" then
      var v := Get(params, "seconds");
      Only(params, "seconds") && v.Int? && 1 <= v.n <= 3600
    else if name == "zpool.scrub" then
      Only(params, "pool") && Get(params, "pool").Str? && Word(Get(params, "pool").s, {'.', '_', ':', '-'})
    else if name == "service.restart" then
      Only(params, "unit") && Get(params, "unit").Str? && Word(Get(params, "unit").s, {'@', '.', '_', ':', '-'})
    else params == Obj([])
  }

  lemma NoKeys(params: Json)
    requires params.Obj?
    ensures (forall k :: !Has(params, k)) <==> params == Obj([])
  {
    if params.members != [] { assert Has(params, params.members[0].key); }
  }

  lemma OneName(op: Operation, k: string, kind: Kind)
    requires op.params == [Param(k, kind)]
    ensures DistinctNames(op.params) && (forall q :: Names(op.params, q) <==> q == k)
    ensures forall params :: AllValid(op.params, params) <==> Has(params, k) && Valid(kind, Get(params, k))
  {
    assert op.params[0] == Param(k, kind);
  }

  lemma TakesOne(op: Operation, params: Json, k: string, kind: Kind)
    requires op.params == [Param(k, kind)] && IsDict(params)
    ensures Clean(op, params).Some? <==> Only(params, k) && Valid(kind, Get(params, k))
  {
    OneName(op, k, kind);
    CleanKeepsParameters(op, params);
  }

  lemma TakesNone(op: Operation, params: Json)
    requires op.params == [] && IsDict(params)
    ensures Clean(op, params).Some? <==> params == Obj([])
  {
    CleanKeepsParameters(op, params);
    if params.Obj? { NoKeys(params); }
  }

  lemma MessageText(v: Json)
    ensures Valid(MessageKind, v) <==> v.Str? && 1 <= |v.s| <= 128 && forall i :: 0 <= i < |v.s| ==> ' ' <= v.s[i] <= '~'
  {
    if v.Str? { assert forall i :: 0 <= i < |v.s| ==> v.s[i] in v.s; }
  }

  predicate Plainly(name: string) {
    name != "mock.echo" && name != "mock.sleep" && name != "zpool.scrub" && name != "service.restart"
  }

  lemma ParameterLists(name: string)
    requires GetOperation(name).Some?
    ensures var ps := GetOperation(name).value.params;
            && (name == "mock.echo" ==> ps == [Param("message", MessageKind)])
            && (name == "mock.sleep" ==> ps == [Param("seconds", SecondsKind)])
            && (name == "zpool.scrub" ==> ps == [Param("pool", PoolKind)])
            && (name == "service.restart" ==> ps == [Param("unit", UnitKind)])
            && (Plainly(name) ==> ps == [])
  {
  }

  lemma TakesExactly(name: string, params: Json)
    requires GetOperation(name).Some? && IsDict(params)
    ensures Clean(GetOperation(name).value, params).Some? <==> Takes(name, params)
  {
    var op := GetOperation(name).value;
    ParameterLists(name);
    if name == "mock.echo" {
      TakesOne(op, params, "message", MessageKind);
      MessageText(Get(params, "message"));
    } else if name == "mock.sleep" {
      TakesOne(op, params, "seconds", SecondsKind);
    } else if name == "zpool.scrub" {
      TakesOne(op, params, "pool", PoolKind);
      if Get(params, "pool").Str? { PoolWord(Get(params, "pool").s); }
    } else if name == "service.restart" {
      TakesOne(op, params, "unit", UnitKind);
      if Get(params, "unit").Str? { UnitWord(Get(params, "unit").s); }
    } else {
      TakesNone(op, params);
    }
  }

  // ----- the frozen plan -----

  /** SHA-256 as a free injective function of the hashed text. */
  datatype Digest = Sha256(text: string)

  function PlanHash(plan: Json): Digest {
    Sha256(Canonical(plan))
  }

  datatype Client = Client(clientId: string, siteId: string)
  datatype Target = Target(id: string, clientId: string, adapter: string, kind: string, name: string, externalId: string)

  function PlanIdentity(c: Client, adapter: string, operation: string, t: Target): seq<Member> {
    [Member("version", Int(1)), Member("client_id", Str(c.clientId)), Member("site_id", Str(c.siteId)),
     Member("adapter", Str(adapter)), Member("operation", Str(operation)), Member("target_id", Str(t.id)),
     Member("target_name", Str(t.name)), Member("target_external_id", Str(t.externalId))]
  }

  function PlanBody(parameters: Json, executor: string, timeout: int, pre: Json): seq<Member> {
    [Member("parameters", parameters), Member("executor", Str(executor)),
     Member("timeout_seconds", Int(timeout)), Member("preconditions", pre)]
  }

  function Optional(k: string, v: Option<Json>): seq<Member> {
    match v case Some(j) => [Member(k, j)] case None => []
  }

  function BuildPlan(c: Client, adapter: string, operation: string, t: Target, parameters: Json, executor: string,
                     timeout: int, pre: Json, steps: Option<Json>, script: Option<Json>, declared: Option<Json>): Json {
    Obj(PlanIdentity(c, adapter, operation, t) + PlanBody(parameters, executor, timeout, pre)
        + Optional("steps", steps) + Optional("script", script) + Optional("ai_declared", declared))
  }

  predicate KeysDiffer(ms: seq<Member>) {
    forall i, j :: 0 <= i < j < |ms| ==> ms[i].key != ms[j].key
  }

  lemma {:induction false} HasKeyAt(ms: seq<Member>, k: string)
    ensures HasKey(ms, k) <==> exists i :: 0 <= i < |ms| && ms[i].key == k
  {
    if ms == [] {
    } else {
      HasKeyAt(ms[1..], k);
      if exists i :: 0 <= i < |ms| && ms[i].key == k {
        var i :| 0 <= i < |ms| && ms[i].key == k;
        if i > 0 { assert ms[1..][i - 1].key == k; }
      }
    }
  }

  lemma {:induction false} FieldsByIndex(ms: seq<Member>)
    requires KeysDiffer(ms) && forall i :: 0 <= i < |ms| ==> IsDict(ms[i].value)
    ensures AreFields(ms)
  {
    if ms == [] {
    } else {
      HasKeyAt(ms[1..], ms[0].key);
      FieldsByIndex(ms[1..]);
    }
  }

  lemma {:induction false} FindAt(ms: seq<Member>, i: nat)
    requires KeysDiffer(ms) && i < |ms|
    ensures Find(ms, ms[i].key) == Some(ms[i].value)
  {
    if i == 0 {
    } else {
      FindAt(ms[1..], i - 1);
    }
  }

  lemma {:induction false} JoinFields(a: seq<Member>, b: seq<Member>)
    requires AreFields(a) && AreFields(b)
    requires forall k :: HasKey(a, k) ==> !HasKey(b, k)
    ensures AreFields(a + b)
    ensures forall k :: HasKey(a + b, k) <==> HasKey(a, k) || HasKey(b, k)
    ensures forall k :: HasKey(a, k) ==> Find(a + b, k) == Find(a, k)
    ensures forall k :: !HasKey(a, k) ==> Find(a + b, k) == Find(b, k)
  {
    if a == [] {
      assert a + b == b;
    } else {
      assert HasKey(a, a[0].key);
      forall k | HasKey(a[1..], k) ensures !HasKey(b, k) { assert HasKey(a, k); }
      JoinFields(a[1..], b);
      assert (a + b)[1..] == a[1..] + b;
    }
  }

  /** The keys a plan gets only when it has steps, a script or declared text. */
  predicate Bare(ms: seq<Member>) {
    Find(ms, "steps") == None && Find(ms, "script") == None && Find(ms, "ai_declared") == None
  }

  /** The plan fields that name the operation and its target. */
  predicate NamesTarget(ms: seq<Member>, adapter: string, operation: string, t: Target) {
    && Find(ms, "adapter") == Some(Str(adapter)) && Find(ms, "operation") == Some(Str(operation))
    && Find(ms, "target_id") == Some(Str(t.id)) && Find(ms, "target_name") == Some(Str(t.name))
    && Find(ms, "target_external_id") == Some(Str(t.externalId))
  }

  /** The plan fields that name the plan's version, client and site. */
  predicate NamesSite(ms: seq<Member>, c: Client) {
    && Find(ms, "version") == Some(Int(1)) && Find(ms, "client_id") == Some(Str(c.clientId))
    && Find(ms, "site_id") == Some(Str(c.siteId))
  }

  predicate Carries(ms: seq<Member>, parameters: Json, executor: string, timeout: int, pre: Json) {
    && Find(ms, "parameters") == Some(parameters) && Find(ms, "executor") == Some(Str(executor))
    && Find(ms, "timeout_seconds") == Some(Int(timeout)) && Find(ms, "preconditions") == Some(pre)
  }

  lemma {:induction false} FoundHas(ms: seq<Member>, k: string)
    ensures HasKey(ms, k) <==> Find(ms, k).Some?
    ensures HasKey(ms, k) <==> exists i :: 0 <= i < |ms| && ms[i].key == k
  {
    HasKeyAt(ms, k);
    if ms == [] {
    } else {
      FoundHas(ms[1..], k);
    }
  }

  lemma IdentityFields(c: Client, adapter: string, operation: string, t: Target)
    ensures var ms := PlanIdentity(c, adapter, operation, t);
            AreFields(ms) && Bare(ms) && NamesSite(ms, c) && NamesTarget(ms, adapter, operation, t)
  {
    var ms := PlanIdentity(c, adapter, operation, t);
    FieldsByIndex(ms);
    FindAt(ms, 0); FindAt(ms, 1); FindAt(ms, 2); FindAt(ms, 3); FindAt(ms, 4); FindAt(ms, 5); FindAt(ms, 6); FindAt(ms, 7);
    FoundHas(ms, "steps"); FoundHas(ms, "script"); FoundHas(ms, "ai_declared");
  }

  lemma BodyFields(parameters: Json, executor: string, timeout: int, pre: Json)
    requires IsDict(parameters) && IsDict(pre)
    ensures var ms := PlanBody(parameters, executor, timeout, pre);
            AreFields(ms) && Bare(ms) && Carries(ms, parameters, executor, timeout, pre)
  {
    var ms := PlanBody(parameters, executor, timeout, pre);
    FieldsByIndex(ms);
    FindAt(ms, 0); FindAt(ms, 1); FindAt(ms, 2); FindAt(ms, 3);
    FoundHas(ms, "steps"); FoundHas(ms, "script"); FoundHas(ms, "ai_declared");
  }

  lemma PartsApart(c: Client, adapter: string, operation: string, t: Target, parameters: Json, executor: string,
                   timeout: int, pre: Json, k: string)
    requires HasKey(PlanIdentity(c, adapter, operation, t), k)
    ensures !HasKey(PlanBody(parameters, executor, timeout, pre), k)
  {
    FoundHas(PlanIdentity(c, adapter, operation, t), k);
    FoundHas(PlanBody(parameters, executor, timeout, pre), k);
  }

  lemma CoreFields(a: seq<Member>, b: seq<Member>, c: Client, adapter: string, operation: string, t: Target,
                   parameters: Json, executor: string, timeout: int, pre: Json)
    requires AreFields(a) && Bare(a) && NamesSite(a, c) && NamesTarget(a, adapter, operation, t)
    requires AreFields(b) && Bare(b) && Carries(b, parameters, executor, timeout, pre)
    requires forall k :: HasKey(a, k) ==> !HasKey(b, k)
    ensures AreFields(a + b) && NamesSite(a + b, c) && NamesTarget(a + b, adapter, operation, t)
    ensures Carries(a + b, parameters, executor, timeout, pre) && Bare(a + b)
  {
    JoinFields(a, b);
    forall k ensures Find(a + b, k) == if Find(a, k).Some? then Find(a, k) else Find(b, k) { FoundHas(a, k); }
    FoundHas(b, "parameters"); FoundHas(b, "executor"); FoundHas(b, "timeout_seconds"); FoundHas(b, "preconditions");
    FoundHas(a, "parameters"); FoundHas(a, "executor"); FoundHas(a, "timeout_seconds"); FoundHas(a, "preconditions");
  }

  lemma OptionalFields(k: string, v: Option<Json>)
    requires v.Some? ==> IsDict(v.value)
    ensures AreFields(Optional(k, v)) && forall q :: HasKey(Optional(k, v), q) ==> q == k
    ensures Find(Optional(k, v), k) == v
  {
    forall q | HasKey(Optional(k, v), q) ensures q == k { HasKeyAt(Optional(k, v), q); }
  }

  lemma AddOptional(ms: seq<Member>, k: string, v: Option<Json>)
    requires AreFields(ms) && !HasKey(ms, k) && (v.Some? ==> IsDict(v.value))
    ensures AreFields(ms + Optional(k, v))
    ensures Find(ms + Optional(k, v), k) == v
    ensures forall q :: q != k ==> Find(ms + Optional(k, v), q) == Find(ms, q)
  {
    OptionalFields(k, v);
    JoinFields(ms, Optional(k, v));
    forall q | q != k ensures Find(ms + Optional(k, v), q) == Find(ms, q) {
      FoundHas(ms, q); FoundHas(Optional(k, v), q);
    }
  }

  lemma AddOptionals(ms: seq<Member>, steps: Option<Json>, script: Option<Json>, declared: Option<Json>)
    requires AreFields(ms) && Bare(ms)
    requires (steps.Some? ==> IsDict(steps.value)) && (script.Some? ==> IsDict(script.value))
    requires declared.Some? ==> IsDict(declared.value)
    ensures var all := ms + Optional("steps", steps) + Optional("script", script) + Optional("ai_declared", declared);
            && AreFields(all) && Find(all, "steps") == steps && Find(all, "script") == script
            && Find(all, "ai_declared") == declared
            && forall q :: q != "steps" && q != "script" && q != "ai_declared" ==> Find(all, q) == Find(ms, q)
  {
    FoundHas(ms, "steps");
    AddOptional(ms, "steps", steps);
    var b := ms + Optional("steps", steps);
    FoundHas(b, "script");
    AddOptional(b, "script", script);
    var c := b + Optional("script", script);
    FoundHas(c, "ai_declared");
    AddOptional(c, "ai_declared", declared);
  }

  lemma SameFinds(a: seq<Member>, b: seq<Member>, c: Client, adapter: string, operation: string, t: Target,
                  parameters: Json, executor: string, timeout: int, pre: Json)
    requires forall q :: q != "steps" && q != "script" && q != "ai_declared" ==> Find(b, q) == Find(a, q)
    requires NamesSite(a, c) && NamesTarget(a, adapter, operation, t) && Carries(a, parameters, executor, timeout, pre)
    ensures NamesSite(b, c) && NamesTarget(b, adapter, operation, t) && Carries(b, parameters, executor, timeout, pre)
  {
  }

  /** A built plan is a dictionary, and every field of it is the one it was built from. */
  lemma PlanFields(c: Client, adapter: string, operation: string, t: Target, parameters: Json, executor: string,
                   timeout: int, pre: Json, steps: Option<Json>, script: Option<Json>, declared: Option<Json>)
    requires IsDict(parameters) && IsDict(pre)
    requires (steps.Some? ==> IsDict(steps.value)) && (script.Some? ==> IsDict(script.value))
    requires declared.Some? ==> IsDict(declared.value)
    ensures var plan := BuildPlan(c, adapter, operation, t, parameters, executor, timeout, pre, steps, script, declared);
            && IsDict(plan) && NamesSite(plan.members, c) && NamesTarget(plan.members, adapter, operation, t)
            && Carries(plan.members, parameters, executor, timeout, pre) && Find(plan.members, "steps") == steps
            && Find(plan.members, "script") == script && Find(plan.members, "ai_declared") == declared
  {
    IdentityFields(c, adapter, operation, t);
    BodyFields(parameters, executor, timeout, pre);
    var a, b := PlanIdentity(c, adapter, operation, t), PlanBody(parameters, executor, timeout, pre);
    forall k | HasKey(a, k) ensures !HasKey(b, k) {
      PartsApart(c, adapter, operation, t, parameters, executor, timeout, pre, k);
    }
    CoreFields(a, b, c, adapter, operation, t, parameters, executor, timeout, pre);
    AddOptionals(a + b, steps, script, declared);
    SameFinds(a + b, BuildPlan(c, adapter, operation, t, parameters, executor, timeout, pre, steps, script, declared).members,
              c, adapter, operation, t, parameters, executor, timeout, pre);
  }
}
