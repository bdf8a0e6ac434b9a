/** An approved Proxmox operation on its way to the host: the adapter's argument list, one command string over ssh,
    the dispatcher's check and word split, and the one program the host helper runs. */
module HostPath {
  import opened Options
  import opened JsonText
  import opened JsonProofs
  import opened Registry
  import opened Shell

  // ----- proxmox.py -----

  function Ext(executor: string): Option<(string, string)> {
    if executor == "vm_start" then Some(("qm", "start"))
    else if executor == "vm_shutdown" then Some(("qm", "shutdown"))
    else if executor == "vm_reboot" then Some(("qm", "reboot"))
    else if executor == "vm_stop" then Some(("qm", "stop"))
    else if executor == "ct_start" then Some(("pct", "start"))
    else if executor == "ct_shutdown" then Some(("pct", "shutdown"))
    else if executor == "ct_reboot" then Some(("pct", "reboot"))
    else if executor == "ct_stop" then Some(("pct", "stop"))
    else None
  }

  /** The words after `exec` for one operation; none when the adapter does not implement it. */
  function Target3(executor: string, externalId: string, parameters: Json): Option<seq<string>> {
    if Ext(executor).Some? then Some([Ext(executor).value.0, Ext(executor).value.1, externalId])
    else if executor == "zpool_scrub" && Get(parameters, "pool").Str? then Some(["zpool", "scrub", Get(parameters, "pool").s])
    else if executor == "service_restart" && Get(parameters, "unit").Str? then
      Some(["systemctl", "restart", Get(parameters, "unit").s])
    else None
  }

  function Argv(executor: string, externalId: string, parameters: Json): Option<seq<string>> {
    match Target3(executor, externalId, parameters)
    case Some(ws) => Some(["exec"] + ws)
    case None => None
  }

  // ----- msp-dispatch -----

  datatype Role = Broker | Interactive | Cron | Unknown

  datatype Routed = ToExec(args: seq<string>) | ToRead(args: seq<string>) | ToStage(args: seq<string>) | NoRoute

  const BROKER_READS := {"status", "qm-list", "pct-list", "qm-config", "pct-config", "qm-status", "pct-status",
                         "zpool-status", "pveversion", "service-status"}

  const READS := {"status", "qm-list", "pct-list", "zpool-status", "zfs-list", "pvesm-status", "pveversion", "df",
                  "read-state", "read-receipts", "read-new", "read-all", "journal", "qm-config", "pct-config",
                  "qm-pending", "qm-status", "pct-status", "service-status"}

  function Route(role: Role, ws: seq<string>): Routed
    requires ws != []
  {
    var verb := ws[0];
    if role == Broker then
      if verb == "exec" then ToExec(ws[1..])
      else if verb == "run-script" then ToExec(ws)
      else if verb in BROKER_READS then ToRead(ws)
      else NoRoute
    else if verb in READS then ToRead(ws)
    else if verb == "stage" && role == Interactive then ToStage(ws[1..])
    else NoRoute
  }

  function Dispatch(role: Option<Role>, cmd: string): Routed {
    if role == None || cmd == "" || !AllAllowed(cmd) then NoRoute
    else if Words(cmd) == [] then NoRoute
    else Route(role.value, Words(cmd))
  }

  lemma SplitDispatch(role: Role, cmd: string, ws: seq<string>)
    requires ws != [] && Words(cmd) == ws
    ensures Dispatch(Some(role), cmd) == if AllAllowed(cmd) then Route(role, ws) else NoRoute
  {
  }

  /** Where words sent under a key of this role end: staging is for the interactive key, execution and frozen scripts for
      the broker's, which otherwise reads with ten verbs only; every other key reads. `sent` says that the line holds no
      other character than the dispatcher lets through. */
  predicate RoutedAs(role: Role, ws: seq<string>, sent: bool, r: Routed)
    requires ws != []
  {
    var verb := ws[0];
    && (r.ToStage? <==> sent && role == Interactive && verb == "stage")
    && (r.ToExec? <==> sent && role == Broker && (verb == "exec" || verb == "run-script"))
    && (role == Broker ==>
          (r.ToRead? <==> sent && verb in {"status", "qm-list", "pct-list", "qm-config", "pct-config", "qm-status",
                                           "pct-status", "zpool-status", "pveversion", "service-status"}))
    && (role != Broker ==>
          (r.ToRead? <==> sent && verb in {"status", "qm-list", "pct-list", "zpool-status", "zfs-list", "pvesm-status",
                                           "pveversion", "df", "read-state", "read-receipts", "read-new", "read-all",
                                           "journal", "qm-config", "pct-config", "qm-pending", "qm-status", "pct-status",
                                           "service-status"}))
    && (r.ToStage? ==> r.args == ws[1..])
    && (r.ToExec? ==> r.args == if verb == "exec" then ws[1..] else ws)
    && (r.ToRead? ==> r.args == ws)
  }

  lemma BrokerRoutes(ws: seq<string>)
    requires ws != []
    ensures RoutedAs(Broker, ws, true, Route(Broker, ws))
  {
  }

  lemma StageIsNoRead()
    ensures "stage" !in READS
  {
  }

  lemma OtherRoutes(role: Role, ws: seq<string>)
    requires ws != [] && role != Broker
    ensures RoutedAs(role, ws, true, Route(role, ws))
  {
    StageIsNoRead();
  }

  lemma Routes(role: Role, ws: seq<string>, sent: bool, r: Routed)
    requires ws != [] && r == if sent then Route(role, ws) else NoRoute
    ensures RoutedAs(role, ws, sent, r)
  {
    if sent { if role == Broker { BrokerRoutes(ws); } else { OtherRoutes(role, ws); } }
  }

  /** For every role and every command line: nothing is reached without a role or without words, and otherwise only what
      the role's key may reach. */
  lemma RolesAreLimits(role: Role, cmd: string)
    ensures Dispatch(None, cmd) == NoRoute
    ensures if Words(cmd) == [] then Dispatch(Some(role), cmd) == NoRoute
            else RoutedAs(role, Words(cmd), Sendable(cmd), Dispatch(Some(role), cmd))
  {
    SendableIsAllowed(cmd);
    if Words(cmd) != [] { Routes(role, Words(cmd), Sendable(cmd), Dispatch(Some(role), cmd)); }
  }

  /** The dispatcher routes a list sent over ssh, or refuses it for a character outside its set. */
  lemma SshRoutes(role: Role, argv: seq<string>)
    requires argv != [] && AllPlain(argv)
    ensures Dispatch(Some(role), Join(argv)) ==
            if forall i :: 0 <= i < |argv| ==> AllAllowed(argv[i]) then Route(role, argv) else NoRoute
  {
    SplitPlain(argv);
    JoinAllowed(argv);
    SplitDispatch(role, Join(argv), argv);
  }

  predicate EachSendable(argv: seq<string>) { forall i :: 0 <= i < |argv| ==> Sendable(argv[i]) }

  lemma SshSends(role: Role, argv: seq<string>)
    requires argv != [] && AllPlain(argv)
    ensures Dispatch(Some(role), Join(argv)) == if EachSendable(argv) then Route(role, argv) else NoRoute
  {
    SshRoutes(role, argv);
    forall i | 0 <= i < |argv| ensures Sendable(argv[i]) <==> AllAllowed(argv[i]) { SendableIsAllowed(argv[i]); }
  }

  /** Over ssh an argument list becomes its words joined by spaces. The dispatcher routes exactly that list again, as far as
      the key's role goes, or refuses it for a character outside its set. */
  lemma SshKeepsArguments(role: Role, argv: seq<string>)
    requires argv != [] && AllPlain(argv)
    ensures RoutedAs(role, argv, EachSendable(argv), Dispatch(Some(role), Join(argv)))
  {
    SshSends(role, argv);
    Routes(role, argv, EachSendable(argv), Dispatch(Some(role), Join(argv)));
  }

  // ----- msp-execverb -----

  /** What the site's files and the machine say. */
  datatype Site = Site(exclude: string, operations: set<string>, services: set<string>, interpreters: set<string>,
                       tools: set<string>, pools: set<string>)

  datatype Ran = Exec(argv: seq<string>) | RunScript(interpreter: string, seconds: string) | NotHere | No

  predicate AllDigits(s: string) { forall i :: 0 <= i < |s| ==> IsDigit(s[i]) }

  predicate Vmid(s: string) { s != "" && s[0] != '0' && AllDigits(s) }

  /** `guests.exclude` is a list of ids; anything else in it refuses every guest. */
  predicate ExcludeReadable(e: string) { forall i :: 0 <= i < |e| ==> IsDigit(e[i]) || e[i] == ' ' }

  predicate GuestOpen(site: Site, id: string) {
    Vmid(id) && ExcludeReadable(site.exclude) && id !in Words(site.exclude)
  }

  const GUEST_ACTIONS := {"start", "shutdown", "reboot", "stop"}

  function Guest(site: Site, tool: string, prefix: string, action: string, id: string): Ran {
    if !GuestOpen(site, id) then No
    else if action !in GUEST_ACTIONS then No
    else if prefix + action !in site.operations then No
    else if tool !in site.tools then NotHere
    else Exec([tool, action, id])
  }

  predicate PoolName(s: string) { s != "" && forall c <- s :: PoolChar(c) }
  predicate UnitName(s: string) { s != "" && forall c <- s :: UnitChar(c) }

  function Zpool(site: Site, action: string, pool: string): Ran {
    if action != "scrub" || "zpool.scrub" !in site.operations || !PoolName(pool) then No
    else if "zpool" !in site.tools then NotHere
    else if pool !in site.pools then No
    else Exec(["zpool", "scrub", pool])
  }

  function Systemctl(site: Site, action: string, unit: string): Ran {
    if action != "restart" || "service.restart" !in site.operations || !UnitName(unit) || unit !in site.services then No
    else Exec(["systemctl", "restart", unit])
  }

  const INTMAX := 0x8000_0000_0000_0000

  predicate InterpreterName(s: string) {
    s != "" && forall c <- s :: Alnum(c) || c == '/' || c == '_' || c == '.' || c == '-'
  }

  /** The shell's number test fails, and so refuses nothing, on a number it cannot hold. */
  predicate TimeoutPasses(s: string) {
    s != "" && AllDigits(s) && (1 <= NatOf(s) <= 3600 || NatOf(s) >= INTMAX)
  }

  function Script(site: Site, interpreter: string, seconds: string): Ran {
    if "script.run" !in site.operations || !InterpreterName(interpreter) || interpreter !in site.interpreters then No
    else if !TimeoutPasses(seconds) then No
    else RunScript(interpreter, seconds)
  }

  function Arg(args: seq<string>, i: nat): string { if i < |args| then args[i] else "" }

  function ExecVerb(site: Site, args: seq<string>): Ran {
    var verb, a, b := Arg(args, 0), Arg(args, 1), Arg(args, 2);
    if verb == "qm" then Guest(site, "qm", "vm.", a, b)
    else if verb == "pct" then Guest(site, "pct", "ct.", a, b)
    else if verb == "zpool" then Zpool(site, a, b)
    else if verb == "systemctl" then Systemctl(site, a, b)
    else if verb == "run-script" then Script(site, a, b)
    else No
  }

  /** From the adapter's argument list to what the host runs. */
  function Deliver(site: Site, argv: seq<string>): Ran {
    match Dispatch(Some(Broker), Join(argv))
    case ToExec(args) => ExecVerb(site, args)
    case _ => No
  }

  // ----- what the helper runs, written out -----

  /** Only digits, not beginning with 0; the exclude list holds digits and spaces, and nowhere the id between spaces. */
  predicate OpenId(site: Site, id: string) {
    && id != "" && id[0] != '0' && (forall i :: 0 <= i < |id| ==> id[i] in DIGITS)
    && (forall i :: 0 <= i < |site.exclude| ==> site.exclude[i] in DIGITS + {' '})
    && forall i :: 0 <= i < |site.exclude| ==> !At(site.exclude, i, id)
  }

  lemma DigitsOnly(s: string)
    ensures AllDigits(s) <==> forall i :: 0 <= i < |s| ==> s[i] in DIGITS
    ensures ExcludeReadable(s) <==> forall i :: 0 <= i < |s| ==> s[i] in DIGITS + {' '}
  {
    forall i | 0 <= i < |s| ensures IsDigit(s[i]) <==> s[i] in DIGITS { Ranges(s[i]); }
  }

  lemma OpenIdIsOpen(site: Site, id: string)
    ensures OpenId(site, id) <==> GuestOpen(site, id)
  {
    DigitsOnly(id);
    DigitsOnly(site.exclude);
    if Vmid(id) {
      assert Plain(id);
      if id in Words(site.exclude) { var i := WordIsAt(site.exclude, id); AtStarts(site.exclude, i, id); }
      forall i: nat | i < |site.exclude| && At(site.exclude, i, id) ensures id in Words(site.exclude) {
        AtIsWord(site.exclude, i, id);
      }
    }
  }

  /** One name over letters, digits and these marks. */
  predicate NameOver(s: string, marks: set<char>) {
    s != "" && forall i :: 0 <= i < |s| ==> s[i] in UPPER + LOWER + DIGITS + marks
  }

  /** A guest's own tool with one of four actions on an open id, as the site's list names it. */
  predicate GuestRun(site: Site, args: seq<string>, argv: seq<string>) {
    && |args| >= 3 && argv == args[..3] && (args[0] == "qm" || args[0] == "pct")
    && (args[1] == "start" || args[1] == "shutdown" || args[1] == "reboot" || args[1] == "stop")
    && (if args[0] == "qm" then "vm." else "ct.") + args[1] in site.operations && args[0] in site.tools
    && OpenId(site, args[2])
  }

  predicate ScrubRun(site: Site, args: seq<string>, argv: seq<string>) {
    && |args| >= 3 && argv == args[..3] && args[0] == "zpool" && args[1] == "scrub" && "zpool.scrub" in site.operations
    && "zpool" in site.tools && args[2] in site.pools
    && NameOver(args[2], {'.', '_', ':', '-'})
  }

  predicate RestartRun(site: Site, args: seq<string>, argv: seq<string>) {
    && |args| >= 3 && argv == args[..3] && args[0] == "systemctl" && args[1] == "restart"
    && "service.restart" in site.operations && args[2] in site.services
    && NameOver(args[2], {'@', '.', '_', ':', '-'})
  }

  predicate ScriptRun(site: Site, args: seq<string>, interpreter: string, seconds: string) {
    && |args| >= 3 && args[0] == "run-script" && interpreter == args[1] && seconds == args[2]
    && "script.run" in site.operations && interpreter in site.interpreters
    && NameOver(interpreter, {'/', '_', '.', '-'})
    && seconds != "" && (forall i :: 0 <= i < |seconds| ==> seconds[i] in DIGITS)
    && (1 <= NatOf(seconds) <= 3600 || NatOf(seconds) >= 0x8000_0000_0000_0000)
  }

  lemma GuestExactly(site: Site, args: seq<string>, argv: seq<string>, tool: string, prefix: string)
    requires (tool == "qm" && prefix == "vm.") || (tool == "pct" && prefix == "ct.")
    requires Arg(args, 0) == tool
    ensures Guest(site, tool, prefix, Arg(args, 1), Arg(args, 2)) == Exec(argv) <==> GuestRun(site, args, argv)
    ensures !Guest(site, tool, prefix, Arg(args, 1), Arg(args, 2)).RunScript?
  {
    OpenIdIsOpen(site, Arg(args, 2));
  }

  lemma PoolChars(s: string)
    ensures PoolName(s) <==> NameOver(s, {'.', '_', ':', '-'})
  {
    forall i | 0 <= i < |s| ensures PoolChar(s[i]) <==> s[i] in UPPER + LOWER + DIGITS + {'.', '_', ':', '-'} {
      Ranges(s[i]);
    }
  }

  lemma UnitChars(s: string)
    ensures UnitName(s) <==> NameOver(s, {'@', '.', '_', ':', '-'})
  {
    forall i | 0 <= i < |s| ensures UnitChar(s[i]) <==> s[i] in UPPER + LOWER + DIGITS + {'@', '.', '_', ':', '-'} {
      Ranges(s[i]);
    }
  }

  lemma InterpreterChars(s: string)
    ensures InterpreterName(s) <==> NameOver(s, {'/', '_', '.', '-'})
  {
    forall i | 0 <= i < |s| ensures Alnum(s[i]) <==> s[i] in UPPER + LOWER + DIGITS { Ranges(s[i]); }
  }

  lemma ZpoolExactly(site: Site, args: seq<string>, argv: seq<string>)
    requires Arg(args, 0) == "zpool"
    ensures Zpool(site, Arg(args, 1), Arg(args, 2)) == Exec(argv) <==> ScrubRun(site, args, argv)
  {
    PoolChars(Arg(args, 2));
  }

  lemma SystemctlExactly(site: Site, args: seq<string>, argv: seq<string>)
    requires Arg(args, 0) == "systemctl"
    ensures Systemctl(site, Arg(args, 1), Arg(args, 2)) == Exec(argv) <==> RestartRun(site, args, argv)
  {
    UnitChars(Arg(args, 2));
  }

  lemma ScriptExactly(site: Site, args: seq<string>, interpreter: string, seconds: string)
    requires Arg(args, 0) == "run-script"
    ensures Script(site, Arg(args, 1), Arg(args, 2)) == RunScript(interpreter, seconds) <==>
              ScriptRun(site, args, interpreter, seconds)
  {
    InterpreterChars(Arg(args, 1));
    DigitsOnly(Arg(args, 2));
  }

  /** Whatever words reach the helper: it runs a guest tool, a scrub, a restart or a script under exactly these
      conditions, and nothing else. */
  lemma HelperRuns(site: Site, args: seq<string>)
    ensures forall argv :: ExecVerb(site, args) == Exec(argv) <==>
              GuestRun(site, args, argv) || ScrubRun(site, args, argv) || RestartRun(site, args, argv)
    ensures forall i, n :: ExecVerb(site, args) == RunScript(i, n) <==> ScriptRun(site, args, i, n)
  {
    forall argv ensures ExecVerb(site, args) == Exec(argv) <==>
                          GuestRun(site, args, argv) || ScrubRun(site, args, argv) || RestartRun(site, args, argv)
    {
      if Arg(args, 0) == "qm" { GuestExactly(site, args, argv, "qm", "vm."); }
      if Arg(args, 0) == "pct" { GuestExactly(site, args, argv, "pct", "ct."); }
      if Arg(args, 0) == "zpool" { ZpoolExactly(site, args, argv); }
      if Arg(args, 0) == "systemctl" { SystemctlExactly(site, args, argv); }
    }
    forall i, n ensures ExecVerb(site, args) == RunScript(i, n) <==> ScriptRun(site, args, i, n) {
      if Arg(args, 0) == "run-script" { ScriptExactly(site, args, i, n); }
    }
  }

  // ----- end to end -----

  lemma ExecWordPlain()
    ensures Plain("exec") && AllAllowed("exec")
  {
  }

  lemma ExecArrives(site: Site, ws: seq<string>)
    requires AllPlain(ws)
    ensures Deliver(site, ["exec"] + ws) ==
            if forall i :: 0 <= i < |ws| ==> AllAllowed(ws[i]) then ExecVerb(site, ws) else No
  {
    var argv := ["exec"] + ws;
    ExecWordPlain();
    forall i | 0 <= i < |argv| ensures Plain(argv[i]) { if i > 0 { assert argv[i] == ws[i - 1]; } }
    SshRoutes(Broker, argv);
    assert argv[1..] == ws;
    if forall i :: 0 <= i < |argv| ==> AllAllowed(argv[i]) {
      forall i | 0 <= i < |ws| ensures AllAllowed(ws[i]) { assert ws[i] == argv[i + 1]; }
    } else {
      var k :| 0 <= k < |argv| && !AllAllowed(argv[k]);
      assert ws[k - 1] == argv[k];
    }
  }

  lemma WordsOfTables(executor: string)
    requires Ext(executor).Some?
    ensures var (tool, action) := Ext(executor).value;
            Plain(tool) && Plain(action) && AllAllowed(tool) && AllAllowed(action)
  {
  }

  /** The executor of each registered guest operation. */
  predicate GuestPair(name: string, executor: string) {
    || (name == "vm.start" && executor == "vm_start") || (name == "vm.shutdown" && executor == "vm_shutdown")
    || (name == "vm.reboot" && executor == "vm_reboot") || (name == "vm.stop" && executor == "vm_stop")
    || (name == "ct.start" && executor == "ct_start") || (name == "ct.shutdown" && executor == "ct_shutdown")
    || (name == "ct.reboot" && executor == "ct_reboot") || (name == "ct.stop" && executor == "ct_stop")
  }

  lemma GuestPairs(name: string)
    requires GetOperation(name).Some? && Ext(GetOperation(name).value.executor).Some?
    ensures GuestPair(name, GetOperation(name).value.executor)
  {
  }

  /** The tool and action of each, as its name spells them. */
  predicate Spells(name: string, tool: string, action: string) {
    && action in GUEST_ACTIONS && (tool == "qm" || tool == "pct")
    && name == (if tool == "qm" then "vm." else "ct.") + action
  }

  lemma PairSpells(name: string, executor: string)
    requires GuestPair(name, executor)
    ensures Ext(executor).Some? && Spells(name, Ext(executor).value.0, Ext(executor).value.1)
  {
  }

  /** The registered guest operations: what each one's executor runs, and the allowlist line that admits it. */
  lemma GuestOperation(name: string)
    requires GetOperation(name).Some? && Ext(GetOperation(name).value.executor).Some?
    ensures var (tool, action) := Ext(GetOperation(name).value.executor).value;
            Spells(name, tool, action)
  {
    GuestPairs(name);
    PairSpells(name, GetOperation(name).value.executor);
  }

  lemma DigitsAllowed(s: string)
    requires AllDigits(s)
    ensures AllAllowed(s)
  {
  }

  lemma GuestRuns(site: Site, ws: seq<string>, name: string)
    requires |ws| >= 2 && Spells(name, ws[0], ws[1])
    ensures var id := Arg(ws, 2);
            ExecVerb(site, ws) ==
            if !GuestOpen(site, id) || name !in site.operations then No
            else if ws[0] in site.tools then Exec([ws[0], ws[1], id]) else NotHere
  {
  }

  lemma WordThen(a: string, ws: seq<string>, words: seq<string>)
    requires Plain(a) && ws != [] && Words(Join(ws)) == words
    ensures Words(Join([a] + ws)) == [a] + words
  {
    JoinMore(a, ws);
    WordsAfter(a, Join(ws));
  }

  /** The last of four words may be any text: its own words follow the other three. */
  lemma FourWords(a: string, b: string, c: string, d: string)
    requires Plain(a) && Plain(b) && Plain(c)
    ensures Words(Join([a, b, c, d])) == [a, b, c] + Words(d)
  {
    WordThen(c, [d], Words(d));
    WordThen(b, [c] + [d], [c] + Words(d));
    WordThen(a, [b] + ([c] + [d]), [b] + ([c] + Words(d)));
    assert [a, b, c, d] == [a] + ([b] + ([c] + [d]));
    assert [a, b, c] + Words(d) == [a] + ([b] + ([c] + Words(d)));
  }

  lemma FourAllowed(a: string, b: string, c: string, d: string)
    requires AllAllowed(a) && AllAllowed(b) && AllAllowed(c)
    ensures AllAllowed(Join([a, b, c, d])) <==> AllAllowed(d)
  {
    var ws := [a, b, c, d];
    JoinAllowed(ws);
    if !AllAllowed(d) { assert !AllAllowed(ws[3]); }
  }

  lemma DeliversWords(site: Site, argv: seq<string>, verb: string, ws: seq<string>)
    requires verb == "exec" && Words(Join(argv)) == [verb] + ws
    ensures Deliver(site, argv) == if AllAllowed(Join(argv)) then ExecVerb(site, ws) else No
  {
    SplitDispatch(Broker, Join(argv), [verb] + ws);
    assert ([verb] + ws)[1..] == ws;
  }

  lemma ThreeThen(verb: string, tool: string, action: string, id: string)
    requires Plain(verb) && Plain(tool) && Plain(action) && AllAllowed(verb) && AllAllowed(tool) && AllAllowed(action)
    ensures var argv := [verb] + [tool, action, id];
            Words(Join(argv)) == [verb] + ([tool, action] + Words(id)) && (AllAllowed(Join(argv)) <==> AllAllowed(id))
  {
    assert [verb] + [tool, action, id] == [verb, tool, action, id];
    FourWords(verb, tool, action, id);
    FourAllowed(verb, tool, action, id);
    assert [verb, tool, action] + Words(id) == [verb] + ([tool, action] + Words(id));
  }

  /** Whatever the external id holds, its words follow the tool and the action. */
  lemma GuestArrives(site: Site, tool: string, action: string, id: string)
    requires Plain(tool) && Plain(action) && AllAllowed(tool) && AllAllowed(action)
    ensures Deliver(site, ["exec"] + [tool, action, id]) ==
            if AllAllowed(id) then ExecVerb(site, [tool, action] + Words(id)) else No
  {
    ExecWordPlain();
    ThreeThen("exec", tool, action, id);
    DeliversWords(site, ["exec"] + [tool, action, id], "exec", [tool, action] + Words(id));
  }

  lemma OpenIsOneWord(site: Site, id: string)
    requires GuestOpen(site, id)
    ensures Plain(id) && AllAllowed(id) && Words(id) == [id]
  {
    DigitsAllowed(id);
    OneWord(id);
  }

  /** What the helper makes of an external id, by its first word. */
  lemma GuestDelivers(site: Site, name: string, tool: string, action: string, id: string)
    requires Spells(name, tool, action)
    ensures var ran := if AllAllowed(id) then ExecVerb(site, [tool, action] + Words(id)) else No;
            && (ran == Exec([tool, action, id]) <==> GuestOpen(site, id) && name in site.operations && tool in site.tools)
            && (ran.Exec? ==> ran.argv == [tool, action, Arg(Words(id), 0)])
            && !ran.RunScript?
  {
    var ws := [tool, action] + Words(id);
    assert ws[0] == tool && ws[1] == action && Arg(ws, 2) == Arg(Words(id), 0);
    GuestRuns(site, ws, name);
    if GuestOpen(site, id) { OpenIsOneWord(site, id); }
    assert [tool, action, Arg(ws, 2)][2] == Arg(ws, 2) && [tool, action, id][2] == id;
  }

  /** A guest operation runs `tool action vmid` on the host exactly when the target's external id is a plain vmid that is not
      excluded, the allowlist holds the operation's own registry name, and the tool is installed. Whatever the external id
      holds, nothing else is ever run for it than the operation on its first word. */
  lemma GuestReachesHost(site: Site, name: string, externalId: string, parameters: Json)
    requires GetOperation(name).Some? && Ext(GetOperation(name).value.executor).Some?
    ensures var op := GetOperation(name).value;
            var (tool, action) := Ext(op.executor).value;
            var argv := Argv(op.executor, externalId, parameters);
            && argv.Some?
            && (Deliver(site, argv.value) == Exec([tool, action, externalId]) <==>
                  OpenId(site, externalId) && name in site.operations && tool in site.tools)
            && (Deliver(site, argv.value).Exec? ==> Deliver(site, argv.value).argv == [tool, action, Arg(Words(externalId), 0)])
            && !Deliver(site, argv.value).RunScript?
  {
    var op := GetOperation(name).value;
    GuestOperation(name);
    WordsOfTables(op.executor);
    var (tool, action) := Ext(op.executor).value;
    GuestArrives(site, tool, action, externalId);
    GuestDelivers(site, name, tool, action, externalId);
    OpenIdIsOpen(site, externalId);
  }

  lemma ValidPool(s: string)
    requires MatchesPool(s)
    ensures s != "" && ' ' !in s
    ensures s[|s| - 1] != '\n' ==> PoolName(s) && AllAllowed(s)
    ensures s[|s| - 1] == '\n' ==> !AllAllowed(s)
  {
    if AllPool(s) {
      forall i | 0 <= i < |s| ensures Allowed(s[i]) { assert s[i] in s; }
    } else {
      forall c | c in s ensures c != ' ' {
        var i :| 0 <= i < |s| && s[i] == c;
        if i < |s| - 1 { assert s[..|s| - 1][i] in s[..|s| - 1]; }
      }
    }
  }

  lemma ValidUnit(s: string)
    requires MatchesUnit(s)
    ensures s != "" && ' ' !in s
    ensures s[|s| - 1] != '\n' ==> UnitName(s) && AllAllowed(s)
    ensures s[|s| - 1] == '\n' ==> !AllAllowed(s)
  {
    if AllUnit(s) {
      forall i | 0 <= i < |s| ensures Allowed(s[i]) { assert s[i] in s; }
    } else {
      forall c | c in s ensures c != ' ' {
        var i :| 0 <= i < |s| && s[i] == c;
        if i < |s| - 1 { assert s[..|s| - 1][i] in s[..|s| - 1]; }
      }
    }
  }

  lemma NodeWords()
    ensures AllPlain(["zpool", "scrub"]) && AllAllowed("zpool") && AllAllowed("scrub")
    ensures AllPlain(["systemctl", "restart"]) && AllAllowed("systemctl") && AllAllowed("restart")
  {
  }

  lemma ThreeArrive(site: Site, a: string, b: string, c: string)
    requires Plain(a) && Plain(b) && Plain(c) && AllAllowed(a) && AllAllowed(b)
    ensures Deliver(site, ["exec"] + [a, b, c]) == if AllAllowed(c) then ExecVerb(site, [a, b, c]) else No
  {
    var ws := [a, b, c];
    ExecArrives(site, ws);
    if !AllAllowed(c) { assert !AllAllowed(ws[2]); }
  }

  lemma ScrubVerb(site: Site, ws: seq<string>, pool: string)
    requires ws == ["zpool", "scrub", pool]
    ensures ExecVerb(site, ws) == Zpool(site, "scrub", pool)
  {
  }

  lemma RestartVerb(site: Site, ws: seq<string>, unit: string)
    requires ws == ["systemctl", "restart", unit]
    ensures ExecVerb(site, ws) == Systemctl(site, "restart", unit)
  {
  }

  /** A scrub of a validated pool name reaches `zpool scrub` exactly when the name is one line (validation lets a
      trailing newline through, the dispatcher does not), the operation is allowed here and the pool exists. */
  lemma ScrubReachesHost(site: Site, externalId: string, parameters: Json)
    requires Registry.Valid(PoolKind, Get(parameters, "pool"))
    ensures var pool := Get(parameters, "pool").s;
            var argv := Argv("zpool_scrub", externalId, parameters);
            && argv.Some? && pool != ""
            && (Deliver(site, argv.value) == Exec(["zpool", "scrub", pool]) <==>
                  pool[|pool| - 1] != '\n' && "zpool.scrub" in site.operations && "zpool" in site.tools && pool in site.pools)
            && (Deliver(site, argv.value).Exec? ==> Deliver(site, argv.value).argv == ["zpool", "scrub", pool])
            && !Deliver(site, argv.value).RunScript?
  {
    var pool := Get(parameters, "pool").s;
    ValidPool(pool);
    NodeWords();
    assert Plain(["zpool", "scrub"][0]) && Plain(["zpool", "scrub"][1]);
    ThreeArrive(site, "zpool", "scrub", pool);
    ScrubVerb(site, ["zpool", "scrub", pool], pool);
  }

  /** A restart of a validated unit name reaches `systemctl restart` exactly when the name is one line, the operation is
      allowed here and the unit is on the site's list. */
  lemma RestartReachesHost(site: Site, externalId: string, parameters: Json)
    requires Registry.Valid(UnitKind, Get(parameters, "unit"))
    ensures var unit := Get(parameters, "unit").s;
            var argv := Argv("service_restart", externalId, parameters);
            && argv.Some? && unit != ""
            && (Deliver(site, argv.value) == Exec(["systemctl", "restart", unit]) <==>
                  unit[|unit| - 1] != '\n' && "service.restart" in site.operations && unit in site.services)
            && (Deliver(site, argv.value).Exec? ==> Deliver(site, argv.value).argv == ["systemctl", "restart", unit])
            && !Deliver(site, argv.value).RunScript?
  {
    var unit := Get(parameters, "unit").s;
    ValidUnit(unit);
    NodeWords();
    assert Plain(["systemctl", "restart"][0]) && Plain(["systemctl", "restart"][1]);
    ThreeArrive(site, "systemctl", "restart", unit);
    RestartVerb(site, ["systemctl", "restart", unit], unit);
  }

  lemma DecimalPlain(n: nat)
    ensures Plain(Decimal(n)) && AllDigits(Decimal(n)) && AllAllowed(Decimal(n)) && NatOf(Decimal(n)) == n
  {
    DecimalReads(n);
    forall i | 0 <= i < |Decimal(n)| ensures IsDigit(Decimal(n)[i]) { assert Decimal(n)[i] in Decimal(n); }
  }

  lemma RunScriptWord()
    ensures Plain("run-script") && AllAllowed("run-script")
  {
  }

  lemma InterpreterPlain(s: string)
    ensures InterpreterName(s) ==> Plain(s)
  {
  }

  /** Whatever the host runs a script with is one of the words it split. */
  lemma Unsplit(site: Site, interpreter: string, seconds: string)
    requires !Plain(interpreter)
    ensures Deliver(site, ["run-script", interpreter, seconds]) != RunScript(interpreter, seconds)
    ensures !InterpreterName(interpreter)
  {
    InterpreterPlain(interpreter);
    var cmd := Join(["run-script", interpreter, seconds]);
    assert forall i :: 0 <= i < |Words(cmd)| ==> Plain(Words(cmd)[i]);
  }

  lemma NotAsNumber(site: Site, argv: seq<string>, interpreter: string, seconds: string)
    requires !AllDigits(seconds)
    ensures Deliver(site, argv) != RunScript(interpreter, seconds)
  {
  }

  lemma CountedScript(site: Site, interpreter: string, timeout: nat)
    ensures Deliver(site, ["run-script", interpreter, Decimal(timeout)]) == RunScript(interpreter, Decimal(timeout)) <==>
              && "script.run" in site.operations && InterpreterName(interpreter) && interpreter in site.interpreters
              && (1 <= timeout <= 3600 || timeout >= INTMAX)
  {
    var argv := ["run-script", interpreter, Decimal(timeout)];
    DecimalPlain(timeout);
    RunScriptWord();
    if Plain(interpreter) {
      SshRoutes(Broker, argv);
      assert AllAllowed(argv[0]) && AllAllowed(argv[2]);
      if InterpreterName(interpreter) { assert AllAllowed(argv[1]); }
    } else {
      Unsplit(site, interpreter, Decimal(timeout));
    }
  }

  /** A frozen script is handed to its interpreter with its timeout exactly when the host allows both; a timeout the
      helper's number test cannot hold is let through. */
  lemma ScriptReachesHost(site: Site, interpreter: string, timeout: int)
    ensures Deliver(site, ["run-script", interpreter, PrintInt(timeout)]) == RunScript(interpreter, PrintInt(timeout)) <==>
              && "script.run" in site.operations && NameOver(interpreter, {'/', '_', '.', '-'}) && interpreter in site.interpreters
              && (1 <= timeout <= 3600 || timeout >= 0x8000_0000_0000_0000)
  {
    InterpreterChars(interpreter);
    if timeout >= 0 {
      CountedScript(site, interpreter, timeout);
    } else {
      assert PrintInt(timeout)[0] == '-';
      NotAsNumber(site, ["run-script", interpreter, PrintInt(timeout)], interpreter, PrintInt(timeout));
    }
  }
}
