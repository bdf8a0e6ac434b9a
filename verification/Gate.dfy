/** The host gate: `msp-stage` puts one command in the slot, `msp-gate step` takes it out, checks it again and runs it. */
module Gate {
  import opened Options
  import opened Shell
  import Calendar
  import HostPath

  /** The never-list and the deny-list, one pattern a line. */
  datatype Lists = Lists(never: seq<string>, deny: seq<string>)

  datatype File = File(content: string, mtime: int, inode: nat)

  /** One command the gate ran, and the file it came from. */
  datatype Ran = Ran(inode: nat, argv: seq<string>)

  datatype Box = Box(spool: Option<File>, nextInode: nat, runs: seq<Ran>)

  /** What one `msp-stage` finds: its arguments, the lists, a recording, the clock, the timestamp it prints, whether its
      temporary file can be made and written, and when it was. */
  datatype StageIn = StageIn(args: seq<string>, lists: Lists, recording: bool, now: int, stamp: string,
                             temp: bool, wrote: bool, writtenAt: int)

  /** What one `msp-gate step` finds: the clock, what `date -d` makes of a text it was not printed by, the code shown,
      what the operator types. */
  datatype StepIn = StepIn(lists: Lists, now: int, odd: Option<int>, code: string, answer: string, target: string)

  datatype Outcome = Staged | Refused | NothingStaged | BadSpool | Late | Listed | Aborted | Run

  const LABELS := {"SAFE", "SENSITIVE", "CREDENTIAL", "DESTRUCTIVE"}
  const LIFE := 1800

  /** A line of the list that is not empty stands in the command, whatever the case of the letters. */
  predicate Hits(list: seq<string>, cmd: string) {
    exists k :: 0 <= k < |list| && list[k] != "" && Within(list[k], cmd)
  }

  predicate ListedFor(lists: Lists, tag: string, cmd: string) {
    Hits(lists.never, cmd) || (tag != "DESTRUCTIVE" && Hits(lists.deny, cmd))
  }

  // ----- timestamps -----

  const UNIX_EPOCH := 62135596800

  function Unix(t: Calendar.Stamp): int { Calendar.Seconds(t) - UNIX_EPOCH }

  lemma EpochIs1970(t: Calendar.Stamp)
    requires t.year == 1970 && t.month == 1 && t.day == 1
    ensures Unix(t) == Calendar.SecondOfDay(t)
  {
    Calendar.DayCount(t.year);
  }

  predicate StampChar(c: char) {
    '0' <= c <= '9' || c == 'T' || c == 'Z' || c == ':' || c == '-'
  }

  predicate StampText(s: string) { s != "" && forall i :: 0 <= i < |s| ==> StampChar(s[i]) }

  /** `date -d "$when" +%s || echo 0` */
  function DateOf(text: string, odd: Option<int>): int {
    match Calendar.Parse(text)
    case Some(t) => Unix(t)
    case None => if odd.Some? then odd.value else 0
  }

  // ----- msp-stage -----

  predicate Pending(box: Box, now: int) { box.spool.Some? && now - box.spool.value.mtime < LIFE }

  function Record(tag: string, stamp: string, cmd: string): string {
    tag + "\n" + stamp + "\n" + cmd + "\n"
  }

  predicate Stageable(e: StageIn) {
    && |e.args| >= 2 && e.args[0] in LABELS && e.args[1] == "--" && Join(e.args[2..]) != ""
    && !ListedFor(e.lists, e.args[0], Join(e.args[2..])) && e.recording
  }

  function StageBox(box: Box, e: StageIn): (Box, Outcome) {
    if !Stageable(e) || Pending(box, e.now) then (box, Refused)
    else if !e.temp then (box.(spool := None), Refused)
    else if !e.wrote then (box.(spool := None), Staged)
    else (Box(Some(File(Record(e.args[0], e.stamp, Join(e.args[2..])), e.writtenAt, box.nextInode)),
              box.nextInode + 1, box.runs), Staged)
  }

  // ----- msp-gate step -----

  datatype Parsed = Parsed(tag: string, when: string, cmd: string)

  function Parse(content: string): Parsed {
    var s := Strip(content);
    Parsed(Line(s, 1), Line(s, 2), Line(s, 3))
  }

  function Age(p: Parsed, e: StepIn): int { e.now - DateOf(p.when, e.odd) }

  predicate TargetChar(c: char) { Alnum(c) || c == '_' || c == '.' || c == ':' || c == '-' }

  /** The typed target is a word in its alphabet and stands in the command between spaces. */
  predicate TargetOk(cmd: string, target: string) {
    && target != "" && (forall i :: 0 <= i < |target| ==> TargetChar(target[i]))
    && Contains(" " + cmd + " ", " " + target + " ")
  }

  function Verdict(p: Parsed, e: StepIn): Outcome {
    if p.tag !in LABELS || !StampText(p.when) then BadSpool
    else if Age(p, e) > LIFE then Late
    else if !AllAllowed(p.cmd) then BadSpool
    else if ListedFor(e.lists, p.tag, p.cmd) then Listed
    else if e.answer != e.code || (p.tag == "DESTRUCTIVE" && !TargetOk(p.cmd, e.target)) then Aborted
    else Run
  }

  function StepBox(box: Box, e: StepIn): (Box, Outcome) {
    if box.spool.None? then (box, NothingStaged)
    else
      var p, empty := Parse(box.spool.value.content), box.(spool := None);
      if Verdict(p, e) == Run
      then (empty.(runs := box.runs + [Ran(box.spool.value.inode, Words(p.cmd))]), Run)
      else (empty, Verdict(p, e))
  }

  // ----- runs of the slot -----

  datatype Choice = DoStage(e: StageIn) | DoStep(s: StepIn) | Plant(content: string, mtime: int)

  function Next(box: Box, c: Choice): Box {
    match c
    case DoStage(e) => StageBox(box, e).0
    case DoStep(e) => StepBox(box, e).0
    case Plant(content, mtime) => Box(Some(File(content, mtime, box.nextInode)), box.nextInode + 1, box.runs)
  }

  function After(box: Box, cs: seq<Choice>): Box {
    if cs == [] then box else Next(After(box, cs[..|cs| - 1]), cs[|cs| - 1])
  }

  predicate Empty(box: Box) { box.spool == None && box.runs == [] }

  // ----- what is staged and what runs, written out -----

  predicate TypedTarget(words: seq<string>, target: string) {
    target in words && forall i :: 0 <= i < |target| ==> target[i] in UPPER + LOWER + DIGITS + {'_', '.', ':', '-'}
  }

  lemma TargetChars(target: string)
    ensures (forall i :: 0 <= i < |target| ==> TargetChar(target[i])) <==>
              forall i :: 0 <= i < |target| ==> target[i] in UPPER + LOWER + DIGITS + {'_', '.', ':', '-'}
  {
    forall i | 0 <= i < |target|
      ensures TargetChar(target[i]) <==> target[i] in UPPER + LOWER + DIGITS + {'_', '.', ':', '-'}
    {
      Ranges(target[i]);
    }
  }

  lemma TargetIsAWord(cmd: string, target: string)
    ensures TargetOk(cmd, target) <==> TypedTarget(Words(cmd), target)
  {
    TargetChars(target);
    if target != "" && forall i :: 0 <= i < |target| ==> TargetChar(target[i]) {
      assert ' ' !in target;
      PaddedSubstring(cmd, target);
    }
  }

  /** No line of the never-list stands in the command, and none of the deny-list unless the label is DESTRUCTIVE. */
  predicate Clear(lists: Lists, tag: string, cmd: string) {
    && (forall k :: 0 <= k < |lists.never| && lists.never[k] != "" ==> !Within(lists.never[k], cmd))
    && (tag != "DESTRUCTIVE" ==> forall k :: 0 <= k < |lists.deny| && lists.deny[k] != "" ==> !Within(lists.deny[k], cmd))
  }

  /** What `msp-stage` asks of its arguments and of the host. */
  predicate MayStage(e: StageIn) {
    && |e.args| >= 2 && e.args[0] in {"SAFE", "SENSITIVE", "CREDENTIAL", "DESTRUCTIVE"} && e.args[1] == "--"
    && Join(e.args[2..]) != "" && Clear(e.lists, e.args[0], Join(e.args[2..])) && e.recording
  }

  /** At most 1800 seconds old, under lists that do not match, with the right code and, if DESTRUCTIVE, one of the words
      as target. */
  predicate Accepts(g: StepIn, age: int, tag: string, words: seq<string>, cmd: string) {
    && age <= 1800 && g.answer == g.code && Clear(g.lists, tag, cmd)
    && (tag == "DESTRUCTIVE" ==> TypedTarget(words, g.target))
  }

  /** A time line holds digits and `TZ:-`. */
  predicate TimeLine(s: string) { s != "" && forall i :: 0 <= i < |s| ==> s[i] in DIGITS + {'T', 'Z', ':', '-'} }

  lemma TimeLineIsStamp(s: string)
    ensures TimeLine(s) <==> StampText(s)
  {
    forall i | 0 <= i < |s| ensures StampChar(s[i]) <==> s[i] in DIGITS + {'T', 'Z', ':', '-'} { Ranges(s[i]); }
  }

  lemma ClearIsUnlisted(lists: Lists, tag: string, cmd: string)
    ensures Clear(lists, tag, cmd) <==> !ListedFor(lists, tag, cmd)
  {
  }

  /** A file that a step may run: a label, a timestamp at most 1800 s before the step, a command of allowed characters that
      no list forbids, the right code and, if DESTRUCTIVE, one of its words as target. */
  predicate Fit(content: string, e: StepIn) {
    var p := Parse(content);
    var when := Calendar.Parse(p.when);
    && p.tag in {"SAFE", "SENSITIVE", "CREDENTIAL", "DESTRUCTIVE"} && TimeLine(p.when) && Sendable(p.cmd)
    && Accepts(e, e.now - (if when.Some? then Unix(when.value) else if e.odd.Some? then e.odd.value else 0),
               p.tag, Words(p.cmd), p.cmd)
  }

  /** A step empties the slot, and runs the words of the file's command exactly when the file is fit. */
  lemma StepRunsTheFit(box: Box, e: StepIn)
    ensures var (after, o) := StepBox(box, e);
            && after.spool == None
            && (o == Run <==> box.spool.Some? && Fit(box.spool.value.content, e))
            && after.runs == if o == Run
                             then box.runs + [Ran(box.spool.value.inode, Words(Parse(box.spool.value.content).cmd))]
                             else box.runs
  {
    if box.spool.Some? {
      var p := Parse(box.spool.value.content);
      TargetIsAWord(p.cmd, e.target);
      TimeLineIsStamp(p.when);
      SendableIsAllowed(p.cmd);
      ClearIsUnlisted(e.lists, p.tag, p.cmd);
    }
  }

  // ----- the two programs -----

  class GateHost {
    var spool: Option<File>
    var nextInode: nat
    var runs: seq<Ran>

    constructor ()
      ensures Content() == Box(None, 0, [])
    {
      spool, nextInode, runs := None, 0, [];
    }

    ghost function Content(): Box
      reads this
    {
      Box(spool, nextInode, runs)
    }

    /** The loop over one list file; empty lines match nothing. */
    method Matches(list: seq<string>, cmd: string) returns (hit: bool)
      ensures hit <==> exists k :: 0 <= k < |list| && list[k] != "" && Within(list[k], cmd)
    {
      for k := 0 to |list|
        invariant !Hits(list[..k], cmd)
      {
        LowerContains(cmd, list[k]);
        if list[k] != "" && Contains(Lower(cmd), Lower(list[k])) { return true; }
      }
      assert list[..|list|] == list;
      return false;
    }

    method CheckLists(lists: Lists, tag: string, cmd: string) returns (hit: bool)
      ensures !hit <==> && (forall k :: 0 <= k < |lists.never| && lists.never[k] != "" ==> !Within(lists.never[k], cmd))
                        && (tag != "DESTRUCTIVE" ==>
                              forall k :: 0 <= k < |lists.deny| && lists.deny[k] != "" ==> !Within(lists.deny[k], cmd))
    {
      hit := Matches(lists.never, cmd);
      if hit { return; }
      if tag != "DESTRUCTIVE" { hit := Matches(lists.deny, cmd); }
    }

    /** A command is staged exactly when its label, its words and the lists allow it, a recording runs, no younger file is
        in the slot and the temporary file can be made. */
    method Stage(e: StageIn) returns (o: Outcome)
      modifies this
      ensures (Content(), o) == StageBox(old(Content()), e)
      ensures o == Staged <==> MayStage(e) && !(old(spool).Some? && e.now - old(spool).value.mtime < 1800) && e.temp
      ensures o == Staged && e.wrote ==>
                spool == Some(File(e.args[0] + "\n" + e.stamp + "\n" + Join(e.args[2..]) + "\n", e.writtenAt,
                                   old(nextInode)))
    {
      var tag := HostPath.Arg(e.args, 0);
      if tag !in LABELS { return Refused; }
      if HostPath.Arg(e.args, 1) != "--" { return Refused; }
      var cmd := Join(e.args[2..]);
      if cmd == "" { return Refused; }
      var hit := CheckLists(e.lists, tag, cmd);
      if hit || !e.recording { return Refused; }
      if spool.Some? {
        if e.now - spool.value.mtime < LIFE { return Refused; }
        spool := None;
      }
      if !e.temp { return Refused; }
      if e.wrote {
        spool := Some(File(Record(tag, e.stamp, cmd), e.writtenAt, nextInode));
        nextInode := nextInode + 1;
      }
      return Staged;
    }

    /** The slot is emptied, and the words of its command run exactly when its file is fit. */
    method Step(e: StepIn) returns (o: Outcome)
      modifies this
      ensures (Content(), o) == StepBox(old(Content()), e)
      ensures spool == None && (o == Run <==> old(spool).Some? && Fit(old(spool).value.content, e))
      ensures runs == if o == Run
                      then old(runs) + [Ran(old(spool).value.inode, Words(Parse(old(spool).value.content).cmd))]
                      else old(runs)
    {
      StepRunsTheFit(Content(), e);
      if spool.None? { return NothingStaged; }
      var file := spool.value;
      spool := None;
      var p := Parse(file.content);
      if p.tag !in LABELS { return BadSpool; }
      if !StampText(p.when) { return BadSpool; }
      var age := e.now - DateOf(p.when, e.odd);
      if age > LIFE { return Late; }
      if !AllAllowed(p.cmd) { return BadSpool; }
      var hit := CheckLists(e.lists, p.tag, p.cmd);
      if hit { return Listed; }
      if e.answer != e.code { return Aborted; }
      if p.tag == "DESTRUCTIVE" && !TargetOk(p.cmd, e.target) { return Aborted; }
      runs := runs + [Ran(file.inode, Words(p.cmd))];
      return Run;
    }
  }

  // ----- every run -----

  predicate BoxInv(box: Box) {
    && (box.spool.Some? ==> box.spool.value.inode < box.nextInode)
    && (forall i :: 0 <= i < |box.runs| ==>
          box.runs[i].inode < box.nextInode && (box.spool.Some? ==> box.runs[i].inode != box.spool.value.inode))
    && (forall i, k :: 0 <= i < k < |box.runs| ==> box.runs[i].inode != box.runs[k].inode)
  }

  lemma BoxInvNext(box: Box, c: Choice)
    requires BoxInv(box)
    ensures BoxInv(Next(box, c))
  {
  }

  lemma {:induction false} BoxInvAfter(box: Box, cs: seq<Choice>)
    requires Empty(box)
    ensures BoxInv(After(box, cs))
  {
    if cs == [] {
    } else {
      BoxInvAfter(box, cs[..|cs| - 1]);
      BoxInvNext(After(box, cs[..|cs| - 1]), cs[|cs| - 1]);
    }
  }

  /** The k-th choice was a step that found this run's file in the slot, and the file was fit and says these words. */
  predicate RanAt(box: Box, cs: seq<Choice>, k: nat, r: Ran) {
    && k < |cs| && cs[k].DoStep?
    && var slot := After(box, cs[..k]).spool;
       && slot.Some? && slot.value.inode == r.inode && Fit(slot.value.content, cs[k].s)
       && r.argv == Words(Parse(slot.value.content).cmd)
  }

  lemma RunsGrow(box: Box, c: Choice)
    ensures box.runs <= Next(box, c).runs
    ensures |Next(box, c).runs| > |box.runs| ==>
              && |Next(box, c).runs| == |box.runs| + 1 && c.DoStep? && box.spool.Some? && Fit(box.spool.value.content, c.s)
              && Next(box, c).runs[|box.runs|] == Ran(box.spool.value.inode, Words(Parse(box.spool.value.content).cmd))
  {
    if c.DoStep? { StepRunsTheFit(box, c.s); }
  }

  lemma {:induction false} RanSometime(box: Box, cs: seq<Choice>, i: nat) returns (k: nat)
    requires Empty(box) && i < |After(box, cs).runs|
    ensures RanAt(box, cs, k, After(box, cs).runs[i])
  {
    assert cs != [];
    var init := cs[..|cs| - 1];
    RunsGrow(After(box, init), cs[|cs| - 1]);
    if i < |After(box, init).runs| {
      k := RanSometime(box, init, i);
      assert cs[..k] == init[..k];
    } else {
      k := |init|;
      assert cs[..k] == init;
    }
  }

  /** Over every run of stagings, steps and hand-planted files: whatever ran was the command of a file that stood in the
      slot at some step and was fit for it, so no line of that step's never-list stands in it, none of the deny-list unless
      its label is DESTRUCTIVE, and it was at most 1800 seconds old by its own timestamp; and no file ran twice. */
  lemma GateSafety(box: Box, cs: seq<Choice>, i: nat, j: nat) returns (k: nat)
    requires Empty(box) && i < |After(box, cs).runs| && j < |After(box, cs).runs|
    ensures RanAt(box, cs, k, After(box, cs).runs[i])
    ensures var lists, p := cs[k].s.lists, Parse(After(box, cs[..k]).spool.value.content);
            && (forall n :: 0 <= n < |lists.never| && lists.never[n] != "" ==> !Within(lists.never[n], p.cmd))
            && (p.tag != "DESTRUCTIVE" ==>
                  forall n :: 0 <= n < |lists.deny| && lists.deny[n] != "" ==> !Within(lists.deny[n], p.cmd))
    ensures After(box, cs).runs[i].inode == After(box, cs).runs[j].inode ==> i == j
  {
    BoxInvAfter(box, cs);
    k := RanSometime(box, cs, i);
  }

  /** A command that the deny-list names and the never-list does not: labelled DESTRUCTIVE it runs, given the code and one
      of its words as target; under any other label it does not. */
  lemma DenyListNeedsTheLabel(box: Box, e: StepIn, k: nat)
    requires box.spool.Some? && k < |e.lists.deny| && e.lists.deny[k] != ""
    requires var p := Parse(box.spool.value.content);
             && TimeLine(p.when) && Sendable(p.cmd) && e.now - DateOf(p.when, e.odd) <= 1800 && Within(e.lists.deny[k], p.cmd)
             && (forall n :: 0 <= n < |e.lists.never| && e.lists.never[n] != "" ==> !Within(e.lists.never[n], p.cmd))
    ensures StepBox(box, e).1 == Run <==>
              && Parse(box.spool.value.content).tag == "DESTRUCTIVE" && e.answer == e.code
              && TypedTarget(Words(Parse(box.spool.value.content).cmd), e.target)
  {
    StepRunsTheFit(box, e);
  }

  // ----- the one slot -----

  /** Staging refuses for a pending command exactly while the slot's file is younger than 1800 seconds, and then leaves
      it untouched; an older one is replaced. */
  lemma OnlyAYoungFileBlocks(box: Box, e: StageIn)
    requires MayStage(e) && e.temp && e.wrote
    ensures StageBox(box, e).1 == Refused <==> box.spool.Some? && e.now - box.spool.value.mtime < 1800
    ensures StageBox(box, e).1 == Refused ==> StageBox(box, e).0 == box
    ensures StageBox(box, e).1 == Staged ==>
              var f := StageBox(box, e).0.spool;
              f.Some? && f.value.inode == box.nextInode && f.value.mtime == e.writtenAt
  {
    ClearIsUnlisted(e.lists, e.args[0], Join(e.args[2..]));
  }

  /** No staging, whatever its arguments, replaces or removes a file younger than 1800 seconds. */
  lemma {:induction false} YoungFileStays(box: Box, es: seq<StageIn>)
    requires box.spool.Some? && forall i :: 0 <= i < |es| ==> es[i].now - box.spool.value.mtime < 1800
    ensures After(box, seq(|es|, i requires 0 <= i < |es| => DoStage(es[i]))) == box
  {
    if es == [] {
    } else {
      var n := |es| - 1;
      YoungFileStays(box, es[..n]);
      var cs := seq(|es|, i requires 0 <= i < |es| => DoStage(es[i]));
      assert cs[..n] == seq(n, i requires 0 <= i < n => DoStage(es[..n][i]));
    }
  }

  // ----- from the dispatcher to the gate -----

  lemma AllowedLine(s: string)
    requires AllAllowed(s)
    ensures '\n' !in s
  {
  }

  lemma LabelLine(tag: string)
    requires tag in LABELS
    ensures '\n' !in tag
  {
  }

  lemma {:induction false} DigitsAreStamp(n: nat, w: nat)
    ensures forall i :: 0 <= i < w ==> StampChar(Calendar.Digits(n, w)[i])
  {
    if w == 0 {
    } else {
      DigitsAreStamp(n / 10, w - 1);
    }
  }

  lemma PrintedStamp(t: Calendar.Stamp)
    ensures forall i :: 0 <= i < 20 ==> StampChar(Calendar.Print(t)[i])
  {
    Calendar.PrintFields(t);
    DigitsAreStamp(t.year, 4); DigitsAreStamp(t.month, 2); DigitsAreStamp(t.day, 2);
    DigitsAreStamp(t.hour, 2); DigitsAreStamp(t.minute, 2); DigitsAreStamp(t.second, 2);
    var s := Calendar.Print(t);
    assert forall i :: 0 <= i < 4 ==> s[i] == s[..4][i];
    assert forall i :: 5 <= i < 7 ==> s[i] == s[5..7][i - 5];
    assert forall i :: 8 <= i < 10 ==> s[i] == s[8..10][i - 8];
    assert forall i :: 11 <= i < 13 ==> s[i] == s[11..13][i - 11];
    assert forall i :: 14 <= i < 16 ==> s[i] == s[14..16][i - 14];
    assert forall i :: 17 <= i < 19 ==> s[i] == s[17..19][i - 17];
  }

  lemma StampLine(t: Calendar.Stamp)
    requires Calendar.Valid(t)
    ensures StampText(Calendar.Print(t)) && '\n' !in Calendar.Print(t)
  {
    PrintedStamp(t);
    assert forall i :: 0 <= i < |Calendar.Print(t)| ==> StampChar(Calendar.Print(t)[i]);
  }

  lemma {:induction false} WordsAllowed(s: string)
    requires AllAllowed(s)
    ensures forall i :: 0 <= i < |Words(s)| ==> AllAllowed(Words(s)[i])
    decreases |s|
  {
    if s == "" {
    } else {
      if s[0] == ' ' {
        WordsAllowed(s[1..]);
      } else {
        WordsAllowed(s[|Head(s)|..]);
        assert AllAllowed(Head(s));
      }
    }
  }

  /** The words of an accepted command line, from the third on, joined again, are allowed and split the same way. */
  lemma StagedWords(line: string, args: seq<string>)
    requires HostPath.Dispatch(Some(HostPath.Interactive), line) == HostPath.ToStage(args) && |args| >= 2
    ensures AllAllowed(Join(args[2..])) && Words(Join(args[2..])) == args[2..]
  {
    var ws := Words(line);
    assert args == ws[1..] && args[2..] == ws[3..];
    SplitPlain(ws[3..]);
    WordsAllowed(line);
    forall i | 0 <= i < |ws[3..]| ensures AllAllowed(ws[3..][i]) { assert ws[3..][i] == ws[i + 3]; }
    JoinAllowed(ws[3..]);
  }

  /** The three lines that staging an accepted command writes are parsed back as its label, its time and its words. */
  lemma StageToGate(line: string, e: StageIn, box: Box, t: Calendar.Stamp)
    requires HostPath.Dispatch(Some(HostPath.Interactive), line) == HostPath.ToStage(e.args)
    requires Calendar.Valid(t) && e.stamp == Calendar.Print(t)
    requires StageBox(box, e).1 == Staged && e.wrote
    ensures var f := StageBox(box, e).0.spool;
            && StageBox(box, e).0.runs == box.runs
            && f.Some? && f.value.inode == box.nextInode && Parse(f.value.content) == Parsed(e.args[0], e.stamp, Join(e.args[2..]))
            && Words(Parse(f.value.content).cmd) == e.args[2..] && AllAllowed(Parse(f.value.content).cmd)
  {
    StagedWords(line, e.args);
    AllowedLine(Join(e.args[2..]));
    LabelLine(e.args[0]);
    StampLine(t);
    ThreeLines(e.args[0], e.stamp, Join(e.args[2..]));
  }

  lemma StampReads(t: Calendar.Stamp)
    requires Calendar.Valid(t)
    ensures TimeLine(Calendar.Print(t)) && Calendar.Parse(Calendar.Print(t)) == Some(t)
  {
    StampLine(t);
    TimeLineIsStamp(Calendar.Print(t));
    Calendar.ReadBack(t);
  }

  /** A file that says these words, printed at t, is fit exactly under the conditions a staged command runs under. */
  lemma RecordIsFit(content: string, tag: string, words: seq<string>, t: Calendar.Stamp, g: StepIn)
    requires Parse(content) == Parsed(tag, Calendar.Print(t), Join(words)) && Words(Join(words)) == words
    requires AllAllowed(Join(words)) && tag in LABELS && Calendar.Valid(t)
    ensures Fit(content, g) <==> Accepts(g, g.now - Unix(t), tag, words, Join(words))
  {
    StampReads(t);
    SendableIsAllowed(Join(words));
  }

  /** What the dispatcher accepted and stage wrote, the gate runs exactly when it is stepped within 1800 seconds of the
      printed time, under lists that do not match it, with the right code and, if DESTRUCTIVE, one of the command's
      words typed as target; and then it runs exactly the words after `--`. */
  lemma StagedCommandRuns(line: string, e: StageIn, box: Box, t: Calendar.Stamp, g: StepIn)
    requires HostPath.Dispatch(Some(HostPath.Interactive), line) == HostPath.ToStage(e.args)
    requires Calendar.Valid(t) && e.stamp == Calendar.Print(t)
    requires StageBox(box, e).1 == Staged && e.wrote
    ensures var (after, o) := StepBox(StageBox(box, e).0, g);
            && after.spool == None
            && (o == Run <==> Accepts(g, g.now - Unix(t), e.args[0], e.args[2..], Join(e.args[2..])))
            && (o == Run ==> after.runs == box.runs + [Ran(box.nextInode, e.args[2..])])
            && (o != Run ==> after.runs == box.runs)
  {
    StageToGate(line, e, box, t);
    StagedWords(line, e.args);
    StepRunsTheFit(StageBox(box, e).0, g);
    RecordIsFit(StageBox(box, e).0.spool.value.content, e.args[0], e.args[2..], t, g);
  }
}
