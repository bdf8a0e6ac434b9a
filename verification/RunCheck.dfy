/** `msp-run-check`: what a check's history means for the state file, the streak, the change log and the page. */
module RunCheck {
  import opened Options

  datatype Report = Report(rc: nat, msg: string)

  /** One call of `msp-notify`: what it carries, whether it pages, and whether the state changed. */
  datatype Notice = Notice(name: string, rc: nat, msg: string, fails: bool, changed: bool)

  // ----- what the history says -----

  /** Runs that broke (3 and above) do not count. */
  function Completed(h: seq<Report>): seq<Report> {
    if h == [] then []
    else Completed(h[..|h| - 1]) + if h[|h| - 1].rc < 3 then [h[|h| - 1]] else []
  }

  predicate Critical(r: Report) { r.rc >= 2 }

  /** k is the length of the longest critical suffix. */
  predicate CritSuffix(h: seq<Report>, k: nat) {
    && k <= |h|
    && (forall i :: |h| - k <= i < |h| ==> Critical(h[i]))
    && (k < |h| ==> !Critical(h[|h| - k - 1]))
  }

  lemma SuffixUnique(h: seq<Report>, k: nat, m: nat)
    requires CritSuffix(h, k) && CritSuffix(h, m)
    ensures k == m
  {
  }

  /** The history with consecutive duplicates removed. */
  function Changes(h: seq<Report>): seq<Report> {
    if h == [] then []
    else if |h| > 1 && h[|h| - 2] == h[|h| - 1] then Changes(h[..|h| - 1])
    else Changes(h[..|h| - 1]) + [h[|h| - 1]]
  }

  predicate NoNeighbours(h: seq<Report>) { forall i :: 0 <= i < |h| - 1 ==> h[i] != h[i + 1] }

  /** Repeating one entry of a list without equal neighbours any number of times is undone by removing duplicates. */
  predicate Stutters(h: seq<Report>, c: seq<Report>)
    decreases |h|
  {
    if h == [] || c == [] then h == [] && c == []
    else h[|h| - 1] == c[|c| - 1]
         && (Stutters(h[..|h| - 1], c) || Stutters(h[..|h| - 1], c[..|c| - 1]))
  }

  /** The change log has no equal neighbours and is the history with each entry repeated one or more times. */
  lemma {:induction false} ChangesRight(h: seq<Report>)
    ensures NoNeighbours(Changes(h)) && Stutters(h, Changes(h))
    ensures h != [] ==> Changes(h) != [] && Changes(h)[|Changes(h)| - 1] == h[|h| - 1]
  {
    if h == [] {
    } else {
      var init := h[..|h| - 1];
      ChangesRight(init);
      var c := Changes(h);
      if !(|h| > 1 && h[|h| - 2] == h[|h| - 1]) { assert c[..|c| - 1] == Changes(init); }
    }
  }

  // ----- the runner -----

  /** The state file, the streak file and the change log that a history leaves. */
  ghost predicate FilesOf(h: seq<Report>, prev: Option<Report>, streak: nat, changes: seq<Report>) {
    && prev == (if h == [] then None else Some(h[|h| - 1]))
    && CritSuffix(h, streak)
    && changes == Changes(h)
  }

  lemma CompletedMore(h: seq<Report>, r: Report)
    ensures Completed(h + [r]) == if r.rc < 3 then Completed(h) + [r] else Completed(h)
  {
    assert (h + [r])[..|h|] == h;
  }

  lemma FilesMore(h: seq<Report>, prev: Option<Report>, streak: nat, changes: seq<Report>, r: Report)
    requires FilesOf(h, prev, streak, changes)
    ensures FilesOf(h + [r], Some(r), if Critical(r) then streak + 1 else 0, if prev == Some(r) then changes else changes + [r])
  {
    var g := h + [r];
    assert g[..|g| - 1] == h;
  }

  /** The last `n` completed runs, or the last one if n is 0, were all critical. */
  predicate PagesAfter(h: seq<Report>, n: nat) {
    |h| >= n && forall i :: |h| - n <= i < |h| ==> Critical(h[i])
  }

  lemma Streak(h: seq<Report>, k: nat, n: nat)
    requires CritSuffix(h, k)
    ensures k >= n <==> PagesAfter(h, n)
  {
    if k < n && |h| >= n { assert |h| - n <= |h| - k - 1 < |h|; }
  }

  class Checker {
    const name: string
    const consecutive: nat
    var prev: Option<Report>
    var streak: nat
    var changes: seq<Report>
    var notices: seq<Notice>
    ghost var history: seq<Report>

    constructor (name: string, consecutive: nat)
      ensures Valid() && history == [] && this.name == name && this.consecutive == consecutive && notices == []
    {
      this.name, this.consecutive := name, consecutive;
      prev, streak, changes, notices, history := None, 0, [], [], [];
    }

    /** The files are what the completed runs make of them. */
    ghost predicate Valid()
      reads this
    {
      FilesOf(Completed(history), prev, streak, changes)
    }

    /** One run that got its lock: `report` is the check's exit code and first line. A broken run leaves every file as
        it was and notifies nobody; any other pages exactly when the critical suffix that it ends reaches the
        configured length. */
    method Run(report: Report) returns (rc: nat)
      requires Valid()
      modifies this
      ensures Valid() && history == old(history) + [report] && rc == report.rc
      ensures report.rc >= 3 ==>
                prev == old(prev) && streak == old(streak) && changes == old(changes) && notices == old(notices)
      ensures report.rc < 3 ==>
                && |notices| > |old(notices)| && old(notices) <= notices
                && var n := notices[|old(notices)|];
                   && n.name == name && n.rc == report.rc && n.msg == report.msg
                   && (n.changed <==> old(prev) != Some(report))
                   && (n.fails <==> Critical(report) && PagesAfter(Completed(history), consecutive))
      ensures report.rc < 3 && name == "heartbeat" ==> notices[|notices| - 1] == Notice("_checker", 0, "checker alive", false, false)
      ensures report.rc < 3 ==> |notices| == |old(notices)| + if name == "heartbeat" then 2 else 1
    {
      rc := report.rc;
      ghost var h := Completed(history);
      CompletedMore(history, report);
      if rc >= 3 {
        history := history + [report];
        return;
      }
      var changed := Save(report, h);
      var fails := rc >= 2 && streak >= consecutive;
      Streak(h + [report], streak, consecutive);
      history := history + [report];
      Notify(report, fails, changed);
    }

    method Save(report: Report, ghost h: seq<Report>) returns (changed: bool)
      requires FilesOf(h, prev, streak, changes)
      modifies `prev, `streak, `changes
      ensures FilesOf(h + [report], prev, streak, changes)
      ensures changed <==> old(prev) != Some(report)
    {
      FilesMore(h, prev, streak, changes, report);
      changed := prev.None? || prev.value.rc != report.rc || prev.value.msg != report.msg;
      prev := Some(report);
      if report.rc >= 2 { streak := streak + 1; } else { streak := 0; }
      if changed { changes := changes + [report]; }
    }

    method Notify(report: Report, fails: bool, changed: bool)
      modifies `notices
      ensures |notices| == |old(notices)| + if name == "heartbeat" then 2 else 1
      ensures old(notices) <= notices && notices[|old(notices)|] == Notice(name, report.rc, report.msg, fails, changed)
      ensures name == "heartbeat" ==> notices[|notices| - 1] == Notice("_checker", 0, "checker alive", false, false)
    {
      notices := notices + [Notice(name, report.rc, report.msg, fails, changed)];
      if name == "heartbeat" { notices := notices + [Notice("_checker", 0, "checker alive", false, false)]; }
    }
  }
}
