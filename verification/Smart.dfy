/** `check-smart.sh`: the streaming classifier of SMART reports, against what each device's own block says. */
module Smart {
  import opened Options
  import opened JsonText
  import opened Shell

  // ----- lines -----

  datatype Line = Device(name: string) | Health(rc: nat) | Attributes | Failed | Unsure | Warning(on: bool)
                | Wear(percent: Option<nat>) | Other

  predicate Starts(s: string, p: string) { p <= s }

  predicate Space(c: char) { c == ' ' || 9 <= c as int <= 13 }

  function SkipSpace(s: string): (r: string)
    ensures |r| <= |s| && r == s[|s| - |r|..] && (forall i :: 0 <= i < |s| - |r| ==> Space(s[i]))
    ensures r == "" || !Space(r[0])
  {
    if s != "" && Space(s[0]) then SkipSpace(s[1..]) else s
  }

  function DigitRun(s: string): (r: string)
    ensures |r| <= |s| && r == s[..|r|] && (forall i :: 0 <= i < |r| ==> IsDigit(r[i]))
    ensures |r| == |s| || !IsDigit(s[|r|])
  {
    if s != "" && IsDigit(s[0]) then [s[0]] + DigitRun(s[1..]) else ""
  }

  /** The number that ends the greedy match of `.*:[[:space:]]*[0-9][0-9]*`, followed by `tail` when one is wanted. */
  function Number(s: string, tail: string): string {
    if s == "" then ""
    else
      var later := Number(s[1..], tail);
      var here := SkipSpace(s[1..]);
      if later != "" then later
      else if s[0] == ':' && DigitRun(here) != "" && Starts(here, DigitRun(here) + tail) then DigitRun(here) else ""
  }

  lemma {:induction false} RunDigits(s: string)
    ensures forall c <- DigitRun(s) :: IsDigit(c)
  {
    if s == "" || !IsDigit(s[0]) {
    } else {
      RunDigits(s[1..]);
    }
  }

  lemma {:induction false} NumberDigits(s: string, tail: string)
    ensures forall c <- Number(s, tail) :: IsDigit(c)
  {
    if s == "" {
    } else {
      NumberDigits(s[1..], tail);
      RunDigits(SkipSpace(s[1..]));
    }
  }

  function Percent(s: string): Option<nat> {
    NumberDigits(s, "%");
    var p := Number(s, "%");
    if p == "" then None else Some(NatOf(p))
  }

  predicate Numeric(s: string) { forall c <- s :: IsDigit(c) }

  /** The `case` over one line, in its order. */
  function Kind(s: string): Line {
    if Starts(s, "##DEV ") then Device(s[6..])
    else if Starts(s, "##H ") then Health(if Numeric(s[4..]) then NatOf(s[4..]) else 0)
    else if Starts(s, "##A ") then Attributes
    else if Starts(s, "##NV ") then Device(s[5..])
    else if Contains(s, "self-assessment test result: FAILED") then Failed
    else if Contains(s, "self-assessment test result: UNKNOWN") then Unsure
    else if Contains(s, "critical_warning") then Warning(Number(s, "") != "" && Number(s, "") != "0")
    else if Contains(s, "percentage_used") then Wear(Percent(s))
    else Other
  }

  // ----- what a line is read as, written out -----

  /** The text begins with spaces up to j, then digits up to k and no further, then the tail. */
  predicate Reads(t: string, j: nat, k: nat, tail: string) {
    && j < k <= |t| && (forall n :: 0 <= n < j ==> Space(t[n])) && (forall n :: j <= n < k ==> IsDigit(t[n]))
    && (k == |t| || !IsDigit(t[k])) && tail <= t[k..]
  }

  lemma DigitNoSpace(c: char)
    ensures IsDigit(c) ==> !Space(c)
  {
  }

  lemma PrefixSplit(d: string, tail: string, here: string)
    requires |d| <= |here| && d == here[..|d|]
    ensures d + tail <= here <==> tail <= here[|d|..]
  {
    var rest := here[|d|..];
    assert here == d + rest;
    if d + tail <= here { assert (d + tail)[|d|..] == tail && here[..|d + tail|][|d|..] == tail; }
    if tail <= rest { assert rest[..|tail|] == tail; assert (d + rest)[..|d + tail|] == d + tail; }
  }

  lemma SpaceBound(t: string) returns (j: nat)
    ensures j <= |t| && SkipSpace(t) == t[j..]
    ensures (forall n :: 0 <= n < j ==> Space(t[n])) && (j == |t| || !Space(t[j]))
  {
    j := |t| - |SkipSpace(t)|;
  }

  lemma DigitBound(u: string) returns (d: nat)
    ensures d <= |u| && DigitRun(u) == u[..d] && (forall n :: 0 <= n < d ==> IsDigit(u[n])) && (d == |u| || !IsDigit(u[d]))
  {
    d := |DigitRun(u)|;
    assert forall n :: 0 <= n < d ==> DigitRun(u)[n] == u[n];
  }

  lemma Slice(t: string, j: nat, d: nat)
    requires j + d <= |t|
    ensures t[j..][..d] == t[j..j + d] && t[j..][d..] == t[j + d..]
    ensures forall n :: j <= n < |t| ==> t[n] == t[j..][n - j]
  {
  }

  /** Where the spaces and the digits end. */
  lemma Bounds(t: string) returns (j: nat, k: nat)
    ensures j <= k <= |t| && (forall n :: 0 <= n < j ==> Space(t[n])) && (j == |t| || !Space(t[j]))
    ensures (forall n :: j <= n < k ==> IsDigit(t[n])) && (k == |t| || !IsDigit(t[k]))
    ensures SkipSpace(t) == t[j..] && DigitRun(t[j..]) == t[j..k] && t[j..][k - j..] == t[k..]
  {
    j := SpaceBound(t);
    var d := DigitBound(t[j..]);
    k := j + d;
    Slice(t, j, d);
  }

  lemma ReadsAt(t: string, j: nat, k: nat, tail: string)
    requires j <= k <= |t| && (forall n :: 0 <= n < j ==> Space(t[n])) && (forall n :: j <= n < k ==> IsDigit(t[n]))
    requires (k == |t| || !IsDigit(t[k])) && t[j..][k - j..] == t[k..]
    ensures t[j..k] != "" && t[j..k] + tail <= t[j..] <==> Reads(t, j, k, tail)
  {
    var here, d := t[j..], t[j..k];
    assert here[..|d|] == d;
    PrefixSplit(d, tail, here);
  }

  lemma OneReading(t: string, j: nat, k: nat, y: nat, z: nat)
    requires j <= k <= |t| && (forall n :: 0 <= n < j ==> Space(t[n])) && (j == |t| || !Space(t[j]))
    requires (forall n :: j <= n < k ==> IsDigit(t[n])) && (k == |t| || !IsDigit(t[k]))
    requires y < z <= |t| && (forall n :: 0 <= n < y ==> Space(t[n])) && (forall n :: y <= n < z ==> IsDigit(t[n]))
    requires z == |t| || !IsDigit(t[z])
    ensures y == j && z == k
  {
    DigitNoSpace(t[y]);
    assert y == j;
  }

  /** There is one way to read it, and that is what the pattern takes. */
  lemma ReadsExactly(t: string, tail: string) returns (j: nat, k: nat)
    ensures var d := DigitRun(SkipSpace(t));
            && k <= |t| && j <= k && t[j..k] == d && (d != "" && d + tail <= SkipSpace(t) <==> Reads(t, j, k, tail))
    ensures forall y: nat, z: nat :: Reads(t, y, z, tail) ==> y == j && z == k
  {
    j, k := Bounds(t);
    ReadsAt(t, j, k, tail);
    forall y: nat, z: nat | Reads(t, y, z, tail) ensures y == j && z == k { OneReading(t, j, k, y, z); }
  }

  /** A colon at i, and a number of this tail after it. */
  predicate NumberAt(s: string, i: nat, j: nat, k: nat, tail: string) {
    i < |s| && s[i] == ':' && Reads(s[i + 1..], j, k, tail)
  }

  lemma NumberShift(s: string, i: nat, j: nat, k: nat, tail: string)
    requires s != ""
    ensures NumberAt(s[1..], i, j, k, tail) <==> NumberAt(s, i + 1, j, k, tail)
  {
    if i + 1 < |s| { assert s[1..][i + 1..] == s[i + 2..]; }
  }

  predicate NoneFrom(s: string, i: nat, tail: string) {
    forall x: nat, y: nat, z: nat :: x < |s| && y <= |s| && z <= |s| && i <= x ==> !NumberAt(s, x, y, z, tail)
  }

  lemma NoneShift(s: string, i: nat, tail: string)
    requires s != "" && NoneFrom(s[1..], i, tail)
    ensures NoneFrom(s, i + 1, tail)
  {
    forall x: nat, y: nat, z: nat | x < |s| && y <= |s| && z <= |s| && i + 1 <= x ensures !NumberAt(s, x, y, z, tail) {
      NumberShift(s, x - 1, y, z, tail);
    }
  }

  /** n is the number after the last colon that has one, and empty where none has. */
  predicate Found(s: string, tail: string, i: nat, j: nat, k: nat, n: string) {
    if n == "" then NoneFrom(s, 0, tail)
    else NumberAt(s, i, j, k, tail) && n == s[i + 1..][j..k] && NoneFrom(s, i + 1, tail)
  }

  lemma FoundLater(s: string, tail: string, i: nat, j: nat, k: nat, n: string)
    requires s != "" && n != "" && Found(s[1..], tail, i, j, k, n)
    ensures Found(s, tail, i + 1, j, k, n)
  {
    NumberShift(s, i, j, k, tail);
    NoneShift(s, i + 1, tail);
    assert s[1..][i + 1..] == s[i + 2..];
  }

  lemma FoundFirst(s: string, tail: string, n: string) returns (j: nat, k: nat)
    requires s != "" && NoneFrom(s[1..], 0, tail)
    requires var here := SkipSpace(s[1..]);
             n == if s[0] == ':' && DigitRun(here) != "" && DigitRun(here) + tail <= here then DigitRun(here) else ""
    ensures Found(s, tail, 0, j, k, n)
  {
    j, k := ReadsExactly(s[1..], tail);
    NoneShift(s, 0, tail);
  }

  /** The number a line is read with is the one after the last colon that has one. */
  lemma {:induction false} NumberExactly(s: string, tail: string) returns (i: nat, j: nat, k: nat)
    ensures Found(s, tail, i, j, k, Number(s, tail))
  {
    i, j, k := 0, 0, 0;
    if s == "" {
    } else {
      i, j, k := NumberExactly(s[1..], tail);
      if Number(s[1..], tail) != "" {
        FoundLater(s, tail, i, j, k, Number(s, tail));
        i := i + 1;
      } else {
        i := 0;
        j, k := FoundFirst(s, tail, Number(s, tail));
      }
    }
  }

  /** p stands somewhere in s. */
  ghost predicate Amid(s: string, p: string) { exists a: string, b: string :: s == a + p + b }

  lemma AmidIsContained(s: string, p: string)
    ensures Contains(s, p) <==> Amid(s, p)
  {
    if Contains(s, p) {
      var i :| 0 <= i <= |s| && HasAt(s, i, p);
      assert s == s[..i] + p + s[i + |p|..];
    }
    if Amid(s, p) {
      var a: string, b: string :| s == a + p + b;
      assert s[|a|..|a| + |p|] == p;
      assert HasAt(s, |a|, p);
    }
  }

  predicate Marked(s: string) { Starts(s, "##DEV ") || Starts(s, "##H ") || Starts(s, "##A ") || Starts(s, "##NV ") }

  lemma MarkersApart(s: string)
    ensures Starts(s, "##DEV ") ==> |s| >= 6 && s[2] == 'D'
    ensures Starts(s, "##H ") ==> |s| >= 4 && s[2] == 'H'
    ensures Starts(s, "##A ") ==> |s| >= 4 && s[2] == 'A'
    ensures Starts(s, "##NV ") ==> |s| >= 5 && s[2] == 'N'
  {
    assert "##DEV "[2] == 'D' && "##H "[2] == 'H' && "##A "[2] == 'A' && "##NV "[2] == 'N';
  }

  /** The markers of a report: a device is named by what follows its marker, and a health line that is no number counts 0. */
  lemma MarkersExactly(s: string)
    ensures Kind(s).Device? <==> Starts(s, "##DEV ") || Starts(s, "##NV ")
    ensures Starts(s, "##DEV ") ==> Kind(s) == Device(s[6..])
    ensures Starts(s, "##NV ") ==> Kind(s) == Device(s[5..])
    ensures Kind(s).Health? <==> Starts(s, "##H ")
    ensures Kind(s).Health? ==> Kind(s).rc == if forall c <- s[4..] :: IsDigit(c) then NatOf(s[4..]) else 0
    ensures Kind(s) == Attributes <==> Starts(s, "##A ")
  {
    MarkersApart(s);
  }

  /** Every other line, by the first of four phrases that stands in it. */
  ghost predicate SaysOf(s: string, l: Line) {
    if Marked(s) then l.Device? || l.Health? || l.Attributes?
    else if Amid(s, "self-assessment test result: FAILED") then l == Failed
    else if Amid(s, "self-assessment test result: UNKNOWN") then l == Unsure
    else if Amid(s, "critical_warning") then l == Warning(Number(s, "") != "" && Number(s, "") != "0")
    else if Amid(s, "percentage_used") then
      NumberDigits(s, "%");
      l == Wear(if Number(s, "%") == "" then None else Some(NatOf(Number(s, "%"))))
    else l == Other
  }

  lemma PhrasesExactly(s: string)
    ensures SaysOf(s, Kind(s))
  {
    AmidIsContained(s, "self-assessment test result: FAILED");
    AmidIsContained(s, "self-assessment test result: UNKNOWN");
    AmidIsContained(s, "critical_warning");
    AmidIsContained(s, "percentage_used");
  }

  function Kinds(text: seq<string>): seq<Line> {
    seq(|text|, i requires 0 <= i < |text| => Kind(text[i]))
  }

  // ----- one device's block -----

  datatype Block = Block(name: string, body: seq<Line>)

  datatype Class = Crit | Warn | Ok

  /** The binary digits of a number, lowest first. */
  function Bits(n: nat): seq<bool> {
    if n == 0 then [] else [n % 2 == 1] + Bits(n / 2)
  }

  /** `n & 2^k` is not zero. */
  predicate Bit(n: nat, k: nat) { k < |Bits(n)| && Bits(n)[k] }

  /** The exit status of the block's last health line. */
  function Status(body: seq<Line>): nat {
    if body == [] then 0
    else if body[|body| - 1].Health? then body[|body| - 1].rc else Status(body[..|body| - 1])
  }

  datatype Verdict = Silent | Bad | Unclear

  /** What the block's last self-assessment line says. */
  function Assessment(body: seq<Line>): Verdict {
    if body == [] then Silent
    else if body[|body| - 1].Failed? then Bad
    else if body[|body| - 1].Unsure? then Unclear
    else Assessment(body[..|body| - 1])
  }

  predicate Warned(body: seq<Line>) { exists i :: 0 <= i < |body| && body[i] == Warning(true) }

  predicate WornLine(l: Line, wear: nat) { l.Wear? && l.percent.Some? && l.percent.value >= wear }

  predicate Worn(body: seq<Line>, wear: nat) { exists i :: 0 <= i < |body| && WornLine(body[i], wear) }

  function Judge(hrc: nat, verdict: Verdict, warned: bool, worn: bool): Class {
    if verdict == Bad || Bit(hrc, 3) || Bit(hrc, 4) then Crit
    else if Bit(hrc, 5) then Warn
    else if Bit(hrc, 1) then Warn
    else if warned then Crit
    else if worn then Warn
    else if verdict == Unclear then Warn
    else Ok
  }

  lemma BitShift(n: nat, k: nat)
    ensures Bit(n, k + 1) <==> Bit(n / 2, k)
    ensures Bit(n, 0) <==> n % 2 == 1
  {
  }

  /** The bits of an exit status that the classifier looks at. */
  lemma BitsExactly(n: nat)
    ensures Bit(n, 1) <==> n / 2 % 2 == 1
    ensures Bit(n, 3) <==> n / 8 % 2 == 1
    ensures Bit(n, 4) <==> n / 16 % 2 == 1
    ensures Bit(n, 5) <==> n / 32 % 2 == 1
  {
    BitShift(n, 0); BitShift(n, 2); BitShift(n, 3); BitShift(n, 4);
    BitShift(n / 2, 0); BitShift(n / 2, 1); BitShift(n / 2, 2); BitShift(n / 2, 3);
    BitShift(n / 4, 0); BitShift(n / 4, 1); BitShift(n / 4, 2);
    BitShift(n / 8, 0); BitShift(n / 8, 1);
    BitShift(n / 16, 0);
    BitShift(n / 32, 0);
    assert n / 2 / 2 == n / 4 && n / 4 / 2 == n / 8 && n / 8 / 2 == n / 16 && n / 16 / 2 == n / 32;
  }

  lemma {:induction false} LastSays(body: seq<Line>)
    ensures Status(body) == 0 || exists i :: 0 <= i < |body| && body[i] == Health(Status(body))
    ensures forall i :: 0 <= i < |body| && body[i].Health? && (forall k :: i < k < |body| ==> !body[k].Health?) ==>
              Status(body) == body[i].rc
    ensures (forall i :: 0 <= i < |body| ==> !body[i].Health?) ==> Status(body) == 0
  {
    if body == [] {
    } else {
      var init := body[..|body| - 1];
      LastSays(init);
      assert forall i :: 0 <= i < |init| ==> init[i] == body[i];
    }
  }

  /** The last self-assessment line decides. */
  lemma {:induction false} LastAssessment(body: seq<Line>)
    ensures forall i :: 0 <= i < |body| && (body[i].Failed? || body[i].Unsure?)
                        && (forall k :: i < k < |body| ==> !body[k].Failed? && !body[k].Unsure?) ==>
              Assessment(body) == if body[i].Failed? then Bad else Unclear
    ensures Assessment(body) == Silent <==> forall i :: 0 <= i < |body| ==> !body[i].Failed? && !body[i].Unsure?
  {
    if body == [] {
    } else {
      var init := body[..|body| - 1];
      LastAssessment(init);
      assert forall i :: 0 <= i < |init| ==> init[i] == body[i];
    }
  }

  /** A block is critical, a warning or healthy by its own lines alone. */
  function ClassOf(b: Block, wear: nat): Class {
    Judge(Status(b.body), Assessment(b.body), Warned(b.body), Worn(b.body, wear))
  }

  /** The classes, test by test: a failed self-assessment or bit 3 or 4 is critical whatever else; bit 5 or 1 is then a
      warning, even if an NVMe warning stands in the block; that warning is critical; wear and an unknown assessment warn. */
  lemma ClassExactly(b: Block, wear: nat)
    ensures var rc, said := Status(b.body), Assessment(b.body);
            var failing := said == Bad || rc / 8 % 2 == 1 || rc / 16 % 2 == 1;
            var aging := rc / 32 % 2 == 1 || rc / 2 % 2 == 1;
            && (ClassOf(b, wear) == Crit <==> failing || (!aging && Warned(b.body)))
            && (ClassOf(b, wear) == Ok <==>
                  !failing && !aging && !Warned(b.body) && !Worn(b.body, wear) && said != Unclear)
  {
    BitsExactly(Status(b.body));
  }

  function Named(bs: seq<Block>, wear: nat, c: Class): seq<string> {
    if bs == [] then []
    else Named(bs[..|bs| - 1], wear, c)
         + if ClassOf(bs[|bs| - 1], wear) == c then [bs[|bs| - 1].name] else []
  }

  // ----- the stream -----

  /** The blocks finished so far and the one being read. */
  datatype Reading = Reading(finished: seq<Block>, current: Block)

  function ReadNext(r: Reading, l: Line): Reading {
    if l.Device? then
      if r.current.name != "" then Reading(r.finished + [r.current], Block(l.name, []))
      else Reading(r.finished, Block(l.name, r.current.body))
    else r.(current := r.current.(body := r.current.body + [l]))
  }

  function Read(ls: seq<Line>): Reading {
    if ls == [] then Reading([], Block("", [])) else ReadNext(Read(ls[..|ls| - 1]), ls[|ls| - 1])
  }

  function Blocks(ls: seq<Line>): seq<Block> {
    var r := Read(ls);
    if r.current.name != "" then r.finished + [r.current] else r.finished
  }

  lemma ReadOne(ls: seq<Line>, l: Line)
    ensures Read(ls + [l]) == ReadNext(Read(ls), l)
  {
    assert (ls + [l])[..|ls|] == ls;
  }

  lemma Snoc(body: seq<Line>, l: Line, wear: nat)
    ensures Status(body + [l]) == if l.Health? then l.rc else Status(body)
    ensures Assessment(body + [l]) == if l.Failed? then Bad else if l.Unsure? then Unclear else Assessment(body)
    ensures Warned(body + [l]) == (Warned(body) || l == Warning(true))
    ensures Worn(body + [l], wear) == (Worn(body, wear) || WornLine(l, wear))
  {
    var b := body + [l];
    assert b[..|b| - 1] == body && b[|body|] == l;
    if Warned(body) { var i :| 0 <= i < |body| && body[i] == Warning(true); assert b[i] == Warning(true); }
    if Worn(body, wear) { var i :| 0 <= i < |body| && WornLine(body[i], wear); assert WornLine(b[i], wear); }
  }

  class Classifier {
    const wear: nat
    var dev: string
    var hrc: nat
    var hfail: Verdict
    var nvbad: bool
    var nvwarn: Option<nat>
    var crit: seq<string>
    var warn: seq<string>
    var ok: nat

    constructor (wear: nat)
      ensures this.wear == wear && Follows(Read([]))
    {
      this.wear := wear;
      dev, hrc, hfail, nvbad, nvwarn, crit, warn, ok := "", 0, Silent, false, None, [], [], 0;
    }

    ghost predicate Counted(bs: seq<Block>)
      reads `crit, `warn, `ok
    {
      crit == Named(bs, wear, Crit) && warn == Named(bs, wear, Warn) && ok == |Named(bs, wear, Ok)|
    }

    ghost predicate Gathered(body: seq<Line>)
      reads `hrc, `hfail, `nvbad, `nvwarn
    {
      hrc == Status(body) && hfail == Assessment(body) && nvbad == Warned(body) && nvwarn.Some? == Worn(body, wear)
    }

    /** The variables say what the lines so far say. */
    ghost predicate Follows(r: Reading)
      reads this
    {
      dev == r.current.name && Counted(r.finished) && Gathered(r.current.body)
    }

    /** Classifies the device being read and forgets it; without a device it does nothing. */
    method Emit(ghost r: Reading)
      requires Follows(r)
      modifies this
      ensures dev == ""
      ensures Counted(if r.current.name != "" then r.finished + [r.current] else r.finished)
      ensures Gathered(if r.current.name != "" then [] else r.current.body)
    {
      if dev == "" { return; }
      assert (r.finished + [r.current])[..|r.finished|] == r.finished;
      if hfail == Bad || Bit(hrc, 3) || Bit(hrc, 4) { crit := crit + [dev]; }
      else if Bit(hrc, 5) { warn := warn + [dev]; }
      else if Bit(hrc, 1) { warn := warn + [dev]; }
      else if nvbad { crit := crit + [dev]; }
      else if nvwarn.Some? { warn := warn + [dev]; }
      else if hfail == Unclear { warn := warn + [dev]; }
      else { ok := ok + 1; }
      dev, hrc, hfail, nvbad, nvwarn := "", 0, Silent, false, None;
    }

    method Feed(l: Line, ghost r: Reading)
      requires Follows(r)
      modifies this
      ensures Follows(ReadNext(r, l))
    {
      if l.Device? { NewDevice(l.name, r); } else { OwnLine(l, r); }
    }

    method NewDevice(name: string, ghost r: Reading)
      requires Follows(r)
      modifies this
      ensures Follows(ReadNext(r, Device(name)))
    {
      Emit(r);
      dev := name;
    }

    method OwnLine(l: Line, ghost r: Reading)
      requires Follows(r) && !l.Device?
      modifies `hrc, `hfail, `nvbad, `nvwarn
      ensures Follows(ReadNext(r, l))
    {
      Gather(l, r.current.body);
    }

    method Gather(l: Line, ghost body: seq<Line>)
      requires Gathered(body) && !l.Device?
      modifies `hrc, `hfail, `nvbad, `nvwarn
      ensures Gathered(body + [l])
    {
      Snoc(body, l, wear);
      match l {
        case Health(rc) => hrc := rc;
        case Failed => hfail := Bad;
        case Unsure => hfail := Unclear;
        case Warning(on) => if on { nvbad := true; }
        case Wear(percent) => if percent.Some? && percent.value >= wear { nvwarn := percent; }
        case _ =>
      }
    }

    /** The whole loop: what is counted is what each block says. */
    method Classify(text: seq<string>) returns (rc: nat)
      requires Follows(Read([]))
      modifies this
      ensures Counted(Blocks(Kinds(text)))
      ensures rc == if crit != [] then 2 else if warn != [] then 1 else 0
    {
      var i := 0;
      while i < |text|
        invariant 0 <= i <= |text| && Follows(Read(Kinds(text[..i])))
      {
        assert Kinds(text[..i + 1]) == Kinds(text[..i]) + [Kind(text[i])];
        ReadOne(Kinds(text[..i]), Kind(text[i]));
        Feed(Kind(text[i]), Read(Kinds(text[..i])));
        i := i + 1;
      }
      assert text[..i] == text;
      Emit(Read(Kinds(text)));
      rc := if crit != [] then 2 else if warn != [] then 1 else 0;
    }
  }

  // ----- what the stream's blocks are -----

  /** The report of a list of devices: a marker, then the device's own lines. */
  function Report(bs: seq<Block>): seq<Line> {
    if bs == [] then []
    else Report(bs[..|bs| - 1]) + [Device(bs[|bs| - 1].name)] + bs[|bs| - 1].body
  }

  predicate Unmarked(body: seq<Line>) { forall i :: 0 <= i < |body| ==> !body[i].Device? }

  predicate Proper(b: Block) { b.name != "" && Unmarked(b.body) }

  predicate AllProper(bs: seq<Block>) { forall i :: 0 <= i < |bs| ==> Proper(bs[i]) }

  function Grow(r: Reading, body: seq<Line>): Reading {
    r.(current := r.current.(body := r.current.body + body))
  }

  lemma GrowOne(r: Reading, body: seq<Line>, l: Line)
    requires !l.Device?
    ensures ReadNext(Grow(r, body), l) == Grow(r, body + [l])
  {
    assert r.current.body + (body + [l]) == (r.current.body + body) + [l];
  }

  lemma SnocSame(ls: seq<Line>, body: seq<Line>)
    requires body != []
    ensures (ls + body[..|body| - 1]) + [body[|body| - 1]] == ls + body
    ensures body[..|body| - 1] + [body[|body| - 1]] == body
  {
  }

  lemma {:induction false} ReadBody(ls: seq<Line>, body: seq<Line>)
    requires Unmarked(body)
    ensures Read(ls + body) == Grow(Read(ls), body)
  {
    if body == [] {
      assert ls + body == ls;
      assert Read(ls).current.body + body == Read(ls).current.body;
    } else {
      var init, l := body[..|body| - 1], body[|body| - 1];
      ReadBody(ls, init);
      ReadOne(ls + init, l);
      GrowOne(Read(ls), init, l);
      SnocSame(ls, body);
    }
  }

  lemma {:induction false} ReadReport(bs: seq<Block>)
    requires AllProper(bs)
    ensures bs == [] ==> Read(Report(bs)) == Reading([], Block("", []))
    ensures bs != [] ==> Read(Report(bs)) == Reading(bs[..|bs| - 1], bs[|bs| - 1])
  {
    if bs == [] {
    } else {
      var n := |bs| - 1;
      var init, b := bs[..n], bs[n];
      ReadReport(init);
      var ls := Report(init) + [Device(b.name)];
      assert ls[..|ls| - 1] == Report(init);
      ReadBody(ls, b.body);
      assert [] + b.body == b.body;
      if n > 0 { assert init == init[..n - 1] + [init[n - 1]]; }
    }
  }

  /** The stream splits a report into exactly its devices' own blocks: nothing of one block reaches another. */
  lemma BlocksOfReport(bs: seq<Block>)
    requires AllProper(bs)
    ensures Blocks(Report(bs)) == bs
  {
    ReadReport(bs);
    if bs != [] { assert bs == bs[..|bs| - 1] + [bs[|bs| - 1]]; }
  }

  lemma ReportOne(bs: seq<Block>, b: Block)
    ensures Report(bs + [b]) == Report(bs) + [Device(b.name)] + b.body
  {
    assert (bs + [b])[..|bs|] == bs;
  }

  /** One more line, where the stream so far is its own blocks. */
  lemma BlocksGrow(r: Reading, l: Line)
    requires r.current.name != "" && AllProper(r.finished + [r.current]) && (l.Device? ==> l.name != "")
    ensures var q := ReadNext(r, l);
            && q.current.name != "" && AllProper(q.finished + [q.current])
            && Report(q.finished + [q.current]) == Report(r.finished + [r.current]) + [l]
  {
    var q := ReadNext(r, l);
    ReportOne(r.finished, r.current);
    ReportOne(q.finished, q.current);
    var bs, more := r.finished + [r.current], q.finished + [q.current];
    assert bs[|bs| - 1] == r.current && forall i :: 0 <= i < |r.finished| ==> bs[i] == r.finished[i];
    if l.Device? {
      assert more == bs + [Block(l.name, [])];
      assert Report(bs) + [Device(l.name)] + [] == Report(bs) + [l];
    } else {
      assert Report(r.finished) + [Device(r.current.name)] + (r.current.body + [l])
          == (Report(r.finished) + [Device(r.current.name)] + r.current.body) + [l];
    }
  }

  lemma FirstBlock(l: Line)
    requires l.Device? && l.name != ""
    ensures var r := ReadNext(Read([]), l);
            r == Reading([], Block(l.name, [])) && AllProper(r.finished + [r.current]) && Report(r.finished + [r.current]) == [l]
  {
    ReportOne([], Block(l.name, []));
    assert Report([]) == [];
  }

  /** Every stream that starts with a marker and names every device is such a report. */
  lemma {:induction false} EveryStreamIsAReport(ls: seq<Line>)
    requires ls != [] && ls[0].Device?
    requires forall i :: 0 <= i < |ls| && ls[i].Device? ==> ls[i].name != ""
    ensures var r := Read(ls);
            r.current.name != "" && AllProper(r.finished + [r.current]) && Report(r.finished + [r.current]) == ls
  {
    var init, l := ls[..|ls| - 1], ls[|ls| - 1];
    assert init + [l] == ls;
    ReadOne(init, l);
    if init == [] {
      FirstBlock(l);
    } else {
      EveryStreamIsAReport(init);
      BlocksGrow(Read(init), l);
    }
  }

  lemma {:induction false} ReportShape(bs: seq<Block>)
    requires AllProper(bs)
    ensures var ls := Report(bs);
            && (ls != [] ==> ls[0].Device?)
            && forall i :: 0 <= i < |ls| && ls[i].Device? ==> ls[i].name != ""
  {
    if bs == [] {
    } else {
      ReportShape(bs[..|bs| - 1]);
    }
  }

  /** The stream is its own devices' blocks, with no line lost or moved, if and only if it starts with a marker and
      names every device. */
  lemma NoLeakExactly(ls: seq<Line>)
    ensures AllProper(Blocks(ls)) && Report(Blocks(ls)) == ls <==>
              (ls != [] ==> ls[0].Device?) && forall i :: 0 <= i < |ls| && ls[i].Device? ==> ls[i].name != ""
  {
    if ls == [] {
      assert Blocks(ls) == [] && Report([]) == [];
    } else if ls[0].Device? && forall i :: 0 <= i < |ls| && ls[i].Device? ==> ls[i].name != "" {
      EveryStreamIsAReport(ls);
    }
    if AllProper(Blocks(ls)) { ReportShape(Blocks(ls)); }
  }

  lemma StrayRead(h: Line, d: Line)
    requires h.Health? && d.Device? && d.name != ""
    ensures Blocks([h, d]) == [Block(d.name, [h])] && Blocks([d]) == [Block(d.name, [])]
  {
    ReadOne([], h);
    ReadOne([h], d);
    ReadOne([], d);
    assert [] + [h] == [h] && [h] + [d] == [h, d] && [] + [d] == [d];
  }

  lemma StrayJudged(name: string, rc: nat, wear: nat)
    requires Bit(rc, 3)
    ensures ClassOf(Block(name, [Health(rc)]), wear) == Crit && ClassOf(Block(name, []), wear) == Ok
  {
    Snoc([], Health(rc), wear);
    assert [] + [Health(rc)] == [Health(rc)];
    assert Bits(0) == [];
  }

  /** A line before the first marker does reach the first device: a failing status there makes any device critical
      whose own block says nothing. */
  lemma StrayLineLeaks(name: string, rc: nat, wear: nat)
    requires name != "" && Bit(rc, 3)
    ensures Blocks([Health(rc), Device(name)]) == [Block(name, [Health(rc)])]
    ensures Blocks([Device(name)]) == [Block(name, [])]
    ensures ClassOf(Block(name, [Health(rc)]), wear) == Crit && ClassOf(Block(name, []), wear) == Ok
  {
    StrayRead(Health(rc), Device(name));
    StrayJudged(name, rc, wear);
  }

  // ----- counts and the exit code -----

  lemma {:induction false} CountedOnce(bs: seq<Block>, wear: nat)
    ensures |Named(bs, wear, Crit)| + |Named(bs, wear, Warn)| + |Named(bs, wear, Ok)| == |bs|
  {
    if bs == [] {
    } else {
      CountedOnce(bs[..|bs| - 1], wear);
    }
  }

  lemma {:induction false} NamedEmpty(bs: seq<Block>, wear: nat, c: Class)
    ensures Named(bs, wear, c) == [] <==> forall i :: 0 <= i < |bs| ==> ClassOf(bs[i], wear) != c
  {
    if bs == [] {
    } else {
      NamedEmpty(bs[..|bs| - 1], wear, c);
      assert bs[..|bs| - 1] + [bs[|bs| - 1]] == bs;
    }
  }

  function Level(c: Class): nat { match c case Ok => 0 case Warn => 1 case Crit => 2 }

  function ExitCode(bs: seq<Block>, wear: nat): nat {
    if Named(bs, wear, Crit) != [] then 2 else if Named(bs, wear, Warn) != [] then 1 else 0
  }

  /** The exit code is the worst block's class, and every block is counted under exactly one. */
  lemma ExitIsWorst(bs: seq<Block>, wear: nat)
    ensures forall i :: 0 <= i < |bs| ==> Level(ClassOf(bs[i], wear)) <= ExitCode(bs, wear)
    ensures ExitCode(bs, wear) > 0 ==> exists i :: 0 <= i < |bs| && Level(ClassOf(bs[i], wear)) == ExitCode(bs, wear)
    ensures |Named(bs, wear, Crit)| + |Named(bs, wear, Warn)| + |Named(bs, wear, Ok)| == |bs|
  {
    NamedEmpty(bs, wear, Crit);
    NamedEmpty(bs, wear, Warn);
    CountedOnce(bs, wear);
    if ExitCode(bs, wear) == 2 {
      var i :| 0 <= i < |bs| && ClassOf(bs[i], wear) == Crit;
      assert Level(ClassOf(bs[i], wear)) == 2;
    } else if ExitCode(bs, wear) == 1 {
      var i :| 0 <= i < |bs| && ClassOf(bs[i], wear) == Warn;
      assert Level(ClassOf(bs[i], wear)) == 1;
    }
  }
}
