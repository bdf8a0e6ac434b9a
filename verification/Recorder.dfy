/** `msp-readverb`: the ring buffer that returns the last lines of a recording, and the offset that makes successive
    reads return every byte once. */
module Recorder {
  // ----- the last n lines -----

  /** One printed line: the marker with how many lines are not shown, or a line of the recording. */
  datatype Printed = Marker(hidden: nat, shown: nat) | Shown(line: string)

  function ShowAll(lines: seq<string>): seq<Printed> {
    seq(|lines|, i requires 0 <= i < |lines| => Shown(lines[i]))
  }

  /** The last n lines, after a marker exactly when there are more. */
  function LastLines(lines: seq<string>, n: nat): seq<Printed> {
    if |lines| <= n then ShowAll(lines) else [Marker(|lines| - n, n)] + ShowAll(lines[|lines| - n..])
  }

  lemma Multiple(n: nat, d: int)
    requires n >= 1
    ensures n * d <= 0 || n * d >= n
  {
  }

  lemma {:induction false} SlotsDiffer(i: nat, k: nat, n: nat)
    requires n >= 1 && i < k < i + n
    ensures i % n != k % n
  {
    var q, r := i / n, i % n;
    var q', r' := k / n, k % n;
    assert i == n * q + r && k == n * q' + r';
    if r == r' {
      assert k - i == n * (q' - q);
      Multiple(n, q' - q);
    }
  }

  /** Slot i % n of the buffer holds line i, for the last n lines up to line k (lines count from 1). */
  ghost predicate Holds(buffer: seq<string>, lines: seq<string>, k: nat, n: nat)
    requires n >= 1 && |buffer| == n && k <= |lines|
  {
    forall i :: 1 <= i <= k && k - n < i ==> buffer[i % n] == lines[i - 1]
  }

  lemma Overwrite(buffer: seq<string>, lines: seq<string>, k: nat, n: nat)
    requires n >= 1 && |buffer| == n && k < |lines| && Holds(buffer, lines, k, n)
    ensures Holds(buffer[(k + 1) % n := lines[k]], lines, k + 1, n)
  {
    forall i | 1 <= i <= k + 1 && k + 1 - n < i
      ensures buffer[(k + 1) % n := lines[k]][i % n] == lines[i - 1]
    {
      if i <= k { SlotsDiffer(i, k + 1, n); }
    }
  }

  /** The main block: line k goes to slot k % n. */
  method Fill(lines: seq<string>, n: nat) returns (l: array<string>)
    requires n >= 1
    ensures fresh(l) && l.Length == n && Holds(l[..], lines, |lines|, n)
  {
    l := new string[n](_ => "");
    var nr := 0;
    while nr < |lines|
      invariant 0 <= nr <= |lines| && Holds(l[..], lines, nr, n)
    {
      Overwrite(l[..], lines, nr, n);
      nr := nr + 1;
      l[nr % n] := lines[nr - 1];
    }
  }

  /** The lines from `first` to i - 1, counted from 1. */
  function Between(lines: seq<string>, first: nat, i: nat): seq<Printed>
    requires 1 <= first <= i <= |lines| + 1
  {
    ShowAll(lines[first - 1..i - 1])
  }

  lemma OneMoreLine(lines: seq<string>, first: nat, i: nat)
    requires 1 <= first <= i <= |lines|
    ensures Between(lines, first, i + 1) == Between(lines, first, i) + [Shown(lines[i - 1])]
  {
    assert lines[first - 1..i] == lines[first - 1..i - 1] + [lines[i - 1]];
  }

  lemma WholeTail(lines: seq<string>, n: nat)
    requires n >= 1
    ensures var k := |lines|;
            LastLines(lines, n) == if k > n then [Marker(k - n, n)] + Between(lines, k - n + 1, k + 1) else Between(lines, 1, k + 1)
  {
    assert lines[0..|lines|] == lines;
    if |lines| > n { assert lines[|lines| - n..|lines|] == lines[|lines| - n..]; }
  }

  /** The END block, from the slot of line `first` on. */
  method PrintFrom(l: array<string>, ghost lines: seq<string>, first: nat, nr: nat, n: nat) returns (out: seq<Printed>)
    requires n >= 1 && l.Length == n && nr == |lines| && Holds(l[..], lines, nr, n)
    requires 1 <= first <= nr + 1 && nr < first + n
    ensures out == Between(lines, first, nr + 1)
  {
    out := [];
    var i := first;
    while i <= nr
      invariant first <= i <= nr + 1 && out == Between(lines, first, i)
    {
      OneMoreLine(lines, first, i);
      assert l[i % n] == l[..][i % n] == lines[i - 1];
      out := out + [Shown(l[i % n])];
      i := i + 1;
    }
  }

  /** The ring buffer prints exactly the last lines in order. */
  method Capped(lines: seq<string>, n: nat) returns (out: seq<Printed>)
    requires n >= 1
    ensures out == LastLines(lines, n)
  {
    var l := Fill(lines, n);
    var nr := |lines|;
    WholeTail(lines, n);
    out := PrintFrom(l, lines, if nr > n then nr - n + 1 else 1, nr, n);
    if nr > n { out := [Marker(nr - n, n)] + out; }
  }

  // ----- reading only what is new -----

  class Recording {
    var bytes: string
    var saved: nat

    constructor ()
      ensures bytes == "" && saved == 0
    {
      bytes, saved := "", 0;
    }

    /** The recorded shell may write at any moment. */
    method Grow()
      modifies `bytes
      ensures old(bytes) <= bytes
    {
      var more: string := *;
      bytes := bytes + more;
    }

    /** The bytes between the saved offset and the size read once; what is written meanwhile is left for the next call. */
    method ReadNew() returns (out: string, upTo: nat)
      modifies this
      ensures old(bytes) <= bytes && |old(bytes)| <= upTo <= |bytes|
      ensures out == if old(saved) < upTo then bytes[old(saved)..upTo] else ""
      ensures saved == upTo
    {
      var o := saved;
      Grow();
      var s := |bytes|;
      Grow();
      out := if s > o then bytes[o..s] else "";
      Grow();
      saved := s;
      return out, s;
    }
  }

  /** Where the one reader stands. */
  datatype Reader = Idle | Opened(o: nat) | Sized(o: nat, s: nat) | Emitted(o: nat, s: nat)

  /** A piece of the recording that was returned, with where it stood. */
  datatype Piece = Piece(start: nat, end: nat, text: string)

  datatype State = State(bytes: string, saved: nat, reader: Reader, pieces: seq<Piece>)

  datatype Choice = Written(more: string) | Advance | Crash

  function Next(t: State, c: Choice): State {
    match c
    case Written(more) => t.(bytes := t.bytes + more)
    case Crash => t.(reader := Idle)
    case Advance =>
      match t.reader
      case Idle => t.(reader := Opened(t.saved))
      case Opened(o) => t.(reader := Sized(o, |t.bytes|))
      case Sized(o, s) =>
        if o < s <= |t.bytes|
        then t.(reader := Emitted(o, s), pieces := t.pieces + [Piece(o, s, t.bytes[o..s])])
        else t.(reader := Emitted(o, s))
      case Emitted(_, s) => t.(saved := s, reader := Idle)
  }

  function Run(t: State, cs: seq<Choice>): State {
    if cs == [] then t else Next(Run(t, cs[..|cs| - 1]), cs[|cs| - 1])
  }

  predicate Initial(t: State) { t.bytes == "" && t.saved == 0 && t.reader == Idle && t.pieces == [] }

  /** How far the pieces reach. */
  function Reach(ps: seq<Piece>): nat {
    if ps == [] then 0
    else var r := Reach(ps[..|ps| - 1]); if ps[|ps| - 1].end > r then ps[|ps| - 1].end else r
  }

  function Concat(ps: seq<Piece>): string {
    if ps == [] then "" else Concat(ps[..|ps| - 1]) + ps[|ps| - 1].text
  }

  /** The pieces without the part of each that an earlier piece already reached. */
  function Novel(ps: seq<Piece>): string {
    if ps == [] then ""
    else
      var r, p := Reach(ps[..|ps| - 1]), ps[|ps| - 1];
      Novel(ps[..|ps| - 1]) + if p.start <= r <= p.end && p.end - p.start == |p.text| then p.text[r - p.start..] else ""
  }

  ghost predicate ReadInv(t: State) {
    && t.saved <= Reach(t.pieces) <= |t.bytes|
    && (forall i :: 0 <= i < |t.pieces| ==>
          t.pieces[i].start <= Reach(t.pieces[..i]) && t.pieces[i].start < t.pieces[i].end <= |t.bytes|
          && t.pieces[i].text == t.bytes[t.pieces[i].start..t.pieces[i].end])
    && match t.reader
       case Idle => true
       case Opened(o) => o == t.saved
       case Sized(o, s) => o == t.saved && o <= s <= |t.bytes|
       case Emitted(o, s) => o == t.saved && o <= s <= Reach(t.pieces)
  }

  lemma Grown(t: State, more: string)
    requires ReadInv(t)
    ensures ReadInv(Next(t, Written(more)))
  {
    var r := Next(t, Written(more));
    forall i | 0 <= i < |r.pieces|
      ensures r.pieces[i].text == r.bytes[r.pieces[i].start..r.pieces[i].end]
    {
      assert r.bytes[..|t.bytes|] == t.bytes;
    }
  }

  lemma Appended(ps: seq<Piece>, p: Piece)
    requires p.start <= Reach(ps) && forall i :: 0 <= i < |ps| ==> ps[i].start <= Reach(ps[..i])
    ensures Reach(ps + [p]) == if p.end > Reach(ps) then p.end else Reach(ps)
    ensures forall i :: 0 <= i < |ps| + 1 ==> (ps + [p])[i].start <= Reach((ps + [p])[..i])
  {
    var r := ps + [p];
    assert r[..|ps|] == ps;
    forall i | 0 <= i < |r| ensures r[i].start <= Reach(r[..i]) {
      if i < |ps| { assert r[..i] == ps[..i]; }
    }
  }

  lemma Emits(t: State)
    requires ReadInv(t) && t.reader.Sized?
    ensures ReadInv(Next(t, Advance))
  {
    var r := Next(t, Advance);
    if t.reader.o < t.reader.s {
      Appended(t.pieces, Piece(t.reader.o, t.reader.s, t.bytes[t.reader.o..t.reader.s]));
    }
  }

  lemma ReadInvNext(t: State, c: Choice)
    requires ReadInv(t)
    ensures ReadInv(Next(t, c))
  {
    if c.Written? { Grown(t, c.more); }
    else if c.Advance? && t.reader.Sized? { Emits(t); }
  }

  lemma {:induction false} ReadInvRun(t: State, cs: seq<Choice>)
    requires Initial(t)
    ensures ReadInv(Run(t, cs))
  {
    if cs == [] {
    } else {
      ReadInvRun(t, cs[..|cs| - 1]);
      ReadInvNext(Run(t, cs[..|cs| - 1]), cs[|cs| - 1]);
    }
  }

  lemma {:induction false} NovelIsPrefix(bytes: string, ps: seq<Piece>)
    requires Reach(ps) <= |bytes|
    requires forall i :: 0 <= i < |ps| ==>
               ps[i].start <= Reach(ps[..i]) && ps[i].start < ps[i].end <= |bytes| && ps[i].text == bytes[ps[i].start..ps[i].end]
    ensures Novel(ps) == bytes[..Reach(ps)]
  {
    if ps == [] {
    } else {
      var init, p := ps[..|ps| - 1], ps[|ps| - 1];
      forall i | 0 <= i < |init| ensures init[i].start <= Reach(init[..i]) { assert init[..i] == ps[..i]; }
      NovelIsPrefix(bytes, init);
      var r := Reach(init);
      if r <= p.end {
        assert p.text[r - p.start..] == bytes[r..p.end];
        assert bytes[..p.end] == bytes[..r] + bytes[r..p.end];
      }
    }
  }

  /** Whatever crashes and whatever is written meanwhile, nothing below the saved offset was ever skipped: the returned
      pieces, without repeats, are exactly the recording up to where they reach, and the offset never passes that. */
  lemma NothingSkipped(t: State, cs: seq<Choice>)
    requires Initial(t)
    ensures var r := Run(t, cs); r.saved <= Reach(r.pieces) <= |r.bytes| && Novel(r.pieces) == r.bytes[..Reach(r.pieces)]
  {
    ReadInvRun(t, cs);
    var r := Run(t, cs);
    NovelIsPrefix(r.bytes, r.pieces);
  }

  /** Without a crash each piece starts where the last ended. */
  ghost predicate Exact(t: State) {
    && Reach(t.pieces) <= |t.bytes| && Concat(t.pieces) == t.bytes[..Reach(t.pieces)]
    && Reach(t.pieces) == if t.reader.Emitted? then t.reader.s else t.saved
  }

  lemma ExactNext(t: State, c: Choice)
    requires ReadInv(t) && Exact(t) && !c.Crash?
    ensures Exact(Next(t, c))
  {
    var r := Next(t, c);
    if c.Written? {
      assert r.bytes[..|t.bytes|] == t.bytes;
      assert r.bytes[..Reach(t.pieces)] == t.bytes[..Reach(t.pieces)];
    } else if t.reader.Sized? {
      if t.reader.o < t.reader.s {
        assert r.pieces[..|t.pieces|] == t.pieces;
        assert t.bytes[..t.reader.s] == t.bytes[..t.reader.o] + t.bytes[t.reader.o..t.reader.s];
      }
    }
  }

  lemma {:induction false} ExactRun(t: State, cs: seq<Choice>)
    requires Initial(t) && forall i :: 0 <= i < |cs| ==> !cs[i].Crash?
    ensures Exact(Run(t, cs))
  {
    if cs == [] {
    } else {
      ExactRun(t, cs[..|cs| - 1]);
      ReadInvRun(t, cs[..|cs| - 1]);
      ExactNext(Run(t, cs[..|cs| - 1]), cs[|cs| - 1]);
    }
  }

  /** Without a crash, whatever is written between any two steps of a read, the successive outputs are together exactly
      the bytes of the recording up to the saved offset: none skipped, none repeated. */
  lemma ReadsConserve(t: State, cs: seq<Choice>)
    requires Initial(t) && (forall i :: 0 <= i < |cs| ==> !cs[i].Crash?) && !Run(t, cs).reader.Emitted?
    ensures var r := Run(t, cs); r.saved <= |r.bytes| && Concat(r.pieces) == r.bytes[..r.saved]
  {
    ExactRun(t, cs);
    ReadInvRun(t, cs);
  }
}
