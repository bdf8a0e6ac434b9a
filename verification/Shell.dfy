/** The shell's view of a command: its words, its lower-case form, and what it contains. */
module Shell {
  predicate Alnum(c: char) { 'a' <= c <= 'z' || 'A' <= c <= 'Z' || '0' <= c <= '9' }

  /** `[A-Za-z0-9 ._:@/=,+-]`, what the dispatcher and the gate let through. */
  predicate Allowed(c: char) {
    Alnum(c) || c == ' ' || c == '.' || c == '_' || c == ':' || c == '@' || c == '/' || c == '=' || c == ',' || c == '+' || c == '-'
  }

  predicate AllAllowed(s: string) { forall i :: 0 <= i < |s| ==> Allowed(s[i]) }

  /** What one argument looks like after a word split. */
  predicate Plain(w: string) { w != "" && ' ' !in w }

  predicate AllPlain(ws: seq<string>) { forall i :: 0 <= i < |ws| ==> Plain(ws[i]) }

  function Head(s: string): (w: string)
    ensures |w| <= |s| && w == s[..|w|] && ' ' !in w
    ensures |w| == |s| || s[|w|] == ' '
  {
    if s == "" || s[0] == ' ' then "" else [s[0]] + Head(s[1..])
  }

  /** `set -f; set -- $cmd` on a command without tabs or newlines. */
  function Words(s: string): (ws: seq<string>)
    ensures AllPlain(ws)
    decreases |s|
  {
    if s == "" then []
    else if s[0] == ' ' then Words(s[1..])
    else [Head(s)] + Words(s[|Head(s)|..])
  }

  /** `$*`, and what ssh makes of an argument list: the words with one space between. */
  function Join(ws: seq<string>): string {
    if ws == [] then "" else if |ws| == 1 then ws[0] else ws[0] + " " + Join(ws[1..])
  }

  lemma TailLacks(w: string, c: char)
    requires w != "" && c !in w
    ensures w[0] != c && c !in w[1..]
  {
    assert w == [w[0]] + w[1..];
  }

  lemma {:induction false} HeadOf(w: string, rest: string)
    requires ' ' !in w && (rest == "" || rest[0] == ' ')
    ensures Head(w + rest) == w
    decreases |w|
  {
    if w == "" {
      assert w + rest == rest;
    } else {
      assert (w + rest)[1..] == w[1..] + rest;
      TailLacks(w, ' ');
      HeadOf(w[1..], rest);
    }
  }

  lemma {:induction false} SplitPlain(ws: seq<string>)
    requires AllPlain(ws)
    ensures Words(Join(ws)) == ws
  {
    if ws == [] {
    } else {
      var rest := if |ws| == 1 then "" else " " + Join(ws[1..]);
      assert Join(ws) == ws[0] + rest;
      HeadOf(ws[0], rest);
      assert Join(ws)[|ws[0]|..] == rest;
      assert ws[0][0] in ws[0];
      assert Join(ws)[0] == ws[0][0];
      if |ws| > 1 {
        SplitPlain(ws[1..]);
        assert rest[1..] == Join(ws[1..]);
      }
      assert ws == [ws[0]] + ws[1..];
    }
  }

  lemma JoinMore(a: string, ws: seq<string>)
    requires ws != []
    ensures Join([a] + ws) == a + " " + Join(ws)
  {
    assert ([a] + ws)[1..] == ws;
  }

  /** A plain word and a space before any text come off as one word. */
  lemma WordsAfter(a: string, s: string)
    requires Plain(a)
    ensures Words(a + " " + s) == [a] + Words(s)
  {
    var t := a + " " + s;
    assert t == a + (" " + s) && t[0] == a[0] && a[0] in a;
    HeadOf(a, " " + s);
    assert t[|a|..] == " " + s && (" " + s)[1..] == s;
  }

  lemma OneWord(w: string)
    requires Plain(w)
    ensures Words(w) == [w]
  {
    SplitPlain([w]);
  }

  /** Splitting a joined argument list gives the list back, for exactly the lists whose arguments are all non-empty
      and free of spaces. */
  lemma {:induction false} SplitJoin(ws: seq<string>)
    ensures Words(Join(ws)) == ws <==> AllPlain(ws)
  {
    if AllPlain(ws) { SplitPlain(ws); }
  }

  // ----- a word inside a command -----

  /** w stands in s at i, with a space or an end of s on either side. */
  predicate At(s: string, i: nat, w: string) {
    && i + |w| <= |s| && s[i..i + |w|] == w
    && (i == 0 || s[i - 1] == ' ') && (i + |w| == |s| || s[i + |w|] == ' ')
  }

  lemma AtShift(s: string, n: nat, i: nat, w: string)
    requires n <= i && n <= |s|
    requires i == n ==> n == 0 || s[n - 1] == ' '
    ensures At(s, i, w) <==> At(s[n..], i - n, w)
  {
    if i + |w| <= |s| { assert s[i..i + |w|] == s[n..][i - n..i - n + |w|]; }
  }

  lemma AtHead(s: string, w: string)
    requires Plain(w)
    ensures At(s, 0, w) <==> s != "" && s[0] != ' ' && Head(s) == w
  {
    if At(s, 0, w) {
      var rest := s[|w|..];
      assert s == w + rest;
      HeadOf(w, rest);
      assert w[0] in w;
    }
  }

  lemma NotBeforeRest(s: string, i: nat, w: string)
    requires s != "" && s[0] != ' ' && Plain(w) && 0 < i && At(s, i, w)
    ensures |Head(s)| < i
  {
    var h := Head(s);
    forall k | 0 <= k < |h| ensures s[k] != ' ' {
      assert s[k] == h[k] && h[k] in h;
    }
  }

  lemma AtStarts(s: string, i: nat, w: string)
    requires Plain(w) && At(s, i, w)
    ensures i < |s| && s[i] == w[0] != ' '
  {
    assert s[i] == s[i..i + |w|][0];
    assert w[0] in w;
  }

  lemma {:induction false} WordIsAt(s: string, w: string) returns (i: nat)
    requires w in Words(s)
    ensures At(s, i, w)
    decreases |s|
  {
    if s[0] == ' ' {
      var k := WordIsAt(s[1..], w);
      i := k + 1;
      AtShift(s, 1, i, w);
    } else if w == Head(s) {
      i := 0;
      AtHead(s, w);
    } else {
      var n := |Head(s)|;
      var k := WordIsAt(s[n..], w);
      i := k + n;
      AtStarts(s[n..], k, w);
      AtShift(s, n, i, w);
    }
  }

  lemma {:induction false} AtIsWord(s: string, i: nat, w: string)
    requires Plain(w) && At(s, i, w)
    ensures w in Words(s)
    decreases |s|
  {
    AtStarts(s, i, w);
    if s[0] == ' ' {
      AtShift(s, 1, i, w);
      AtIsWord(s[1..], i - 1, w);
    } else if i == 0 {
      AtHead(s, w);
    } else {
      NotBeforeRest(s, i, w);
      AtShift(s, |Head(s)|, i, w);
      AtIsWord(s[|Head(s)|..], i - |Head(s)|, w);
    }
  }

  // ----- substrings -----

  predicate HasAt(s: string, i: int, p: string) {
    0 <= i && i + |p| <= |s| && s[i..i + |p|] == p
  }

  predicate Contains(s: string, p: string) {
    exists i :: 0 <= i <= |s| && HasAt(s, i, p)
  }

  lemma PadAt(s: string, i: nat, w: string)
    requires At(s, i, w)
    ensures HasAt(" " + s + " ", i, " " + w + " ")
  {
    var t, p := " " + s + " ", " " + w + " ";
    forall k | 0 <= k < |p| ensures t[i + k] == p[k] {
      if 1 <= k <= |w| { assert t[i + k] == s[i..i + |w|][k - 1]; }
    }
    assert t[i..i + |p|] == p;
  }

  lemma UnpadAt(s: string, i: nat, w: string)
    requires HasAt(" " + s + " ", i, " " + w + " ")
    ensures At(s, i, w)
  {
    var t, p := " " + s + " ", " " + w + " ";
    assert forall k :: 0 <= k < |p| ==> t[i..i + |p|][k] == p[k];
    assert t[i] == p[0] && t[i + |w| + 1] == p[|w| + 1];
    forall k | 0 <= k < |w| ensures s[i + k] == w[k] {
      assert t[i + 1 + k] == p[1 + k];
    }
    assert s[i..i + |w|] == w;
  }

  /** The gate's test `case " $cmd " in *" $tid "*)` asks whether the typed word is one of the command's words. */
  lemma PaddedSubstring(s: string, w: string)
    requires Plain(w)
    ensures Contains(" " + s + " ", " " + w + " ") <==> w in Words(s)
  {
    if w in Words(s) {
      var i := WordIsAt(s, w);
      PadAt(s, i, w);
    }
    if Contains(" " + s + " ", " " + w + " ") {
      var i :| 0 <= i && HasAt(" " + s + " ", i, " " + w + " ");
      UnpadAt(s, i, w);
      AtIsWord(s, i, w);
    }
  }

  lemma AllowedParts(a: string, b: string)
    ensures AllAllowed(a + " " + b) <==> AllAllowed(a) && AllAllowed(b)
  {
    var s := a + " " + b;
    assert s[..|a|] == a && s[|a| + 1..] == b;
    if AllAllowed(s) {
      forall i | 0 <= i < |a| ensures Allowed(a[i]) { assert a[i] == s[i]; }
      forall i | 0 <= i < |b| ensures Allowed(b[i]) { assert b[i] == s[|a| + 1 + i]; }
    }
  }

  lemma {:induction false} JoinAllowed(ws: seq<string>)
    ensures AllAllowed(Join(ws)) <==> forall i :: 0 <= i < |ws| ==> AllAllowed(ws[i])
  {
    if |ws| <= 1 {
    } else {
      JoinAllowed(ws[1..]);
      AllowedParts(ws[0], Join(ws[1..]));
      assert ws == [ws[0]] + ws[1..];
    }
  }

  // ----- case -----

  function LowerChar(c: char): char { if 'A' <= c <= 'Z' then c + 32 as char else c }

  /** `tr 'A-Z' 'a-z'` */
  function Lower(s: string): string {
    seq(|s|, i requires 0 <= i < |s| => LowerChar(s[i]))
  }

  // ----- the alphabets and the cases, character by character -----

  const UPPER :=
    {'A', 'B', 'C', 'D', 'E', 'F', 'G', 'H', 'I', 'J', 'K', 'L', 'M',
     'N', 'O', 'P', 'Q', 'R', 'S', 'T', 'U', 'V', 'W', 'X', 'Y', 'Z'}
  const LOWER :=
    {'a', 'b', 'c', 'd', 'e', 'f', 'g', 'h', 'i', 'j', 'k', 'l', 'm',
     'n', 'o', 'p', 'q', 'r', 's', 't', 'u', 'v', 'w', 'x', 'y', 'z'}
  const DIGITS := {'0', '1', '2', '3', '4', '5', '6', '7', '8', '9'}

  lemma Ranges(c: char)
    ensures 'A' <= c <= 'Z' <==> c in UPPER
    ensures 'a' <= c <= 'z' <==> c in LOWER
    ensures '0' <= c <= '9' <==> c in DIGITS
  {
  }

  /** Only letters, digits, spaces and `._:@/=,+-`. */
  predicate Sendable(s: string) {
    forall i :: 0 <= i < |s| ==> s[i] in UPPER + LOWER + DIGITS + {' ', '.', '_', ':', '@', '/', '=', ',', '+', '-'}
  }

  lemma SendableIsAllowed(s: string)
    ensures Sendable(s) <==> AllAllowed(s)
  {
    forall i | 0 <= i < |s|
      ensures Allowed(s[i]) <==> s[i] in UPPER + LOWER + DIGITS + {' ', '.', '_', ':', '@', '/', '=', ',', '+', '-'}
    {
      Ranges(s[i]);
    }
  }

  /** The same character, or the two cases of one letter, which lie 32 apart. */
  predicate SameLetter(a: char, b: char) {
    a == b || (a in UPPER && b as int == a as int + 32) || (b in UPPER && a as int == b as int + 32)
  }

  /** p stands in s at i, whatever the case of the letters. */
  predicate WithinAt(p: string, s: string, i: int) {
    0 <= i && i + |p| <= |s| && forall k :: 0 <= k < |p| ==> SameLetter(s[i + k], p[k])
  }

  predicate Within(p: string, s: string) { exists i :: 0 <= i <= |s| && WithinAt(p, s, i) }

  lemma SameLower(a: char, b: char)
    ensures SameLetter(a, b) <==> LowerChar(a) == LowerChar(b)
  {
    Ranges(a);
    Ranges(b);
  }

  lemma LowerAt(s: string, p: string, i: int)
    ensures WithinAt(p, s, i) <==> HasAt(Lower(s), i, Lower(p))
  {
    if 0 <= i && i + |p| <= |s| {
      forall k | 0 <= k < |p| ensures SameLetter(s[i + k], p[k]) <==> Lower(s)[i..i + |p|][k] == Lower(p)[k] {
        SameLower(s[i + k], p[k]);
      }
    }
  }

  /** Comparing in lower case is containment whatever the case. */
  lemma LowerContains(s: string, p: string)
    ensures Contains(Lower(s), Lower(p)) <==> Within(p, s)
  {
    forall i ensures WithinAt(p, s, i) <==> HasAt(Lower(s), i, Lower(p)) { LowerAt(s, p, i); }
  }

  // ----- lines -----

  function FirstLine(s: string): string {
    if s == "" || s[0] == '\n' then "" else [s[0]] + FirstLine(s[1..])
  }

  /** The rest after the first line and its newline. */
  function NextLines(s: string): string {
    if s == "" then "" else if s[0] == '\n' then s[1..] else NextLines(s[1..])
  }

  /** `sed -n Np`, the empty text when there are fewer lines. */
  function Line(s: string, n: nat): string
    decreases n
  {
    if n <= 1 then FirstLine(s) else Line(NextLines(s), n - 1)
  }

  /** `$(...)` drops trailing newlines. */
  function Strip(s: string): string {
    if s != "" && s[|s| - 1] == '\n' then Strip(s[..|s| - 1]) else s
  }

  lemma {:induction false} LineThenRest(a: string, rest: string)
    requires '\n' !in a
    ensures FirstLine(a + "\n" + rest) == a && NextLines(a + "\n" + rest) == rest
  {
    var s := a + "\n" + rest;
    if a == "" {
      assert s[1..] == rest;
    } else {
      assert s[1..] == a[1..] + "\n" + rest;
      TailLacks(a, '\n');
      LineThenRest(a[1..], rest);
    }
  }

  lemma {:induction false} LastLine(a: string)
    requires '\n' !in a
    ensures FirstLine(a) == a
  {
    if a == "" {
    } else {
      TailLacks(a, '\n');
      LastLine(a[1..]);
    }
  }

  /** Three lines written one after the other are read back as the three lines. */
  lemma ThreeLines(a: string, b: string, c: string)
    requires '\n' !in a && '\n' !in b && '\n' !in c && c != ""
    ensures var s := Strip(a + "\n" + b + "\n" + c + "\n");
            Line(s, 1) == a && Line(s, 2) == b && Line(s, 3) == c
  {
    var w := a + "\n" + b + "\n" + c + "\n";
    var s := a + "\n" + (b + "\n" + c);
    assert w[..|w| - 1] == s;
    assert s[|s| - 1] == c[|c| - 1] && c[|c| - 1] in c;
    assert Strip(w) == s;
    LineThenRest(a, b + "\n" + c);
    LineThenRest(b, c);
    LastLine(c);
    assert Line(s, 2) == Line(NextLines(s), 1);
    assert Line(s, 3) == Line(NextLines(s), 2) == Line(NextLines(NextLines(s)), 1);
  }
}
