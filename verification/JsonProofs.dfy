/** The two printers read back exactly, and the canonical text decides a value up to dictionary order. */
module JsonProofs {
  import opened Options
  import opened JsonText

  // ----- strings -----

  lemma {:induction false} UnhexDigit(d: nat)
    requires d < 16
    ensures Unhex(Digit(d)) == Some(d)
  {
    if d < 10 { assert Digit(d) as int == 48 + d; } else { assert Digit(d) as int == 87 + d; }
  }

  lemma HexDigitsSum(n: nat)
    requires n < 0x10000
    ensures n / 0x1000 * 0x1000 + n / 0x100 % 16 * 0x100 + n / 16 % 16 * 16 + n % 16 == n
  {
    assert n / 0x100 == n / 16 / 16 && n / 0x1000 == n / 0x100 / 16;
  }

  lemma {:induction false} ReadHexBack(n: nat, s: string)
    requires n < 0x10000 && |s| >= 4 && s[..4] == Hex4(n)
    ensures ReadHex4(s) == Some(n)
  {
    var h := Hex4(n);
    assert s[0] == h[0] && s[1] == h[1] && s[2] == h[2] && s[3] == h[3];
    UnhexDigit(n / 0x1000); UnhexDigit(n / 0x100 % 16); UnhexDigit(n / 16 % 16); UnhexDigit(n % 16);
    HexDigitsSum(n);
  }

  /** What `ReadChar` sees at a \u escape: the code unit and what follows it. */
  lemma {:induction false} UnitAt(n: nat, t: string)
    requires n < 0x10000
    ensures var s := "\\u" + Hex4(n) + t;
            |s| == 6 + |t| && s[0] == '\\' && s[1] == 'u' && ReadHex4(s[2..]) == Some(n) && s[6..] == t
  {
    var s := "\\u" + Hex4(n) + t;
    assert s[2..][..4] == Hex4(n);
    ReadHexBack(n, s[2..]);
  }

  lemma PairRead(s: string, hi: nat, lo: nat, t: string)
    requires |s| >= 12 && s[0] == '\\' && s[1] == 'u' && s[6] == '\\' && s[7] == 'u' && s[12..] == t
    requires ReadHex4(s[2..]) == Some(hi) && ReadHex4(s[8..]) == Some(lo)
    requires 0xD800 <= hi < 0xDC00 && 0xDC00 <= lo < 0xE000
    ensures ReadChar(s) == Some(Parsed((0x10000 + (hi - 0xD800) * 0x400 + (lo - 0xDC00)) as char, t))
  {
  }

  lemma Shifted(s: string, tail: string)
    requires |s| == 6 + |tail| && s[6..] == tail && |tail| >= 6
    ensures s[6] == tail[0] && s[7] == tail[1] && s[8..] == tail[2..] && s[12..] == tail[6..]
  {
  }

  lemma PairAt(s: string, tail: string, hi: nat, lo: nat, t: string)
    requires 0xD800 <= hi < 0xDC00 && 0xDC00 <= lo < 0xE000
    requires s == "\\u" + Hex4(hi) + tail && tail == "\\u" + Hex4(lo) + t
    ensures ReadChar(s) == Some(Parsed((0x10000 + (hi - 0xD800) * 0x400 + (lo - 0xDC00)) as char, t))
  {
    UnitAt(hi, tail);
    UnitAt(lo, t);
    Shifted(s, tail);
    PairRead(s, hi, lo, t);
  }

  lemma UnitRead(s: string, n: nat, t: string)
    requires |s| >= 6 && s[0] == '\\' && s[1] == 'u' && s[6..] == t && ReadHex4(s[2..]) == Some(n)
    requires n < 0xD800 || 0xE000 <= n < 0x10000
    ensures ReadChar(s) == Some(Parsed(n as char, t))
  {
  }

  lemma ReadUnit(n: nat, t: string)
    requires n < 0xD800 || 0xE000 <= n < 0x10000
    ensures ReadChar("\\u" + Hex4(n) + t) == Some(Parsed(n as char, t))
  {
    UnitAt(n, t);
    UnitRead("\\u" + Hex4(n) + t, n, t);
  }

  lemma ReadPair(n: nat, t: string)
    requires 0x10000 <= n < 0x110000
    ensures ReadChar("\\u" + Hex4(0xD800 + (n - 0x10000) / 0x400) + ("\\u" + Hex4(0xDC00 + (n - 0x10000) % 0x400) + t))
         == Some(Parsed(n as char, t))
  {
    var tail := "\\u" + Hex4(0xDC00 + (n - 0x10000) % 0x400) + t;
    PairAt("\\u" + Hex4(0xD800 + (n - 0x10000) / 0x400) + tail, tail,
           0xD800 + (n - 0x10000) / 0x400, 0xDC00 + (n - 0x10000) % 0x400, t);
  }

  function Pair(n: nat): string
    requires 0x10000 <= n < 0x110000
  {
    "\\u" + Hex4(0xD800 + (n - 0x10000) / 0x400) + "\\u" + Hex4(0xDC00 + (n - 0x10000) % 0x400)
  }

  lemma PairText(n: nat, t: string)
    requires 0x10000 <= n < 0x110000
    ensures Pair(n) + t == "\\u" + Hex4(0xD800 + (n - 0x10000) / 0x400) + ("\\u" + Hex4(0xDC00 + (n - 0x10000) % 0x400) + t)
  {
  }

  lemma PairBack(n: nat, t: string)
    requires 0x10000 <= n < 0x110000
    ensures ReadChar(Pair(n) + t) == Some(Parsed(n as char, t))
  {
    PairText(n, t);
    ReadPair(n, t);
  }

  lemma EscapeText(c: char)
    ensures UEscape(c) == if c as int < 0x10000 then "\\u" + Hex4(c as int) else Pair(c as int)
  {
  }

  lemma ReadUEscape(c: char, t: string)
    ensures ReadChar(UEscape(c) + t) == Some(Parsed(c, t))
  {
    EscapeText(c);
    if c as int < 0x10000 { ReadUnit(c as int, t); } else { PairBack(c as int, t); }
  }

  lemma {:induction false} ReadCharBack(c: char, ascii: bool, t: string)
    ensures ReadChar(EscapeChar(c, ascii) + t) == Some(Parsed(c, t))
    ensures EscapeChar(c, ascii) != "" && EscapeChar(c, ascii)[0] != '\"'
  {
    var e := EscapeChar(c, ascii);
    if |e| == 1 {
      assert (e + t)[1..] == t;
    } else if |e| == 2 {
      assert (e + t)[2..] == t;
    } else {
      ReadUEscape(c, t);
    }
  }

  lemma BodyStep(s: string, c: char, after: string, body: string, t: string)
    requires s != "" && s[0] != '\"' && ReadChar(s) == Some(Parsed(c, after)) && ReadBody(after) == Some(Parsed(body, t))
    ensures ReadBody(s) == Some(Parsed([c] + body, t))
  {
  }

  lemma {:induction false} ReadBodyBack(s: string, ascii: bool, t: string)
    ensures ReadBody(Escapes(s, ascii) + "\"" + t) == Some(Parsed(s, t))
  {
    var text := Escapes(s, ascii) + "\"" + t;
    if s == "" {
      assert text[1..] == t;
    } else {
      var tail := Escapes(s[1..], ascii) + "\"" + t;
      assert text == EscapeChar(s[0], ascii) + tail;
      ReadCharBack(s[0], ascii, tail);
      ReadBodyBack(s[1..], ascii, t);
      BodyStep(text, s[0], tail, s[1..], t);
      assert s == [s[0]] + s[1..];
    }
  }

  // ----- numbers -----

  predicate NoDigitNext(t: string) { t == "" || !IsDigit(t[0]) }

  lemma {:induction false} DecimalReads(n: nat)
    ensures Decimal(n) != "" && IsDigit(Decimal(n)[0])
    ensures forall c <- Decimal(n) :: IsDigit(c)
    ensures NatOf(Decimal(n)) == n
    ensures Decimal(n)[0] == '0' ==> n == 0
  {
    var d := Digit(n % 10);
    assert d as int == 48 + n % 10;
    if n < 10 {
      assert [d][..0] == "";
    } else {
      DecimalReads(n / 10);
      var h := Decimal(n / 10);
      assert Decimal(n) == h + [d];
      assert (h + [d])[..|h|] == h;
    }
  }

  lemma {:induction false} DigitCountStops(s: string, t: string)
    requires forall c <- s :: IsDigit(c)
    requires NoDigitNext(t)
    ensures DigitCount(s + t) == |s|
  {
    if s == "" {
      assert s + t == t;
    } else {
      assert (s + t)[1..] == s[1..] + t;
      DigitCountStops(s[1..], t);
    }
  }

  lemma {:induction false} ReadNatBack(n: nat, t: string)
    requires NoDigitNext(t)
    ensures ReadNat(Decimal(n) + t) == Some(Parsed(n, t))
  {
    DecimalReads(n);
    DigitCountStops(Decimal(n), t);
    assert (Decimal(n) + t)[0] == Decimal(n)[0];
    assert (Decimal(n) + t)[..|Decimal(n)|] == Decimal(n);
    assert (Decimal(n) + t)[|Decimal(n)|..] == t;
  }

  lemma ReadNegativeBack(s: string, m: nat, t: string)
    requires NoDigitNext(t) && s != "" && s[0] == '-' && s[1..] == Decimal(m) + t
    ensures ReadNumber(s) == Some(Parsed(Int(0 - m as int), t))
  {
    ReadNatBack(m, t);
  }

  lemma ReadPositiveBack(s: string, m: nat, t: string)
    requires NoDigitNext(t) && s == Decimal(m) + t
    ensures ReadNumber(s) == Some(Parsed(Int(m), t))
  {
    ReadNatBack(m, t);
    DecimalReads(m);
    assert s[0] == Decimal(m)[0];
  }

  lemma {:induction false} ReadIntBack(n: int, t: string)
    requires NoDigitNext(t)
    ensures ReadNumber(PrintInt(n) + t) == Some(Parsed(Int(n), t))
    ensures PrintInt(n) != "" && (PrintInt(n)[0] == '-' || IsDigit(PrintInt(n)[0]))
  {
    var s := PrintInt(n) + t;
    if n < 0 {
      assert s[1..] == Decimal(-n) + t;
      ReadNegativeBack(s, -n, t);
    } else {
      DecimalReads(n);
      ReadPositiveBack(s, n, t);
    }
  }

  // ----- values -----

  lemma {:induction false} PrintStarts(j: Json, ascii: bool)
    ensures var p := Print(j, ascii); p != "" && p[0] != ']' && p[0] != '}' && !IsSpace(p[0])
  {
    if j.Int? { ReadIntBack(j.n, ""); }
  }

  lemma StringAt(s: string, v: string, t: string)
    requires s != "" && s[0] == '\"' && ReadBody(s[1..]) == Some(Parsed(v, t))
    ensures ReadScalar(s) == Some(Parsed(Str(v), t))
  {
  }

  lemma QuoteText(body: string, t: string)
    ensures var s := "\"" + body + "\"" + t; s != "" && s[0] == '\"' && s[1..] == body + "\"" + t
  {
  }

  lemma ReadStringBack(v: string, ascii: bool, t: string)
    ensures ReadScalar(Quote(v, ascii) + t) == Some(Parsed(Str(v), t))
  {
    ReadBodyBack(v, ascii, t);
    QuoteText(Escapes(v, ascii), t);
    StringAt(Quote(v, ascii) + t, v, t);
  }

  lemma {:induction false} ReadScalarBack(j: Json, ascii: bool, t: string)
    requires NoDigitNext(t) && !j.Arr? && !j.Obj?
    ensures ReadScalar(Print(j, ascii) + t) == Some(Parsed(j, t))
  {
    match j
    case Null => assert ("null" + t)[4..] == t;
    case Bool(b) =>
      if b { assert ("true" + t)[4..] == t; } else { assert ("false" + t)[5..] == t; }
    case Int(n) => ReadIntBack(n, t);
    case Str(s) => ReadStringBack(s, ascii, t);
  }

  lemma ScalarStarts(j: Json, ascii: bool)
    requires !j.Arr? && !j.Obj?
    ensures Print(j, ascii) != "" && Print(j, ascii)[0] != '[' && Print(j, ascii)[0] != '{'
  {
    if j.Int? { ReadIntBack(j.n, ""); }
  }

  lemma ListAt(s: string, items: seq<Json>, t: string)
    requires |s| > 1 && s[0] == '[' && s[1] != ']' && !IsSpace(s[1]) && ReadItems(s[1..]) == Some(Parsed(items, t))
    ensures ReadValue(s) == Some(Parsed(Arr(items), t))
  {
  }

  lemma DictAt(s: string, ms: seq<Member>, t: string)
    requires |s| > 1 && s[0] == '{' && s[1] != '}' && !IsSpace(s[1]) && ReadMembers(s[1..]) == Some(Parsed(ms, t))
    ensures ReadValue(s) == Some(Parsed(Obj(ms), t))
  {
  }

  lemma EmptyAt(s: string)
    requires |s| > 1
    ensures s[0] == '[' && s[1] == ']' ==> ReadValue(s) == Some(Parsed(Arr([]), s[2..]))
    ensures s[0] == '{' && s[1] == '}' ==> ReadValue(s) == Some(Parsed(Obj([]), s[2..]))
    ensures s[0] != '[' && s[0] != '{' ==> ReadValue(s) == ReadScalar(s)
  {
  }

  lemma ScalarAt(s: string)
    requires s != "" && s[0] != '[' && s[0] != '{'
    ensures ReadValue(s) == ReadScalar(s)
  {
  }

  lemma LastItem(s: string, v: Json, after: string)
    requires ReadValue(s) == Some(Parsed(v, after)) && after != "" && after[0] == ']'
    ensures ReadItems(s) == Some(Parsed([v], after[1..]))
  {
  }

  lemma MoreItems(s: string, v: Json, after: string, vs: seq<Json>, t: string)
    requires ReadValue(s) == Some(Parsed(v, after)) && after != "" && after[0] == ','
    requires NoSpaceNext(after[1..]) && ReadItems(after[1..]) == Some(Parsed(vs, t))
    ensures ReadItems(s) == Some(Parsed([v] + vs, t))
  {
  }

  lemma MemberAt(s: string, k: string, colon: string, v: Json, t: string)
    requires s != "" && s[0] == '\"' && ReadBody(s[1..]) == Some(Parsed(k, colon))
    requires colon != "" && colon[0] == ':' && NoSpaceNext(colon[1..]) && ReadValue(colon[1..]) == Some(Parsed(v, t))
    ensures ReadMember(s) == Some(Parsed(Member(k, v), t))
  {
  }

  lemma LastMember(s: string, m: Member, after: string)
    requires ReadMember(s) == Some(Parsed(m, after)) && after != "" && after[0] == '}'
    ensures ReadMembers(s) == Some(Parsed([m], after[1..]))
  {
  }

  lemma MoreMembers(s: string, m: Member, after: string, ms: seq<Member>, t: string)
    requires ReadMember(s) == Some(Parsed(m, after)) && after != "" && after[0] == ','
    requires NoSpaceNext(after[1..]) && ReadMembers(after[1..]) == Some(Parsed(ms, t))
    ensures ReadMembers(s) == Some(Parsed([m] + ms, t))
  {
  }

  /** Every printed value is read back whole, in either alphabet and before any text that does not begin with a digit. */
  lemma {:induction false} ReadBack(j: Json, ascii: bool, t: string)
    requires NoDigitNext(t)
    ensures ReadValue(Print(j, ascii) + t) == Some(Parsed(j, t))
    decreases j, 1
  {
    match j
    case Arr(items) => ReadListBack(items, ascii, t);
    case Obj(ms) => ReadDictBack(ms, ascii, t);
    case _ =>
      ReadScalarBack(j, ascii, t);
      ScalarStarts(j, ascii);
      ScalarAt(Print(j, ascii) + t);
  }

  lemma {:induction false} ReadListBack(items: seq<Json>, ascii: bool, t: string)
    ensures ReadValue("[" + PrintItems(items, ascii) + "]" + t) == Some(Parsed(Arr(items), t))
    decreases items, 1
  {
    var s := "[" + PrintItems(items, ascii) + "]" + t;
    if items == [] {
      EmptyAt(s);
      assert s[2..] == t;
    } else {
      ReadItemsBack(items, ascii, t);
      PrintStarts(items[0], ascii);
      assert s[1..] == PrintItems(items, ascii) + "]" + t;
      assert s[1] == PrintItems(items, ascii)[0];
      ListAt(s, items, t);
    }
  }

  lemma MembersStart(ms: seq<Member>, ascii: bool)
    requires ms != []
    ensures PrintMembers(ms, ascii) != "" && PrintMembers(ms, ascii)[0] == '\"'
  {
    assert PrintMember(ms[0], ascii)[0] == '\"';
  }

  lemma DictText(body: string, t: string)
    requires body != ""
    ensures var s := "{" + body + "}" + t; |s| > 1 && s[0] == '{' && s[1] == body[0] && s[1..] == body + "}" + t
  {
  }

  lemma {:induction false} ReadDictBack(ms: seq<Member>, ascii: bool, t: string)
    ensures ReadValue("{" + PrintMembers(ms, ascii) + "}" + t) == Some(Parsed(Obj(ms), t))
    decreases ms, 2
  {
    var body := PrintMembers(ms, ascii);
    var s := "{" + body + "}" + t;
    if ms == [] {
      EmptyAt(s);
      assert s[2..] == t;
    } else {
      ReadMembersBack(ms, ascii, t);
      MembersStart(ms, ascii);
      DictText(body, t);
      DictAt(s, ms, t);
    }
  }

  lemma ItemsOne(j: Json, ascii: bool, t: string)
    requires ReadValue(Print(j, ascii) + ("]" + t)) == Some(Parsed(j, "]" + t))
    ensures ReadItems(PrintItems([j], ascii) + "]" + t) == Some(Parsed([j], t))
  {
    var s := PrintItems([j], ascii) + "]" + t;
    assert s == Print(j, ascii) + ("]" + t);
    LastItem(s, j, "]" + t);
  }

  lemma ItemsSplit(items: seq<Json>, ascii: bool, t: string)
    requires |items| > 1
    ensures PrintItems(items, ascii) + "]" + t
         == Print(items[0], ascii) + ("," + (PrintItems(items[1..], ascii) + "]" + t))
  {
  }

  lemma ItemsMore(items: seq<Json>, s: string, tail: string, t: string)
    requires |items| > 1 && ReadValue(s) == Some(Parsed(items[0], "," + tail)) && ReadItems(tail) == Some(Parsed(items[1..], t))
    requires NoSpaceNext(tail)
    ensures ReadItems(s) == Some(Parsed(items, t))
  {
    MoreItems(s, items[0], "," + tail, items[1..], t);
    assert items == [items[0]] + items[1..];
  }

  lemma {:induction false} ReadItemsBack(items: seq<Json>, ascii: bool, t: string)
    requires items != []
    ensures ReadItems(PrintItems(items, ascii) + "]" + t) == Some(Parsed(items, t))
    decreases items, 0
  {
    if |items| == 1 {
      ReadBack(items[0], ascii, "]" + t);
      ItemsOne(items[0], ascii, t);
      assert items == [items[0]];
    } else {
      var tail := PrintItems(items[1..], ascii) + "]" + t;
      ItemsSplit(items, ascii, t);
      PrintStarts(items[1], ascii);
      assert tail[0] == Print(items[1], ascii)[0];
      ReadBack(items[0], ascii, "," + tail);
      ReadItemsBack(items[1..], ascii, t);
      ItemsMore(items, PrintItems(items, ascii) + "]" + t, tail, t);
    }
  }

  lemma ValueStarts(j: Json, ascii: bool, t: string)
    ensures Print(j, ascii) + t != "" && NoSpaceNext(Print(j, ascii) + t)
  {
    PrintStarts(j, ascii);
    assert (Print(j, ascii) + t)[0] == Print(j, ascii)[0];
  }

  lemma MemberText(key: string, value: string, t: string)
    ensures var s := ("\"" + key + "\"") + ":" + value + t;
            s != "" && s[0] == '\"' && s[1..] == key + "\"" + (":" + (value + t))
  {
  }

  lemma ColonThen(value: string)
    ensures var s := ":" + value; s != "" && s[0] == ':' && s[1..] == value
  {
  }

  lemma {:induction false} ReadMemberBack(m: Member, ascii: bool, t: string)
    requires NoDigitNext(t)
    ensures ReadMember(PrintMember(m, ascii) + t) == Some(Parsed(m, t))
    decreases m, 2
  {
    var value := Print(m.value, ascii) + t;
    MemberText(Escapes(m.key, ascii), Print(m.value, ascii), t);
    ReadBodyBack(m.key, ascii, ":" + value);
    ReadBack(m.value, ascii, t);
    ValueStarts(m.value, ascii, t);
    ColonThen(value);
    MemberAt(PrintMember(m, ascii) + t, m.key, ":" + value, m.value, t);
  }

  lemma MembersSplit(ms: seq<Member>, ascii: bool, t: string)
    requires |ms| > 1
    ensures PrintMembers(ms, ascii) + "}" + t
         == PrintMember(ms[0], ascii) + ("," + (PrintMembers(ms[1..], ascii) + "}" + t))
  {
  }

  lemma MembersOne(m: Member, ascii: bool, t: string)
    requires ReadMember(PrintMember(m, ascii) + ("}" + t)) == Some(Parsed(m, "}" + t))
    ensures ReadMembers(PrintMembers([m], ascii) + "}" + t) == Some(Parsed([m], t))
  {
    var s := PrintMembers([m], ascii) + "}" + t;
    assert s == PrintMember(m, ascii) + ("}" + t);
    LastMember(s, m, "}" + t);
  }

  lemma MembersMore(ms: seq<Member>, s: string, tail: string, t: string)
    requires |ms| > 1 && ReadMember(s) == Some(Parsed(ms[0], "," + tail)) && ReadMembers(tail) == Some(Parsed(ms[1..], t))
    requires NoSpaceNext(tail)
    ensures ReadMembers(s) == Some(Parsed(ms, t))
  {
    MoreMembers(s, ms[0], "," + tail, ms[1..], t);
    assert ms == [ms[0]] + ms[1..];
  }

  lemma {:induction false} ReadMembersBack(ms: seq<Member>, ascii: bool, t: string)
    requires ms != []
    ensures ReadMembers(PrintMembers(ms, ascii) + "}" + t) == Some(Parsed(ms, t))
    decreases ms, 1
  {
    if |ms| == 1 {
      ReadMemberBack(ms[0], ascii, "}" + t);
      MembersOne(ms[0], ascii, t);
      assert ms == [ms[0]];
    } else {
      var tail := PrintMembers(ms[1..], ascii) + "}" + t;
      MembersSplit(ms, ascii, t);
      MembersStart(ms[1..], ascii);
      ReadMemberBack(ms[0], ascii, "," + tail);
      ReadMembersBack(ms[1..], ascii, t);
      MembersMore(ms, PrintMembers(ms, ascii) + "}" + t, tail, t);
    }
  }

  lemma PrintInjective(a: Json, b: Json, ascii: bool)
    requires Print(a, ascii) == Print(b, ascii)
    ensures a == b
  {
    ReadBack(a, ascii, ""); ReadBack(b, ascii, "");
    assert Print(a, ascii) + "" == Print(a, ascii) && Print(b, ascii) + "" == Print(b, ascii);
  }

  // ----- dictionary order -----

  lemma {:induction false} InsertMeaning(m: Member, ms: seq<Member>)
    requires !HasKey(ms, m.key)
    ensures Table(Insert(m, ms)) == Table(ms)[m.key := Mean(m.value)]
    ensures forall k :: HasKey(Insert(m, ms), k) <==> k == m.key || HasKey(ms, k)
    ensures ValuesNormal(ms) && IsNormal(m.value) ==> ValuesNormal(Insert(m, ms))
  {
    if ms == [] || Before(m.key, ms[0].key) {
      assert ([m] + ms)[1..] == ms;
    } else {
      InsertMeaning(m, ms[1..]);
      var r := Insert(m, ms);
      assert r[0] == ms[0] && r[1..] == Insert(m, ms[1..]);
    }
  }

  lemma {:induction false} InsertAscends(m: Member, ms: seq<Member>)
    requires !HasKey(ms, m.key) && Ascending(ms)
    ensures Ascending(Insert(m, ms))
    ensures ms != [] ==> Insert(m, ms)[0].key == ms[0].key || Insert(m, ms)[0].key == m.key
  {
    var r := Insert(m, ms);
    if ms == [] || Before(m.key, ms[0].key) {
      assert r[1..] == ms;
    } else {
      BeforeTotal(m.key, ms[0].key);
      InsertAscends(m, ms[1..]);
      assert r[0] == ms[0] && r[1..] == Insert(m, ms[1..]);
    }
  }

  lemma {:induction false} SortMeaning(ms: seq<Member>)
    requires AreFields(ms)
    ensures Table(SortMembers(ms)) == Table(ms)
    ensures forall k :: HasKey(SortMembers(ms), k) <==> HasKey(ms, k)
    ensures Ascending(SortMembers(ms))
    ensures ValuesNormal(ms) ==> ValuesNormal(SortMembers(ms))
  {
    if ms == [] {
    } else {
      SortMeaning(ms[1..]);
      InsertMeaning(ms[0], SortMembers(ms[1..]));
      InsertAscends(ms[0], SortMembers(ms[1..]));
    }
  }

  /** Sorting keys changes no meaning and leaves every dictionary in ascending key order. */
  lemma {:induction false} NormalizeMeaning(j: Json)
    requires IsDict(j)
    ensures Mean(Normalize(j)) == Mean(j) && IsNormal(Normalize(j))
    decreases j, 1
  {
    match j
    case Arr(items) => NormalizeItemsMeaning(items);
    case Obj(ms) =>
      NormalizeValuesMeaning(ms);
      SortMeaning(NormalizeValues(ms));
    case _ =>
  }

  lemma {:induction false} NormalizeItemsMeaning(items: seq<Json>)
    requires AreDicts(items)
    ensures MeanItems(NormalizeItems(items)) == MeanItems(items) && AreNormal(NormalizeItems(items))
    decreases items, 0
  {
    if items == [] {
    } else {
      NormalizeMeaning(items[0]);
      NormalizeItemsMeaning(items[1..]);
      assert NormalizeItems(items)[1..] == NormalizeItems(items[1..]);
    }
  }

  lemma {:induction false} InsertFields(m: Member, ms: seq<Member>)
    requires AreFields(ms) && !HasKey(ms, m.key) && IsDict(m.value)
    ensures AreFields(Insert(m, ms))
  {
    if ms == [] || Before(m.key, ms[0].key) {
      assert ([m] + ms)[1..] == ms;
    } else {
      InsertFields(m, ms[1..]);
      InsertMeaning(m, ms[1..]);
      assert Insert(m, ms)[1..] == Insert(m, ms[1..]);
    }
  }

  lemma {:induction false} SortFields(ms: seq<Member>)
    requires AreFields(ms)
    ensures AreFields(SortMembers(ms))
  {
    if ms == [] {
    } else {
      SortFields(ms[1..]);
      SortMeaning(ms[1..]);
      InsertFields(ms[0], SortMembers(ms[1..]));
    }
  }

  lemma {:induction false} NormalizeIsDict(j: Json)
    requires IsDict(j)
    ensures IsDict(Normalize(j))
    decreases j, 1
  {
    match j
    case Arr(items) => NormalizeItemsAreDicts(items);
    case Obj(ms) =>
      NormalizeValuesAreFields(ms);
      SortFields(NormalizeValues(ms));
    case _ =>
  }

  lemma {:induction false} NormalizeValuesMeaning(ms: seq<Member>)
    requires AreFields(ms)
    ensures Table(NormalizeValues(ms)) == Table(ms) && ValuesNormal(NormalizeValues(ms))
    ensures AreFields(NormalizeValues(ms))
    ensures forall k :: HasKey(NormalizeValues(ms), k) <==> HasKey(ms, k)
    decreases ms, 0
  {
    if ms == [] {
    } else {
      NormalizeMeaning(ms[0].value);
      NormalizeIsDict(ms[0].value);
      NormalizeValuesMeaning(ms[1..]);
      assert NormalizeValues(ms)[1..] == NormalizeValues(ms[1..]);
    }
  }

  lemma {:induction false} NormalizeItemsAreDicts(items: seq<Json>)
    requires AreDicts(items)
    ensures AreDicts(NormalizeItems(items))
    decreases items, 0
  {
    if items == [] {
    } else {
      NormalizeIsDict(items[0]);
      NormalizeItemsAreDicts(items[1..]);
      assert NormalizeItems(items)[1..] == NormalizeItems(items[1..]);
    }
  }

  lemma {:induction false} NormalizeValuesAreFields(ms: seq<Member>)
    requires AreFields(ms)
    ensures AreFields(NormalizeValues(ms))
    ensures forall k :: HasKey(NormalizeValues(ms), k) <==> HasKey(ms, k)
    decreases ms, 0
  {
    if ms == [] {
    } else {
      NormalizeIsDict(ms[0].value);
      NormalizeValuesAreFields(ms[1..]);
      assert NormalizeValues(ms)[1..] == NormalizeValues(ms[1..]);
    }
  }

  lemma {:induction false} TableKeys(ms: seq<Member>)
    ensures forall k :: k in Table(ms) <==> HasKey(ms, k)
  {
    if ms == [] {
    } else {
      TableKeys(ms[1..]);
    }
  }

  lemma {:induction false} FirstIsLeast(ms: seq<Member>, k: string)
    requires ms != [] && Ascending(ms) && HasKey(ms[1..], k)
    ensures Before(ms[0].key, k)
  {
    if ms[1].key == k {
    } else {
      FirstIsLeast(ms[1..], k);
      BeforeTrans(ms[0].key, ms[1].key, k);
    }
  }

  lemma {:induction false} AscendingHasNoRepeat(ms: seq<Member>)
    requires ms != [] && Ascending(ms)
    ensures !HasKey(ms[1..], ms[0].key)
  {
    if HasKey(ms[1..], ms[0].key) {
      FirstIsLeast(ms, ms[0].key);
      BeforeTotal(ms[0].key, ms[0].key);
    }
  }

  /** A proper prefix, or the smaller character at the first difference. */
  predicate LessAt(a: string, b: string, i: nat) {
    i <= |a| && i < |b| && a[..i] == b[..i] && (i == |a| || a[i] < b[i])
  }

  lemma LessShift(a: string, b: string, i: nat)
    requires a != "" && b != "" && a[0] == b[0]
    ensures LessAt(a[1..], b[1..], i) <==> LessAt(a, b, i + 1)
  {
    if i + 1 <= |a| && i + 1 < |b| {
      assert a[..i + 1] == [a[0]] + a[1..][..i] && b[..i + 1] == [b[0]] + b[1..][..i];
    }
  }

  lemma {:induction false} BeforeIsLess(a: string, b: string)
    ensures Before(a, b) <==> exists i: nat :: LessAt(a, b, i)
  {
    if b == "" {
    } else if a == "" {
      assert LessAt(a, b, 0);
    } else if a[0] == b[0] {
      BeforeIsLess(a[1..], b[1..]);
      if Before(a, b) {
        var i: nat :| LessAt(a[1..], b[1..], i);
        LessShift(a, b, i);
      }
      forall i: nat | LessAt(a, b, i) ensures Before(a, b) {
        assert i > 0;
        LessShift(a, b, i - 1);
      }
    } else {
      assert LessAt(a, b, 0) <==> a[0] < b[0];
      forall i: nat | LessAt(a, b, i) ensures i == 0 { }
    }
  }

  lemma {:induction false} AscendingPairs(ms: seq<Member>, i: nat, k: nat)
    requires Ascending(ms) && i < k < |ms|
    ensures Before(ms[i].key, ms[k].key)
  {
    if k == 1 {
    } else if i > 0 {
      AscendingPairs(ms[1..], i - 1, k - 1);
    } else {
      AscendingPairs(ms[1..], 0, k - 1);
      BeforeTrans(ms[0].key, ms[1].key, ms[k].key);
    }
  }

  /** The hashed and the stored text print every dictionary with its keys in ascending order, code point by code point. */
  lemma KeysAscend(ms: seq<Member>, i: nat, k: nat)
    requires IsDict(Obj(ms)) && i < k < |Normalize(Obj(ms)).members|
    ensures var sorted := Normalize(Obj(ms)).members; exists n: nat :: LessAt(sorted[i].key, sorted[k].key, n)
  {
    NormalizeMeaning(Obj(ms));
    AscendingPairs(Normalize(Obj(ms)).members, i, k);
    BeforeIsLess(Normalize(Obj(ms)).members[i].key, Normalize(Obj(ms)).members[k].key);
  }

  lemma {:induction false} NoEscapes(s: string)
    requires forall i :: 0 <= i < |s| ==> s[i] >= ' ' && s[i] != '\"' && s[i] != '\\'
    ensures Escapes(s, false) == s
  {
    if s == "" {
    } else {
      NoEscapes(s[1..]);
      assert s == [s[0]] + s[1..];
    }
  }

  /** The canonical text of a string is the string between quotes, whatever the alphabet, where nothing has to be escaped. */
  lemma CanonicalString(s: string)
    requires forall i :: 0 <= i < |s| ==> s[i] >= ' ' && s[i] != '\"' && s[i] != '\\'
    ensures Canonical(Str(s)) == "\"" + s + "\""
  {
    NoEscapes(s);
  }

  lemma TwoItems(a: Json, b: Json)
    ensures Print(Arr([a, b]), false) == "[" + (Print(a, false) + ("," + Print(b, false))) + "]"
  {
    var items := [a, b];
    assert items[1..] == [b] && Print(b, false) + "" == Print(b, false);
    assert PrintItems([b], false) == Print(b, false);
    assert PrintItems(items, false) == Print(a, false) + ("," + PrintItems(items[1..], false));
  }

  lemma OneField(k: string, a: Json)
    ensures Print(Obj([Member(k, a)]), false) == "{" + (Quote(k, false) + ":" + Print(a, false)) + "}"
  {
    var p := PrintMember(Member(k, a), false);
    assert p + "" == p;
  }

  /** The punctuation of the canonical text: no blanks, and literals in lower case. */
  lemma Punctuation(x: Json, y: Json, k: string)
    ensures Canonical(Arr([x, y])) == "[" + (Canonical(x) + ("," + Canonical(y))) + "]"
    ensures Canonical(Obj([Member(k, x)])) == "{" + (Canonical(Str(k)) + ":" + Canonical(x)) + "}"
    ensures Canonical(Null) == "null" && Canonical(Bool(true)) == "true" && Canonical(Bool(false)) == "false"
  {
    var a, b := Normalize(x), Normalize(y);
    assert [x, y][1..] == [y] && NormalizeItems([y]) == [b] && NormalizeItems([x, y]) == [a, b];
    TwoItems(a, b);
    assert NormalizeValues([Member(k, x)]) == [Member(k, a)] && SortMembers([Member(k, a)]) == [Member(k, a)];
    OneField(k, a);
  }

  /** Two key-sorted values with one meaning are one value. */
  lemma {:induction false} NormalUnique(a: Json, b: Json)
    requires IsNormal(a) && IsNormal(b) && Mean(a) == Mean(b)
    ensures a == b
    decreases a, 1
  {
    match a
    case Arr(items) => NormalItemsUnique(items, b.items);
    case Obj(ms) => NormalMembersUnique(ms, b.members);
    case _ =>
  }

  lemma {:induction false} NormalItemsUnique(a: seq<Json>, b: seq<Json>)
    requires AreNormal(a) && AreNormal(b) && MeanItems(a) == MeanItems(b)
    ensures a == b
    decreases a, 0
  {
    if a == [] || b == [] {
    } else {
      assert MeanItems(a)[0] == MeanItems(b)[0] && MeanItems(a)[1..] == MeanItems(b)[1..];
      NormalUnique(a[0], b[0]);
      NormalItemsUnique(a[1..], b[1..]);
      assert a == [a[0]] + a[1..] && b == [b[0]] + b[1..];
    }
  }

  lemma {:induction false} NormalMembersUnique(a: seq<Member>, b: seq<Member>)
    requires Ascending(a) && Ascending(b) && ValuesNormal(a) && ValuesNormal(b) && Table(a) == Table(b)
    ensures a == b
    decreases a, 0
  {
    TableKeys(a); TableKeys(b);
    if b != [] { assert HasKey(b, b[0].key); }
    if a == [] {
    } else {
      assert a[0].key in Table(a);
      assert b[0].key in Table(b);
      if a[0].key != b[0].key {
        FirstIsLeast(b, a[0].key); FirstIsLeast(a, b[0].key);
        BeforeTotal(a[0].key, b[0].key);
      }
      AscendingHasNoRepeat(a); AscendingHasNoRepeat(b);
      TableKeys(a[1..]); TableKeys(b[1..]);
      assert Table(a[1..]) == Table(a) - {a[0].key};
      assert Table(b[1..]) == Table(b) - {a[0].key};
      NormalUnique(a[0].value, b[0].value);
      NormalMembersUnique(a[1..], b[1..]);
      assert a == [a[0]] + a[1..] && b == [b[0]] + b[1..];
    }
  }

  /** The hashed text is the same exactly when the two values differ in nothing but key order. */
  lemma CanonicalDecides(a: Json, b: Json)
    requires IsDict(a) && IsDict(b)
    ensures Canonical(a) == Canonical(b) <==> Mean(a) == Mean(b)
  {
    NormalizeMeaning(a); NormalizeMeaning(b);
    if Canonical(a) == Canonical(b) { PrintInjective(Normalize(a), Normalize(b), false); }
    if Mean(a) == Mean(b) { NormalUnique(Normalize(a), Normalize(b)); }
  }

  /** A dictionary loses nothing to the decoder's handling of repeated keys, and its result is a dictionary. */
  lemma {:induction false} DedupDict(j: Json)
    ensures IsDict(Dedup(j))
    ensures IsDict(j) ==> Dedup(j) == j
    decreases j, 1
  {
    match j
    case Arr(items) => DedupItemsDicts(items);
    case Obj(ms) => DedupMembersFields(ms);
    case _ =>
  }

  lemma {:induction false} DedupItemsDicts(items: seq<Json>)
    ensures AreDicts(DedupItems(items))
    ensures AreDicts(items) ==> DedupItems(items) == items
    decreases items, 0
  {
    if items == [] {
    } else {
      DedupDict(items[0]);
      DedupItemsDicts(items[1..]);
      assert DedupItems(items)[1..] == DedupItems(items[1..]);
    }
  }

  lemma {:induction false} DedupMembersFields(ms: seq<Member>)
    ensures AreFields(DedupMembers(ms))
    ensures AreFields(ms) ==> DedupMembers(ms) == ms
    ensures forall k :: HasKey(DedupMembers(ms), k) <==> HasKey(ms, k)
    decreases ms, 0
  {
    if ms == [] {
    } else {
      DedupDict(ms[0].value);
      DedupMembersFields(ms[1..]);
      var r := DedupMembers(ms);
      if !HasKey(ms[1..], ms[0].key) { assert r[1..] == DedupMembers(ms[1..]); }
      forall k ensures HasKey(r, k) <==> HasKey(ms, k) { }
    }
  }

  /** Looking a key up commutes with forgetting the order. */
  lemma {:induction false} FindMean(ms: seq<Member>, k: string)
    requires AreFields(ms)
    ensures HasKey(ms, k) <==> k in Table(ms)
    ensures HasKey(ms, k) <==> Find(ms, k).Some?
    ensures HasKey(ms, k) ==> Mean(Find(ms, k).value) == Table(ms)[k] && IsDict(Find(ms, k).value)
  {
    if ms == [] {
    } else {
      FindMean(ms[1..], k);
    }
  }

  lemma GetMean(a: Json, b: Json, k: string)
    requires IsDict(a) && IsDict(b) && Mean(a) == Mean(b)
    ensures Mean(Get(a, k)) == Mean(Get(b, k)) && (Has(a, k) <==> Has(b, k))
  {
    if a.Obj? { FindMean(a.members, k); FindMean(b.members, k); }
  }

  lemma GetDict(a: Json, k: string)
    requires IsDict(a)
    ensures IsDict(Get(a, k))
  {
    if a.Obj? { FindMean(a.members, k); }
  }

  /** Dictionaries that mean the same hold the same texts. */
  lemma SameText(a: Json, b: Json, k: string)
    requires IsDict(a) && IsDict(b) && Mean(a) == Mean(b)
    ensures Text(Get(a, k)) == Text(Get(b, k)) && (Get(a, k).Str? <==> Get(b, k).Str?)
  {
    GetMean(a, b, k);
  }

  /** A column read back from the store means what was written and has the canonical text it had. */
  lemma StoreRoundTrip(j: Json)
    requires IsDict(j)
    ensures Decode(Encode(j)) == Some(Normalize(j))
    ensures Mean(Normalize(j)) == Mean(j) && IsDict(Normalize(j))
    ensures Canonical(Normalize(j)) == Canonical(j)
  {
    PrintStarts(Normalize(j), true);
    ReadBack(Normalize(j), true, "");
    assert Encode(j) + "" == Encode(j);
    NormalizeMeaning(j);
    NormalizeIsDict(j);
    DedupDict(Normalize(j));
    CanonicalDecides(Normalize(j), j);
  }

  /** Everything the store's encoder writes is printable ASCII. */
  lemma {:induction false} EncodedTextIsAscii(s: string)
    ensures forall c <- Escapes(s, true) :: ' ' <= c <= '~'
  {
    if s == "" {
    } else {
      EncodedTextIsAscii(s[1..]);
      forall c | c in EscapeChar(s[0], true) ensures ' ' <= c <= '~' { }
    }
  }
}
