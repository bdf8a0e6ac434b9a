/** JSON values as Python dictionaries hold them (members in insertion order), the two printers of the
    broker (the hash's `canonical` and the store's ASCII-only encoder) and the decoder that reads them back. */
module JsonText {
  import opened Options

  datatype Json =
    | Null
    | Bool(b: bool)
    | Int(n: int)
    | Str(s: string)
    | Arr(items: seq<Json>)
    | Obj(members: seq<Member>)

  datatype Member = Member(key: string, value: Json)

  /** What a JSON value means once the insertion order of its dictionaries is forgotten. */
  datatype Meaning =
    | MNull
    | MBool(b: bool)
    | MInt(n: int)
    | MStr(s: string)
    | MArr(items: seq<Meaning>)
    | MObj(fields: map<string, Meaning>)

  function Mean(j: Json): Meaning
    decreases j, 1
  {
    match j
    case Null => MNull
    case Bool(b) => MBool(b)
    case Int(n) => MInt(n)
    case Str(s) => MStr(s)
    case Arr(items) => MArr(MeanItems(items))
    case Obj(ms) => MObj(Table(ms))
  }

  function MeanItems(items: seq<Json>): seq<Meaning>
    decreases items, 0
  {
    if items == [] then [] else [Mean(items[0])] + MeanItems(items[1..])
  }

  function Table(ms: seq<Member>): map<string, Meaning>
    decreases ms, 0
  {
    if ms == [] then map[] else Table(ms[1..])[ms[0].key := Mean(ms[0].value)]
  }

  /** A Python dictionary never holds one key twice. */
  predicate IsDict(j: Json)
    decreases j, 1
  {
    match j
    case Arr(items) => AreDicts(items)
    case Obj(ms) => AreFields(ms)
    case _ => true
  }

  predicate AreDicts(items: seq<Json>)
    decreases items, 0
  {
    items == [] || (IsDict(items[0]) && AreDicts(items[1..]))
  }

  predicate HasKey(ms: seq<Member>, k: string) {
    ms != [] && (ms[0].key == k || HasKey(ms[1..], k))
  }

  predicate AreFields(ms: seq<Member>)
    decreases ms, 0
  {
    ms == [] || (!HasKey(ms[1..], ms[0].key) && IsDict(ms[0].value) && AreFields(ms[1..]))
  }

  // ----- key order -----

  /** Python's order on strings: code point by code point, a proper prefix first. */
  predicate Before(a: string, b: string) {
    if b == "" then false
    else if a == "" then true
    else if a[0] == b[0] then Before(a[1..], b[1..])
    else a[0] < b[0]
  }

  lemma {:induction false} BeforeTotal(a: string, b: string)
    ensures Before(a, b) || a == b || Before(b, a)
    ensures !(Before(a, b) && Before(b, a))
    ensures !Before(a, a)
  {
    if a != "" && b != "" && a[0] == b[0] {
      BeforeTotal(a[1..], b[1..]);
      assert a == [a[0]] + a[1..] && b == [b[0]] + b[1..];
    }
    if a == "" {
    } else {
      BeforeTotal(a[1..], a[1..]);
    }
  }

  lemma {:induction false} BeforeTrans(a: string, b: string, c: string)
    requires Before(a, b) && Before(b, c)
    ensures Before(a, c)
  {
    if a != "" && a[0] == b[0] && b[0] == c[0] { BeforeTrans(a[1..], b[1..], c[1..]); }
  }

  // ----- sorting the members -----

  function Insert(m: Member, ms: seq<Member>): seq<Member> {
    if ms == [] || Before(m.key, ms[0].key) then [m] + ms else [ms[0]] + Insert(m, ms[1..])
  }

  function SortMembers(ms: seq<Member>): seq<Member> {
    if ms == [] then [] else Insert(ms[0], SortMembers(ms[1..]))
  }

  /** The value with every dictionary reordered by key, as `sort_keys=True` prints it. */
  function Normalize(j: Json): Json
    decreases j, 1
  {
    match j
    case Arr(items) => Arr(NormalizeItems(items))
    case Obj(ms) => Obj(SortMembers(NormalizeValues(ms)))
    case _ => j
  }

  function NormalizeItems(items: seq<Json>): seq<Json>
    decreases items, 0
  {
    if items == [] then [] else [Normalize(items[0])] + NormalizeItems(items[1..])
  }

  function NormalizeValues(ms: seq<Member>): seq<Member>
    decreases ms, 0
  {
    if ms == [] then []
    else [Member(ms[0].key, Normalize(ms[0].value))] + NormalizeValues(ms[1..])
  }

  predicate Ascending(ms: seq<Member>) {
    |ms| <= 1 || (Before(ms[0].key, ms[1].key) && Ascending(ms[1..]))
  }

  predicate IsNormal(j: Json)
    decreases j, 1
  {
    match j
    case Arr(items) => AreNormal(items)
    case Obj(ms) => Ascending(ms) && ValuesNormal(ms)
    case _ => true
  }

  predicate AreNormal(items: seq<Json>)
    decreases items, 0
  {
    items == [] || (IsNormal(items[0]) && AreNormal(items[1..]))
  }

  predicate ValuesNormal(ms: seq<Member>)
    decreases ms, 0
  {
    ms == [] || (IsNormal(ms[0].value) && ValuesNormal(ms[1..]))
  }

  // ----- printing -----

  function Digit(d: nat): char
    requires d < 16
  {
    if d < 10 then '0' + d as char else 'a' + (d - 10) as char
  }

  function Hex4(n: nat): string
    requires n < 0x10000
  {
    [Digit(n / 0x1000), Digit(n / 0x100 % 16), Digit(n / 16 % 16), Digit(n % 16)]
  }

  /** Section 7 of RFC 8259: one \u escape, or a surrogate pair outside the basic plane. */
  function UEscape(c: char): string {
    var n := c as int;
    if n < 0x10000 then "\\u" + Hex4(n)
    else "\\u" + Hex4(0xD800 + (n - 0x10000) / 0x400) + "\\u" + Hex4(0xDC00 + (n - 0x10000) % 0x400)
  }

  function EscapeChar(c: char, ascii: bool): string {
    if c == '\"' then "\\\""
    else if c == '\\' then "\\\\"
    else if c == '\n' then "\\n"
    else if c == '\r' then "\\r"
    else if c == '\t' then "\\t"
    else if c as int == 8 then "\\b"
    else if c as int == 12 then "\\f"
    else if c < ' ' || (ascii && c > '~') then UEscape(c)
    else [c]
  }

  function Escapes(s: string, ascii: bool): string {
    if s == "" then "" else EscapeChar(s[0], ascii) + Escapes(s[1..], ascii)
  }

  function Quote(s: string, ascii: bool): string {
    "\"" + Escapes(s, ascii) + "\""
  }

  function Decimal(n: nat): string {
    if n < 10 then [Digit(n)] else Decimal(n / 10) + [Digit(n % 10)]
  }

  function PrintInt(n: int): string {
    if n < 0 then "-" + Decimal(-n) else Decimal(n)
  }

  function Print(j: Json, ascii: bool): string
    decreases j, 1
  {
    match j
    case Null => "null"
    case Bool(b) => if b then "true" else "false"
    case Int(n) => PrintInt(n)
    case Str(s) => Quote(s, ascii)
    case Arr(items) => "[" + PrintItems(items, ascii) + "]"
    case Obj(ms) => "{" + PrintMembers(ms, ascii) + "}"
  }

  function PrintItems(items: seq<Json>, ascii: bool): string
    decreases items, 0
  {
    if items == [] then ""
    else Print(items[0], ascii) + (if |items| == 1 then "" else "," + PrintItems(items[1..], ascii))
  }

  function PrintMember(m: Member, ascii: bool): string
    decreases m, 2
  {
    Quote(m.key, ascii) + ":" + Print(m.value, ascii)
  }

  function PrintMembers(ms: seq<Member>, ascii: bool): string
    decreases ms, 0
  {
    if ms == [] then ""
    else PrintMember(ms[0], ascii) + (if |ms| == 1 then "" else "," + PrintMembers(ms[1..], ascii))
  }

  /** `model.canonical`: the text the execution hash is taken over. */
  function Canonical(j: Json): string {
    Print(Normalize(j), false)
  }

  /** `Store._encode`: the text a JSON column holds. */
  function Encode(j: Json): string {
    Print(Normalize(j), true)
  }

  // ----- reading back -----

  function Unhex(c: char): (r: Option<nat>)
    ensures r.Some? ==> r.value < 16
  {
    if '0' <= c <= '9' then Some((c - '0') as int)
    else if 'a' <= c <= 'f' then Some((c - 'a') as int + 10)
    else if 'A' <= c <= 'F' then Some((c - 'A') as int + 10)
    else None
  }

  function ReadHex4(s: string): (r: Option<nat>)
    ensures r.Some? ==> r.value < 0x10000
  {
    if |s| < 4 || Unhex(s[0]) == None || Unhex(s[1]) == None || Unhex(s[2]) == None || Unhex(s[3]) == None then None
    else Some(Unhex(s[0]).value * 0x1000 + Unhex(s[1]).value * 0x100 + Unhex(s[2]).value * 16 + Unhex(s[3]).value)
  }

  datatype Parsed<T> = Parsed(value: T, rest: string)

  /** One character of a string body, escaped or not; a lone surrogate is refused. */
  function ReadChar(s: string): (r: Option<Parsed<char>>)
    ensures r.Some? ==> |r.value.rest| < |s|
  {
    if s == "" || s[0] < ' ' || s[0] == '\"' then None
    else if s[0] != '\\' then Some(Parsed(s[0], s[1..]))
    else if |s| < 2 then None
    else if s[1] == '\"' || s[1] == '\\' || s[1] == '/' then Some(Parsed(s[1], s[2..]))
    else if s[1] == 'n' then Some(Parsed('\n', s[2..]))
    else if s[1] == 'r' then Some(Parsed('\r', s[2..]))
    else if s[1] == 't' then Some(Parsed('\t', s[2..]))
    else if s[1] == 'b' then Some(Parsed(8 as char, s[2..]))
    else if s[1] == 'f' then Some(Parsed(12 as char, s[2..]))
    else if s[1] != 'u' then None
    else match ReadHex4(s[2..])
      case None => None
      case Some(u) =>
        if u < 0xD800 || 0xE000 <= u then Some(Parsed(u as char, s[6..]))
        else if u < 0xDC00 && |s| >= 8 && s[6] == '\\' && s[7] == 'u' then
          match ReadHex4(s[8..])
          case Some(v) =>
            if 0xDC00 <= v < 0xE000 then Some(Parsed((0x10000 + (u - 0xD800) * 0x400 + (v - 0xDC00)) as char, s[12..]))
            else None
          case None => None
        else None
  }

  /** The rest of a string body, up to and including the closing quote. */
  function ReadBody(s: string): (r: Option<Parsed<string>>)
    ensures r.Some? ==> |r.value.rest| < |s|
    decreases |s|
  {
    if s == "" then None
    else if s[0] == '\"' then Some(Parsed("", s[1..]))
    else match ReadChar(s)
      case None => None
      case Some(c) =>
        match ReadBody(c.rest)
        case None => None
        case Some(t) => Some(Parsed([c.value] + t.value, t.rest))
  }

  predicate IsDigit(c: char) { '0' <= c <= '9' }

  function DigitCount(s: string): (k: nat)
    ensures k <= |s|
  {
    if s == "" || !IsDigit(s[0]) then 0 else 1 + DigitCount(s[1..])
  }

  function NatOf(s: string): nat
    requires forall c <- s :: IsDigit(c)
  {
    assert s != "" ==> IsDigit(s[|s| - 1]);
    if s == "" then 0 else NatOf(s[..|s| - 1]) * 10 + (s[|s| - 1] as int - '0' as int)
  }

  lemma {:induction false} DigitCountDigits(s: string)
    ensures forall c <- s[..DigitCount(s)] :: IsDigit(c)
  {
    if s == "" || !IsDigit(s[0]) {
    } else {
      DigitCountDigits(s[1..]);
      assert s[..DigitCount(s)] == [s[0]] + s[1..][..DigitCount(s[1..])];
    }
  }

  /** A number does not begin with 0 unless it is 0. */
  function ReadNat(s: string): (r: Option<Parsed<nat>>)
    ensures r.Some? ==> |r.value.rest| < |s|
  {
    var k := DigitCount(s);
    DigitCountDigits(s);
    if k == 0 then None
    else if s[0] == '0' then Some(Parsed(0, s[1..]))
    else Some(Parsed(NatOf(s[..k]), s[k..]))
  }

  function ReadNumber(s: string): (r: Option<Parsed<Json>>)
    ensures r.Some? ==> |r.value.rest| < |s|
  {
    if s != "" && s[0] == '-' then
      match ReadNat(s[1..])
      case None => None
      case Some(p) => Some(Parsed(Int(0 - (p.value as int)), p.rest))
    else
      match ReadNat(s)
      case None => None
      case Some(p) => Some(Parsed(Int(p.value), p.rest))
  }

  function ReadWord(s: string): (r: Option<Parsed<Json>>)
    ensures r.Some? ==> |r.value.rest| < |s|
  {
    if "null" <= s then Some(Parsed(Null, s[4..]))
    else if "true" <= s then Some(Parsed(Bool(true), s[4..]))
    else if "false" <= s then Some(Parsed(Bool(false), s[5..]))
    else None
  }

  function ReadScalar(s: string): (r: Option<Parsed<Json>>)
    ensures r.Some? ==> |r.value.rest| < |s|
  {
    if s == "" then None
    else if s[0] == '\"' then
      match ReadBody(s[1..])
      case None => None
      case Some(b) => Some(Parsed(Str(b.value), b.rest))
    else if s[0] == '-' || IsDigit(s[0]) then ReadNumber(s)
    else ReadWord(s)
  }

  predicate IsSpace(c: char) { c == ' ' || c == '\t' || c == '\n' || c == '\r' }

  predicate NoSpaceNext(s: string) { s == "" || !IsSpace(s[0]) }

  /** What follows the white space at the head of a text. */
  function Skip(s: string): (r: string)
    ensures |r| <= |s| && NoSpaceNext(r)
  {
    if NoSpaceNext(s) then s else Skip(s[1..])
  }

  function ReadValue(s: string): (r: Option<Parsed<Json>>)
    ensures r.Some? ==> |r.value.rest| < |s|
    decreases |s|, 0
  {
    if s != "" && s[0] == '[' then
      var body := Skip(s[1..]);
      if body != "" && body[0] == ']' then Some(Parsed(Arr([]), body[1..]))
      else match ReadItems(body)
        case None => None
        case Some(p) => Some(Parsed(Arr(p.value), p.rest))
    else if s != "" && s[0] == '{' then
      var body := Skip(s[1..]);
      if body != "" && body[0] == '}' then Some(Parsed(Obj([]), body[1..]))
      else match ReadMembers(body)
        case None => None
        case Some(p) => Some(Parsed(Obj(p.value), p.rest))
    else ReadScalar(s)
  }

  /** A value at the head of a text: a whole column, an item of a list or a member's value. */
  function ReadText(s: string): (r: Option<Parsed<Json>>)
    ensures r.Some? ==> |r.value.rest| < |s|
    decreases |s|, 1
  {
    ReadValue(s)
  }

  function ReadItems(s: string): (r: Option<Parsed<seq<Json>>>)
    ensures r.Some? ==> |r.value.rest| < |s|
    decreases |s|, 2
  {
    match ReadText(s)
    case None => None
    case Some(v) =>
      var after := Skip(v.rest);
      if after == "" then None
      else if after[0] == ']' then Some(Parsed([v.value], after[1..]))
      else if after[0] != ',' then None
      else match ReadItems(Skip(after[1..]))
        case None => None
        case Some(t) => Some(Parsed([v.value] + t.value, t.rest))
  }

  function ReadMember(s: string): (r: Option<Parsed<Member>>)
    ensures r.Some? ==> |r.value.rest| < |s|
    decreases |s|, 1
  {
    if s == "" || s[0] != '\"' then None
    else match ReadBody(s[1..])
      case None => None
      case Some(k) =>
        var colon := Skip(k.rest);
        if colon == "" || colon[0] != ':' then None
        else match ReadText(Skip(colon[1..]))
          case None => None
          case Some(v) => Some(Parsed(Member(k.value, v.value), v.rest))
  }

  function ReadMembers(s: string): (r: Option<Parsed<seq<Member>>>)
    ensures r.Some? ==> |r.value.rest| < |s|
    decreases |s|, 2
  {
    match ReadMember(s)
    case None => None
    case Some(m) =>
      var after := Skip(m.rest);
      if after == "" then None
      else if after[0] == '}' then Some(Parsed([m.value], after[1..]))
      else if after[0] != ',' then None
      else match ReadMembers(Skip(after[1..]))
        case None => None
        case Some(t) => Some(Parsed([m.value] + t.value, t.rest))
  }

  /** Python keeps the last value of a repeated key. */
  function Dedup(j: Json): Json
    decreases j, 1
  {
    match j
    case Arr(items) => Arr(DedupItems(items))
    case Obj(ms) => Obj(DedupMembers(ms))
    case _ => j
  }

  function DedupItems(items: seq<Json>): seq<Json>
    decreases items, 0
  {
    if items == [] then [] else [Dedup(items[0])] + DedupItems(items[1..])
  }

  function DedupMembers(ms: seq<Member>): seq<Member>
    decreases ms, 0
  {
    if ms == [] then []
    else if HasKey(ms[1..], ms[0].key) then DedupMembers(ms[1..])
    else [Member(ms[0].key, Dedup(ms[0].value))] + DedupMembers(ms[1..])
  }

  /** `json.loads`, on texts without floats: white space may stand between any two tokens. */
  function Decode(s: string): Option<Json> {
    match ReadText(Skip(s))
    case Some(p) => if Skip(p.rest) == "" then Some(Dedup(p.value)) else None
    case None => None
  }

  // ----- dictionary access -----

  function Find(ms: seq<Member>, k: string): Option<Json> {
    if ms == [] then None
    else if ms[0].key == k then Some(ms[0].value)
    else Find(ms[1..], k)
  }

  /** `j.get(k)`: JSON null where the key is missing. */
  function Get(j: Json, k: string): Json {
    if !j.Obj? then Null
    else match Find(j.members, k)
      case Some(v) => v
      case None => Null
  }

  predicate Has(j: Json, k: string) {
    j.Obj? && HasKey(j.members, k)
  }

  /** The text of a string value. */
  function Text(j: Json): string { if j.Str? then j.s else "" }
}
