/**
 The canonical JSON text that request hashes are taken of. A reader after RFC 8259 (without white space)
 shows that the text determines the value up to the order of object keys.
 */
module Canonical {
  import opened Wrappers

  /** JavaScript strings are sequences of 16-bit code units. */
  type CodeUnit = n: int | 0 <= n < 0x10000

  type Text = seq<CodeUnit>

  datatype Member = Member(key: Text, value: Json)

  /** Numbers are taken as the text Number::toString gives them; members come in insertion order. */
  datatype Json =
    | Null
    | Bool(b: bool)
    | Num(token: Text)
    | Str(s: Text)
    | Arr(items: seq<Json>)
    | Obj(members: seq<Member>)

  // ---- Strings ---------------------------------------------------------------------------------------

  const QUOTE: CodeUnit := 0x22
  const BACKSLASH: CodeUnit := 0x5C
  const LOWER_U: CodeUnit := 0x75
  const COMMA: CodeUnit := 0x2C
  const COLON: CodeUnit := 0x3A

  predicate IsLead(u: CodeUnit) {
    0xD800 <= u <= 0xDBFF
  }

  predicate IsTrail(u: CodeUnit) {
    0xDC00 <= u <= 0xDFFF
  }

  /** The letter of the two-character escape of a unit. */
  function ShortEscape(u: CodeUnit): Option<CodeUnit> {
    if u == 0x08 then Some(0x62)
    else if u == 0x09 then Some(0x74)
    else if u == 0x0A then Some(0x6E)
    else if u == 0x0C then Some(0x66)
    else if u == 0x0D then Some(0x72)
    else if u == QUOTE then Some(QUOTE)
    else if u == BACKSLASH then Some(BACKSLASH)
    else None
  }

  function HexDigit(d: int): CodeUnit
    requires 0 <= d < 16
  {
    if d < 10 then 0x30 + d else 0x61 + d - 10
  }

  function UnicodeEscape(u: CodeUnit): Text {
    [BACKSLASH, LOWER_U, HexDigit(u / 4096), HexDigit(u / 256 % 16), HexDigit(u / 16 % 16), HexDigit(u % 16)]
  }

  function EscapeUnit(u: CodeUnit): Text {
    if ShortEscape(u).Some? then [BACKSLASH, ShortEscape(u).value]
    else if u < 0x20 || IsLead(u) || IsTrail(u) then UnicodeEscape(u)
    else [u]
  }

  /** QuoteJSONString without its quotation marks: surrogate pairs stand, lone surrogates are escaped. */
  function Escaped(s: Text): Text {
    if s == [] then []
    else if |s| >= 2 && IsLead(s[0]) && IsTrail(s[1]) then [s[0], s[1]] + Escaped(s[2..])
    else EscapeUnit(s[0]) + Escaped(s[1..])
  }

  function Quoted(s: Text): Text {
    [QUOTE] + Escaped(s) + [QUOTE]
  }

  // ---- The printer -----------------------------------------------------------------------------------

  /** JavaScript's < on strings. */
  predicate TextLess(a: Text, b: Text) {
    b != [] && (a == [] || a[0] < b[0] || (a[0] == b[0] && TextLess(a[1..], b[1..])))
  }

  function InsertMember(m: Member, ms: seq<Member>): (r: seq<Member>)
    ensures multiset(r) == multiset(ms) + multiset{m}
  {
    if ms == [] then [m]
    else if TextLess(ms[0].key, m.key) then
      assert ms == [ms[0]] + ms[1..];
      [ms[0]] + InsertMember(m, ms[1..])
    else [m] + ms
  }

  /** The entries in the order of their keys. */
  function SortedMembers(ms: seq<Member>): (r: seq<Member>)
    ensures multiset(r) == multiset(ms)
    ensures |r| == |ms|
    ensures forall i :: 0 <= i < |r| ==> r[i] in ms
  {
    if ms == [] then []
    else
      assert ms == [ms[0]] + ms[1..];
      var r := InsertMember(ms[0], SortedMembers(ms[1..]));
      MultisetFacts(r, ms);
      r
  }

  lemma MultisetFacts<T>(a: seq<T>, b: seq<T>)
    requires multiset(a) == multiset(b)
    ensures |a| == |b|
    ensures forall i :: 0 <= i < |a| ==> a[i] in b
    ensures forall i :: 0 <= i < |b| ==> b[i] in a
  {
    assert |a| == |multiset(a)| && |b| == |multiset(b)|;
    forall i | 0 <= i < |a| ensures a[i] in b {
      assert a[i] in multiset(a);
    }
    forall i | 0 <= i < |b| ensures b[i] in a {
      assert b[i] in multiset(b);
    }
  }

  function Join(parts: seq<Text>): Text {
    if parts == [] then []
    else if |parts| == 1 then parts[0]
    else parts[0] + [COMMA] + Join(parts[1..])
  }

  const NULL_TEXT: Text := [0x6E, 0x75, 0x6C, 0x6C]
  const TRUE_TEXT: Text := [0x74, 0x72, 0x75, 0x65]
  const FALSE_TEXT: Text := [0x66, 0x61, 0x6C, 0x73, 0x65]

  function Canonicalize(x: Json): Text {
    match x
    case Null => NULL_TEXT
    case Bool(b) => if b then TRUE_TEXT else FALSE_TEXT
    case Num(token) => token
    case Str(s) => Quoted(s)
    case Arr(items) =>
      [0x5B] + Join(seq(|items|, i requires 0 <= i < |items| => Canonicalize(items[i]))) + [0x5D]
    case Obj(members) =>
      var sorted := SortedMembers(members);
      var entries := seq(|sorted|, i requires 0 <= i < |sorted| =>
        assert sorted[i] in members;
        Quoted(sorted[i].key) + [COLON] + Canonicalize(sorted[i].value));
      [0x7B] + Join(entries) + [0x7D]
  }

  // ---- Values ------------------------------------------------------------------------------------------

  predicate IsNumberUnit(u: CodeUnit) {
    0x30 <= u <= 0x39 || u == 0x2D || u == 0x2B || u == 0x2E || u == 0x65
  }

  predicate IsNumber(token: Text) {
    token != [] && forall i :: 0 <= i < |token| ==> IsNumberUnit(token[i])
  }

  predicate DistinctKeys(ms: seq<Member>) {
    forall i, j :: 0 <= i < j < |ms| ==> ms[i].key != ms[j].key
  }

  /** A JSON value: number texts, and no key twice in an object. */
  predicate IsJson(x: Json) {
    match x
    case Num(token) => IsNumber(token)
    case Arr(items) => forall i :: 0 <= i < |items| ==> IsJson(items[i])
    case Obj(members) => DistinctKeys(members) && forall i :: 0 <= i < |members| ==> IsJson(members[i].value)
    case _ => true
  }

  predicate HasKey(ms: seq<Member>, k: Text) {
    exists i :: 0 <= i < |ms| && ms[i].key == k
  }

  /** Equal up to the order of object keys, at every depth. */
  predicate Same(x: Json, y: Json)
    decreases x
  {
    match x
    case Arr(items) =>
      y.Arr? && |items| == |y.items| && forall i :: 0 <= i < |items| ==> Same(items[i], y.items[i])
    case Obj(members) =>
      && y.Obj?
      && (forall i :: 0 <= i < |members| ==> HasKey(y.members, members[i].key))
      && (forall j :: 0 <= j < |y.members| ==> HasKey(members, y.members[j].key))
      && (forall i, j :: 0 <= i < |members| && 0 <= j < |y.members| && members[i].key == y.members[j].key ==>
            Same(members[i].value, y.members[j].value))
    case _ => x == y
  }

  /** The value with the members of every object in key order. */
  function Normal(x: Json): Json {
    match x
    case Arr(items) => Arr(seq(|items|, i requires 0 <= i < |items| => Normal(items[i])))
    case Obj(members) =>
      var sorted := SortedMembers(members);
      Obj(seq(|sorted|, i requires 0 <= i < |sorted| =>
        assert sorted[i] in members;
        Member(sorted[i].key, Normal(sorted[i].value))))
    case _ => x
  }

  // ---- The reader --------------------------------------------------------------------------------------

  function FromHex(u: CodeUnit): Option<int> {
    if 0x30 <= u <= 0x39 then Some(u - 0x30)
    else if 0x61 <= u <= 0x66 then Some(u - 0x61 + 10)
    else if 0x41 <= u <= 0x46 then Some(u - 0x41 + 10)
    else None
  }

  function FromShort(u: CodeUnit): Option<CodeUnit> {
    if u == 0x62 then Some(0x08)
    else if u == 0x74 then Some(0x09)
    else if u == 0x6E then Some(0x0A)
    else if u == 0x66 then Some(0x0C)
    else if u == 0x72 then Some(0x0D)
    else if u == QUOTE || u == BACKSLASH || u == 0x2F then Some(u)
    else None
  }

  /** One unit of a string's contents, and the length of its escape; section 7 of RFC 8259. */
  function ReadUnit(t: Text): (r: Option<(CodeUnit, nat)>)
    ensures r.Some? ==> 1 <= r.value.1 <= |t|
  {
    if t == [] || t[0] == QUOTE then None
    else if t[0] != BACKSLASH then Some((t[0], 1))
    else if |t| >= 2 && FromShort(t[1]).Some? then Some((FromShort(t[1]).value, 2))
    else if |t| >= 6 && t[1] == LOWER_U && FromHex(t[2]).Some? && FromHex(t[3]).Some? && FromHex(t[4]).Some?
            && FromHex(t[5]).Some? then
      HexBound(t[2], t[3], t[4], t[5]);
      Some((FromHex(t[2]).value * 4096 + FromHex(t[3]).value * 256 + FromHex(t[4]).value * 16 + FromHex(t[5]).value, 6))
    else None
  }

  lemma HexBound(a: CodeUnit, b: CodeUnit, c: CodeUnit, d: CodeUnit)
    requires FromHex(a).Some? && FromHex(b).Some? && FromHex(c).Some? && FromHex(d).Some?
    ensures 0 <= FromHex(a).value * 4096 + FromHex(b).value * 256 + FromHex(c).value * 16 + FromHex(d).value < 0x10000
  {
  }

  /** The contents of a string up to its closing quotation mark, and the text after it. */
  function ReadString(t: Text): (r: Option<(Text, Text)>)
    ensures r.Some? ==> |r.value.1| < |t|
    decreases |t|
  {
    if t != [] && t[0] == QUOTE then Some(([], t[1..]))
    else
      match ReadUnit(t)
      case None => None
      case Some((u, n)) =>
        match ReadString(t[n..])
        case None => None
        case Some((s, rest)) => Some(([u] + s, rest))
  }

  function NumberLength(t: Text): (n: nat)
    ensures n <= |t|
  {
    if t == [] || !IsNumberUnit(t[0]) then 0 else 1 + NumberLength(t[1..])
  }

  /** A value at the start of a text, and the text after it. */
  function Read(t: Text): (r: Option<(Json, Text)>)
    ensures r.Some? ==> |r.value.1| < |t|
    decreases |t|, 0
  {
    if t == [] then None
    else if NULL_TEXT <= t then Some((Null, t[4..]))
    else if TRUE_TEXT <= t then Some((Bool(true), t[4..]))
    else if FALSE_TEXT <= t then Some((Bool(false), t[5..]))
    else if t[0] == QUOTE then
      match ReadString(t[1..])
      case None => None
      case Some((s, rest)) => Some((Str(s), rest))
    else if t[0] == 0x5B then
      if |t| >= 2 && t[1] == 0x5D then Some((Arr([]), t[2..]))
      else
        match ReadItems(t[1..])
        case None => None
        case Some((items, rest)) => Some((Arr(items), rest))
    else if t[0] == 0x7B then
      if |t| >= 2 && t[1] == 0x7D then Some((Obj([]), t[2..]))
      else
        match ReadMembers(t[1..])
        case None => None
        case Some((members, rest)) => Some((Obj(members), rest))
    else
      var n := NumberLength(t);
      if n == 0 then None else Some((Num(t[..n]), t[n..]))
  }

  /** One or more items and the closing bracket. */
  function ReadItems(t: Text): (r: Option<(seq<Json>, Text)>)
    ensures r.Some? ==> |r.value.1| < |t|
    decreases |t|, 1
  {
    match Read(t)
    case None => None
    case Some((x, rest)) =>
      if rest != [] && rest[0] == 0x5D then Some(([x], rest[1..]))
      else if rest != [] && rest[0] == COMMA then
        match ReadItems(rest[1..])
        case None => None
        case Some((xs, end)) => Some(([x] + xs, end))
      else None
  }

  /** One or more members and the closing brace. */
  function ReadMembers(t: Text): (r: Option<(seq<Member>, Text)>)
    ensures r.Some? ==> |r.value.1| < |t|
    decreases |t|, 1
  {
    if t == [] || t[0] != QUOTE then None
    else
      match ReadString(t[1..])
      case None => None
      case Some((k, after)) =>
        if after == [] || after[0] != COLON then None
        else
          match Read(after[1..])
          case None => None
          case Some((v, rest)) =>
            if rest != [] && rest[0] == 0x7D then Some(([Member(k, v)], rest[1..]))
            else if rest != [] && rest[0] == COMMA then
              match ReadMembers(rest[1..])
              case None => None
              case Some((ms, end)) => Some(([Member(k, v)] + ms, end))
            else None
  }
}
