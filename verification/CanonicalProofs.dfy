/** The canonical text reads back as the value, so it is the same for two values exactly if they are the same JSON. */
module CanonicalProofs {
  import opened Wrappers
  import opened Canonical

  lemma Regroup(a: Text, b: Text, c: Text, d: Text)
    ensures a + b + c + d == a + (b + (c + d))
  {
  }

  // ---- Reading what was printed ------------------------------------------------------------------------

  lemma HexSum(u: CodeUnit)
    ensures u == (u / 4096) * 4096 + (u / 256 % 16) * 256 + (u / 16 % 16) * 16 + u % 16
  {
    var a, b := u / 16, u / 256;
    assert u == 16 * a + u % 16;
    assert b == a / 16 && a == 16 * b + a % 16;
    assert u / 4096 == b / 16 && b == 16 * (b / 16) + b % 16;
  }

  lemma ReadsHex(t: Text, a: int, b: int, c: int, d: int, u: CodeUnit)
    requires 0 <= a < 16 && 0 <= b < 16 && 0 <= c < 16 && 0 <= d < 16 && u == a * 4096 + b * 256 + c * 16 + d
    requires |t| >= 6 && t[0] == BACKSLASH && t[1] == LOWER_U
    requires t[2] == HexDigit(a) && t[3] == HexDigit(b) && t[4] == HexDigit(c) && t[5] == HexDigit(d)
    ensures ReadUnit(t) == Some((u, 6))
  {
  }

  lemma UnicodeReads(u: CodeUnit, r: Text)
    ensures ReadUnit(UnicodeEscape(u) + r) == Some((u, 6))
  {
    hide ReadUnit, HexDigit;
    HexSum(u);
    ReadsHex(UnicodeEscape(u) + r, u / 4096, u / 256 % 16, u / 16 % 16, u % 16, u);
  }

  lemma EscapeReads(u: CodeUnit, r: Text)
    ensures EscapeUnit(u) != [] && EscapeUnit(u)[0] != QUOTE
    ensures ReadUnit(EscapeUnit(u) + r) == Some((u, |EscapeUnit(u)|))
  {
    if ShortEscape(u).None? && (u < 0x20 || IsLead(u) || IsTrail(u)) {
      UnicodeReads(u, r);
    }
  }

  lemma UnitReads(e: Text, u: CodeUnit, t: Text, s: Text, r: Text)
    requires e != [] && e[0] != QUOTE && ReadUnit(e + t) == Some((u, |e|)) && ReadString(t) == Some((s, r))
    ensures ReadString(e + t) == Some(([u] + s, r))
  {
  }

  lemma RawReads(u: CodeUnit, t: Text, s: Text, r: Text)
    requires u != QUOTE && u != BACKSLASH && ReadString(t) == Some((s, r))
    ensures ReadString([u] + t) == Some(([u] + s, r))
  {
  }

  lemma EscapedStep(s: Text)
    requires s != []
    ensures |s| >= 2 && IsLead(s[0]) && IsTrail(s[1]) ==> Escaped(s) == [s[0], s[1]] + Escaped(s[2..])
    ensures !(|s| >= 2 && IsLead(s[0]) && IsTrail(s[1])) ==> Escaped(s) == EscapeUnit(s[0]) + Escaped(s[1..])
  {
  }

  lemma EscapedPair(s: Text, r: Text)
    requires |s| >= 2 && IsLead(s[0]) && IsTrail(s[1])
    ensures Escaped(s) + r == [s[0]] + ([s[1]] + (Escaped(s[2..]) + r))
  {
    hide Escaped, EscapeUnit;
    EscapedStep(s);
    Associate([s[0], s[1]], Escaped(s[2..]), r);
    assert [s[0], s[1]] == [s[0]] + [s[1]];
    Associate([s[0]], [s[1]], Escaped(s[2..]) + r);
  }

  lemma EscapedUnit(s: Text, r: Text)
    requires s != [] && !(|s| >= 2 && IsLead(s[0]) && IsTrail(s[1]))
    ensures Escaped(s) + r == EscapeUnit(s[0]) + (Escaped(s[1..]) + r)
  {
  }

  lemma Associate(a: Text, b: Text, c: Text)
    ensures (a + b) + c == a + (b + c)
  {
  }

  lemma PairReads(s: Text, r: Text)
    requires |s| >= 2 && IsLead(s[0]) && IsTrail(s[1]) && r != []
    requires ReadString(Escaped(s[2..]) + r) == Some((s[2..], r[1..]))
    ensures ReadString(Escaped(s) + r) == Some((s, r[1..]))
  {
    hide ReadUnit, EscapeUnit, ReadString, Escaped;
    EscapedPair(s, r);
    var t := Escaped(s[2..]) + r;
    RawReads(s[1], t, s[2..], r[1..]);
    RawReads(s[0], [s[1]] + t, [s[1]] + s[2..], r[1..]);
    assert [s[0]] + ([s[1]] + s[2..]) == s;
  }

  lemma OneReads(s: Text, r: Text)
    requires s != [] && !(|s| >= 2 && IsLead(s[0]) && IsTrail(s[1])) && r != []
    requires ReadString(Escaped(s[1..]) + r) == Some((s[1..], r[1..]))
    ensures ReadString(Escaped(s) + r) == Some((s, r[1..]))
  {
    hide ReadUnit, EscapeUnit, ReadString, Escaped;
    EscapedUnit(s, r);
    var t := Escaped(s[1..]) + r;
    EscapeReads(s[0], t);
    UnitReads(EscapeUnit(s[0]), s[0], t, s[1..], r[1..]);
    assert [s[0]] + s[1..] == s;
  }

  lemma {:induction false} StringReads(s: Text, r: Text)
    ensures ReadString(Escaped(s) + ([QUOTE] + r)) == Some((s, r))
    decreases |s|
  {
    hide ReadUnit, EscapeUnit, ReadString, Escaped;
    assert ([QUOTE] + r)[1..] == r;
    if s == [] {
      EmptyReads(r);
    } else if |s| >= 2 && IsLead(s[0]) && IsTrail(s[1]) {
      StringReads(s[2..], r);
      PairReads(s, [QUOTE] + r);
    } else {
      StringReads(s[1..], r);
      OneReads(s, [QUOTE] + r);
    }
  }

  lemma EmptyReads(r: Text)
    ensures ReadString(Escaped([]) + ([QUOTE] + r)) == Some(([], r))
  {
    assert Escaped([]) + ([QUOTE] + r) == [QUOTE] + r;
    assert ([QUOTE] + r)[1..] == r;
  }

  /** Nothing more of a number can follow. */
  predicate Ends(r: Text) {
    r == [] || !IsNumberUnit(r[0])
  }

  lemma {:induction false} NumberReads(token: Text, r: Text)
    requires forall i :: 0 <= i < |token| ==> IsNumberUnit(token[i])
    requires Ends(r)
    ensures NumberLength(token + r) == |token|
  {
    if token == [] {
      assert token + r == r;
    } else {
      assert (token + r)[1..] == token[1..] + r;
      NumberReads(token[1..], r);
    }
  }

  function ItemTexts(items: seq<Json>): seq<Text> {
    seq(|items|, i requires 0 <= i < |items| => Canonicalize(items[i]))
  }

  function Normals(items: seq<Json>): seq<Json> {
    seq(|items|, i requires 0 <= i < |items| => Normal(items[i]))
  }

  function EntryText(m: Member): Text {
    Quoted(m.key) + [COLON] + Canonicalize(m.value)
  }

  function EntryTexts(members: seq<Member>): seq<Text> {
    seq(|members|, i requires 0 <= i < |members| => EntryText(members[i]))
  }

  function NormalMembers(members: seq<Member>): seq<Member> {
    seq(|members|, i requires 0 <= i < |members| => Member(members[i].key, Normal(members[i].value)))
  }

  lemma ArrText(items: seq<Json>)
    ensures Canonicalize(Arr(items)) == [0x5B] + Join(ItemTexts(items)) + [0x5D]
    ensures Normal(Arr(items)) == Arr(Normals(items))
  {
  }

  lemma ObjText(members: seq<Member>)
    ensures Canonicalize(Obj(members)) == [0x7B] + Join(EntryTexts(SortedMembers(members))) + [0x7D]
    ensures Normal(Obj(members)) == Obj(NormalMembers(SortedMembers(members)))
  {
    var sorted := SortedMembers(members);
    assert EntryTexts(sorted) == seq(|sorted|, i requires 0 <= i < |sorted| =>
                                   Quoted(sorted[i].key) + [COLON] + Canonicalize(sorted[i].value));
    assert NormalMembers(sorted) == seq(|sorted|, i requires 0 <= i < |sorted| =>
                                      Member(sorted[i].key, Normal(sorted[i].value)));
  }

  lemma StartsAValue(x: Json)
    requires IsJson(x)
    ensures Canonicalize(x) != [] && Canonicalize(x)[0] != 0x5D
  {
  }

  lemma JoinStep(parts: seq<Text>, r: Text)
    requires parts != []
    ensures |parts| == 1 ==> Join(parts) == parts[0]
    ensures |parts| > 1 ==> Join(parts) + r == parts[0] + ([COMMA] + (Join(parts[1..]) + r))
  {
    if |parts| > 1 {
      JoinRest(parts);
      hide Join;
      Regroup(parts[0], [COMMA], Join(parts[1..]), r);
    }
  }

  lemma JoinRest(parts: seq<Text>)
    requires |parts| > 1
    ensures Join(parts) == parts[0] + [COMMA] + Join(parts[1..])
  {
  }

  lemma NumReads(token: Text, r: Text)
    requires IsNumber(token) && Ends(r)
    ensures Read(token + r) == Some((Num(token), r))
  {
    NumberReads(token, r);
    var t := token + r;
    assert IsNumberUnit(t[0]);
    assert t[..|token|] == token && t[|token|..] == r;
  }

  lemma ConstantReads(r: Text)
    ensures Read(NULL_TEXT + r) == Some((Null, r))
    ensures Read(TRUE_TEXT + r) == Some((Bool(true), r))
    ensures Read(FALSE_TEXT + r) == Some((Bool(false), r))
  {
    var n, t, f := NULL_TEXT + r, TRUE_TEXT + r, FALSE_TEXT + r;
    assert n[..4] == NULL_TEXT && t[..4] == TRUE_TEXT && f[..5] == FALSE_TEXT;
    assert t[0] != NULL_TEXT[0] && f[0] != NULL_TEXT[0] && f[0] != TRUE_TEXT[0];
    assert n[4..] == r && t[4..] == r && f[5..] == r;
  }

  lemma StrReads(s: Text, r: Text)
    ensures Read(Quoted(s) + r) == Some((Str(s), r))
  {
    StringReads(s, r);
    hide ReadString, Escaped;
    var t := Quoted(s) + r;
    Regroup([QUOTE], Escaped(s), [QUOTE], r);
    assert t[0] == QUOTE && t[1..] == Escaped(s) + ([QUOTE] + r);
    assert t[0] != NULL_TEXT[0] && t[0] != TRUE_TEXT[0] && t[0] != FALSE_TEXT[0];
  }

  /** The key of an entry, and the text the reader goes on with. */
  lemma KeyReads(m: Member, rest: Text)
    ensures var t := EntryText(m) + rest;
      && t != [] && t[0] == QUOTE
      && ReadString(t[1..]) == Some((m.key, [COLON] + (Canonicalize(m.value) + rest)))
  {
    var after := [COLON] + (Canonicalize(m.value) + rest);
    StringReads(m.key, after);
    hide ReadString, Escaped, Canonicalize;
    Regroup(Quoted(m.key), [COLON], Canonicalize(m.value), rest);
    Regroup([QUOTE], Escaped(m.key), [QUOTE], after);
    Regroup([], Quoted(m.key), [COLON] + Canonicalize(m.value), rest);
    assert EntryText(m) + rest == [QUOTE] + (Escaped(m.key) + ([QUOTE] + after));
  }

  lemma LastMember(m: Member, v: Json, r: Text)
    requires Read(Canonicalize(m.value) + ([0x7D] + r)) == Some((v, [0x7D] + r))
    ensures ReadMembers(EntryText(m) + ([0x7D] + r)) == Some(([Member(m.key, v)], r))
  {
    KeyReads(m, [0x7D] + r);
    hide Read, ReadString, Canonicalize, EntryText;
    Behind(COLON, Canonicalize(m.value) + ([0x7D] + r));
    Behind(0x7D, r);
  }

  lemma Behind(u: CodeUnit, t: Text)
    ensures ([u] + t)[0] == u && ([u] + t)[1..] == t
  {
  }

  lemma NextMember(m: Member, v: Json, tail: Text, ms: seq<Member>, r: Text)
    requires Read(Canonicalize(m.value) + ([COMMA] + tail)) == Some((v, [COMMA] + tail))
    requires ReadMembers(tail) == Some((ms, r))
    ensures ReadMembers(EntryText(m) + ([COMMA] + tail)) == Some(([Member(m.key, v)] + ms, r))
  {
    KeyReads(m, [COMMA] + tail);
    hide Read, ReadString, Canonicalize, EntryText;
    Behind(COLON, Canonicalize(m.value) + ([COMMA] + tail));
    Behind(COMMA, tail);
  }

  lemma {:induction false} ItemsRead(x: Json, i: nat, r: Text)
    requires IsJson(x) && x.Arr? && i < |x.items|
    ensures ReadItems(Join(ItemTexts(x.items)[i..]) + ([0x5D] + r)) == Some((Normals(x.items)[i..], r))
    decreases x, 0, |x.items| - i
  {
    hide Read, Canonicalize, Normal, Join;
    var parts := ItemTexts(x.items)[i..];
    JoinStep(parts, [0x5D] + r);
    if i + 1 == |x.items| {
      ReadsBack(x.items[i], [0x5D] + r);
      Behind(0x5D, r);
      assert Normals(x.items)[i..] == [Normal(x.items[i])];
    } else {
      assert parts[1..] == ItemTexts(x.items)[i + 1..];
      var tail := Join(parts[1..]) + ([0x5D] + r);
      ReadsBack(x.items[i], [COMMA] + tail);
      Behind(COMMA, tail);
      ItemsRead(x, i + 1, r);
      assert Normals(x.items)[i..] == [Normal(x.items[i])] + Normals(x.items)[i + 1..];
    }
  }

  lemma {:induction false} MembersRead(x: Json, i: nat, r: Text)
    requires IsJson(x) && x.Obj? && i < |x.members|
    ensures var sorted := SortedMembers(x.members);
      ReadMembers(Join(EntryTexts(sorted)[i..]) + ([0x7D] + r)) == Some((NormalMembers(sorted)[i..], r))
    decreases x, 0, |x.members| - i
  {
    hide Read, ReadMembers, Canonicalize, Normal, Join, EntryText, SortedMembers;
    var sorted := SortedMembers(x.members);
    var parts := EntryTexts(sorted)[i..];
    var m := sorted[i];
    assert m in x.members;
    JoinStep(parts, [0x7D] + r);
    if i + 1 == |sorted| {
      ReadsBack(m.value, [0x7D] + r);
      LastMember(m, Normal(m.value), r);
      assert NormalMembers(sorted)[i..] == [Member(m.key, Normal(m.value))];
    } else {
      assert parts[1..] == EntryTexts(sorted)[i + 1..];
      var tail := Join(parts[1..]) + ([0x7D] + r);
      ReadsBack(m.value, [COMMA] + tail);
      MembersRead(x, i + 1, r);
      NextMember(m, Normal(m.value), tail, NormalMembers(sorted)[i + 1..], r);
      assert NormalMembers(sorted)[i..] == [Member(m.key, Normal(m.value))] + NormalMembers(sorted)[i + 1..];
    }
  }

  lemma OpensWith(open: CodeUnit, body: Text, close: CodeUnit, r: Text)
    ensures var t := [open] + body + [close] + r;
      && t[0] == open && t[1..] == body + ([close] + r)
      && (body == [] ==> |t| >= 2 && t[1] == close && t[2..] == r)
      && (body != [] ==> |t| >= 2 && t[1] == body[0])
  {
  }

  lemma {:induction false} ArrReads(x: Json, r: Text)
    requires IsJson(x) && x.Arr?
    ensures Read(Canonicalize(x) + r) == Some((Normal(x), r))
    decreases x, 0, |x.items| + 1
  {
    hide Canonicalize, Normal, ReadItems;
    var body := Join(ItemTexts(x.items));
    ArrText(x.items);
    OpensWith(0x5B, body, 0x5D, r);
    assert x.items == [] ==> Normals(x.items) == [] && body == [];
    if x.items != [] {
      StartsAValue(x.items[0]);
      assert body[0] == ItemTexts(x.items)[0][0];
      ItemsRead(x, 0, r);
      assert ItemTexts(x.items)[0..] == ItemTexts(x.items) && Normals(x.items)[0..] == Normals(x.items);
    }
  }

  lemma EntriesStart(members: seq<Member>)
    requires members != []
    ensures Join(EntryTexts(members)) != [] && Join(EntryTexts(members))[0] == QUOTE
  {
  }

  lemma {:induction false} ObjReads(x: Json, r: Text)
    requires IsJson(x) && x.Obj?
    ensures Read(Canonicalize(x) + r) == Some((Normal(x), r))
    decreases x, 0, |x.members| + 1
  {
    hide Canonicalize, Normal, ReadMembers, SortedMembers, Join, EntryText;
    var sorted := SortedMembers(x.members);
    var body := Join(EntryTexts(sorted));
    ObjText(x.members);
    OpensWith(0x7B, body, 0x7D, r);
    if x.members == [] {
      assert EntryTexts(sorted) == [] && NormalMembers(sorted) == [];
      EmptyJoin();
    } else {
      EntriesStart(sorted);
      MembersRead(x, 0, r);
      assert EntryTexts(sorted)[0..] == EntryTexts(sorted) && NormalMembers(sorted)[0..] == NormalMembers(sorted);
    }
  }

  lemma EmptyJoin()
    ensures Join([]) == []
  {
  }

  /** Reading a canonical text gives the value back, its keys in order, and stops where the text stops. */
  lemma {:induction false} ReadsBack(x: Json, r: Text)
    requires IsJson(x) && Ends(r)
    ensures Read(Canonicalize(x) + r) == Some((Normal(x), r))
    decreases x, 1, 0
  {
    match x
    case Null => ConstantReads(r);
    case Bool(_) => ConstantReads(r);
    case Num(token) => NumReads(token, r);
    case Str(s) => StrReads(s, r);
    case Arr(_) => ArrReads(x, r);
    case Obj(_) => ObjReads(x, r);
  }

  // ---- Sorting by key ------------------------------------------------------------------------------------

  lemma {:induction false} TextOrder(a: Text, b: Text)
    ensures TextLess(a, b) || a == b || TextLess(b, a)
    ensures !(TextLess(a, b) && TextLess(b, a)) && !TextLess(a, a)
  {
    if a != [] && b != [] && a[0] == b[0] {
      TextOrder(a[1..], b[1..]);
      assert a == [a[0]] + a[1..] && b == [b[0]] + b[1..];
    }
    if a != [] { TextOrder(a[1..], a[1..]); }
  }

  lemma {:induction false} TextTransitive(a: Text, b: Text, c: Text)
    requires TextLess(a, b) && TextLess(b, c)
    ensures TextLess(a, c)
  {
    if a != [] && a[0] == b[0] && b[0] == c[0] {
      TextTransitive(a[1..], b[1..], c[1..]);
    }
  }

  predicate InOrder(ms: seq<Member>) {
    forall i, j :: 0 <= i < j < |ms| ==> TextLess(ms[i].key, ms[j].key)
  }

  lemma ConsInOrder(m: Member, ms: seq<Member>)
    requires InOrder(ms) && forall i :: 0 <= i < |ms| ==> TextLess(m.key, ms[i].key)
    ensures InOrder([m] + ms)
  {
  }

  lemma {:induction false} InsertInOrder(m: Member, ms: seq<Member>)
    requires InOrder(ms) && !HasKey(ms, m.key)
    ensures InOrder(InsertMember(m, ms))
  {
    hide TextLess;
    if ms != [] {
      TextOrder(ms[0].key, m.key);
      if TextLess(ms[0].key, m.key) {
        var r := InsertMember(m, ms[1..]);
        assert forall k :: 0 <= k < |ms[1..]| ==> ms[1..][k] == ms[k + 1];
        InsertInOrder(m, ms[1..]);
        forall i | 0 <= i < |r| ensures TextLess(ms[0].key, r[i].key) {
          assert r[i] in multiset(ms[1..]) + multiset{m};
        }
        ConsInOrder(ms[0], r);
      } else {
        assert ms[0].key != m.key;
        forall i | 0 <= i < |ms| ensures TextLess(m.key, ms[i].key) {
          if i > 0 { TextTransitive(m.key, ms[0].key, ms[i].key); }
        }
        ConsInOrder(m, ms);
      }
    }
  }

  lemma {:induction false} SortInOrder(ms: seq<Member>)
    requires DistinctKeys(ms)
    ensures InOrder(SortedMembers(ms))
  {
    if ms != [] {
      var r := SortedMembers(ms[1..]);
      SortInOrder(ms[1..]);
      forall k | 0 <= k < |r| ensures r[k].key != ms[0].key {
        var j :| 0 <= j < |ms[1..]| && ms[1..][j] == r[k];
        assert ms[1..][j] == ms[j + 1];
      }
      InsertInOrder(ms[0], r);
    }
  }

  ghost predicate SameKeys(a: seq<Member>, b: seq<Member>) {
    forall k :: HasKey(a, k) <==> HasKey(b, k)
  }

  lemma KeysBothWays(a: seq<Member>, b: seq<Member>)
    requires forall i :: 0 <= i < |a| ==> HasKey(b, a[i].key)
    requires forall j :: 0 <= j < |b| ==> HasKey(a, b[j].key)
    ensures SameKeys(a, b)
  {
  }

  lemma MembersHaveKeys(a: seq<Member>, b: seq<Member>)
    requires forall i :: 0 <= i < |a| ==> a[i] in b
    ensures forall i :: 0 <= i < |a| ==> HasKey(b, a[i].key)
  {
  }

  /** The sorted members are the members. */
  lemma SortedFacts(ms: seq<Member>)
    requires DistinctKeys(ms)
    ensures InOrder(SortedMembers(ms))
    ensures forall i :: 0 <= i < |ms| ==> ms[i] in SortedMembers(ms)
    ensures SameKeys(SortedMembers(ms), ms)
  {
    SortInOrder(ms);
    MultisetFacts(ms, SortedMembers(ms));
    hide SortedMembers, InOrder, DistinctKeys, HasKey, SameKeys;
    MembersHaveKeys(ms, SortedMembers(ms));
    MembersHaveKeys(SortedMembers(ms), ms);
    KeysBothWays(SortedMembers(ms), ms);
  }

  lemma HeadIsLeast(a: seq<Member>, b: seq<Member>)
    requires InOrder(a) && InOrder(b) && SameKeys(a, b) && a != []
    ensures b != [] && !TextLess(b[0].key, a[0].key)
  {
    assert HasKey(a, a[0].key);
    var j :| 0 <= j < |b| && b[j].key == a[0].key;
    if TextLess(b[0].key, a[0].key) {
      assert HasKey(b, b[0].key);
      var i :| 0 <= i < |a| && a[i].key == b[0].key;
      TextOrder(a[0].key, b[0].key);
    }
  }

  lemma TailKeys(a: seq<Member>, b: seq<Member>)
    requires InOrder(a) && InOrder(b) && SameKeys(a, b) && a != [] && b != [] && a[0].key == b[0].key
    ensures SameKeys(a[1..], b[1..])
  {
    forall k ensures HasKey(a[1..], k) <==> HasKey(b[1..], k) {
      TailKey(a, k);
      TailKey(b, k);
    }
  }

  lemma TailKey(a: seq<Member>, k: Text)
    requires InOrder(a) && a != []
    ensures HasKey(a[1..], k) <==> HasKey(a, k) && k != a[0].key
  {
    if HasKey(a[1..], k) {
      var i :| 0 <= i < |a[1..]| && a[1..][i].key == k;
      assert a[i + 1].key == k;
      TextOrder(a[0].key, k);
    }
    if HasKey(a, k) && k != a[0].key {
      var i :| 0 <= i < |a| && a[i].key == k;
      assert a[1..][i - 1].key == k;
    }
  }

  /** There is only one order to put a set of keys in. */
  lemma {:induction false} SortedKeysUnique(a: seq<Member>, b: seq<Member>)
    requires InOrder(a) && InOrder(b) && SameKeys(a, b)
    ensures |a| == |b| && forall i :: 0 <= i < |a| ==> a[i].key == b[i].key
  {
    hide TextLess;
    if a == [] {
      assert b != [] ==> HasKey(b, b[0].key);
    } else {
      HeadIsLeast(a, b);
      HeadIsLeast(b, a);
      TextOrder(a[0].key, b[0].key);
      TailKeys(a, b);
      SortedKeysUnique(a[1..], b[1..]);
      forall i | 0 <= i < |a| ensures a[i].key == b[i].key {
        if i > 0 { assert a[i] == a[1..][i - 1] && b[i] == b[1..][i - 1]; }
      }
    }
  }

  // ---- Same value, same text -------------------------------------------------------------------------------

  lemma SameKeysChain(a: seq<Member>, b: seq<Member>, c: seq<Member>, d: seq<Member>)
    requires SameKeys(a, b) && SameKeys(b, c) && SameKeys(d, c)
    ensures SameKeys(a, d)
  {
  }

  lemma ObjKeys(ms: seq<Member>, ns: seq<Member>)
    requires DistinctKeys(ms) && DistinctKeys(ns) && SameKeys(ms, ns)
    ensures var a, b := SortedMembers(ms), SortedMembers(ns);
      |a| == |b| && forall i :: 0 <= i < |a| ==> a[i].key == b[i].key
  {
    SortedFacts(ms);
    SortedFacts(ns);
    hide SortedMembers, InOrder, DistinctKeys, HasKey, SameKeys;
    SameKeysChain(SortedMembers(ms), ms, ns, SortedMembers(ns));
    SortedKeysUnique(SortedMembers(ms), SortedMembers(ns));
  }

  lemma SameEntries(a: seq<Member>, b: seq<Member>)
    requires |a| == |b| && forall i :: 0 <= i < |a| ==> EntryText(a[i]) == EntryText(b[i])
    ensures EntryTexts(a) == EntryTexts(b)
  {
    hide EntryText;
  }

  lemma ObjTextSame(ms: seq<Member>, ns: seq<Member>)
    requires var a, b := SortedMembers(ms), SortedMembers(ns);
      |a| == |b| && forall i :: 0 <= i < |a| ==> EntryText(a[i]) == EntryText(b[i])
    ensures Canonicalize(Obj(ms)) == Canonicalize(Obj(ns))
  {
    hide SortedMembers, EntryText, Canonicalize, Join, EntryTexts;
    SameEntries(SortedMembers(ms), SortedMembers(ns));
    ObjText(ms);
    ObjText(ns);
  }

  lemma ArrTextSame(xs: seq<Json>, ys: seq<Json>)
    requires |xs| == |ys| && forall i :: 0 <= i < |xs| ==> Canonicalize(xs[i]) == Canonicalize(ys[i])
    ensures Canonicalize(Arr(xs)) == Canonicalize(Arr(ys))
  {
    hide Canonicalize, Join;
    ArrText(xs);
    ArrText(ys);
    assert ItemTexts(xs) == ItemTexts(ys);
  }

  lemma {:induction false} SameThenText(x: Json, y: Json)
    requires IsJson(x) && IsJson(y) && Same(x, y)
    ensures Canonicalize(x) == Canonicalize(y)
    decreases x
  {
    hide Canonicalize, SortedMembers, DistinctKeys, HasKey;
    match x
    case Arr(items) =>
      forall i | 0 <= i < |items| ensures Canonicalize(items[i]) == Canonicalize(y.items[i]) {
        SameThenText(items[i], y.items[i]);
      }
      ArrTextSame(items, y.items);
    case Obj(members) =>
      var a, b := SortedMembers(members), SortedMembers(y.members);
      KeysBothWays(members, y.members);
      ObjKeys(members, y.members);
      forall i | 0 <= i < |a| ensures EntryText(a[i]) == EntryText(b[i]) {
        var m :| 0 <= m < |members| && members[m] == a[i];
        var n :| 0 <= n < |y.members| && y.members[n] == b[i];
        SameThenText(members[m].value, y.members[n].value);
      }
      ObjTextSame(members, y.members);
    case _ =>
  }

  lemma NormalShapes(x: Json, y: Json)
    requires Normal(x) == Normal(y)
    ensures x.Arr? ==> y.Arr? && |x.items| == |y.items| && Normals(x.items) == Normals(y.items)
    ensures x.Obj? ==> y.Obj? && NormalMembers(SortedMembers(x.members)) == NormalMembers(SortedMembers(y.members))
    ensures !x.Arr? && !x.Obj? ==> x == y
  {
    if x.Arr? && y.Arr? {
      ArrText(x.items);
      ArrText(y.items);
      assert |Normals(x.items)| == |Normals(y.items)|;
    } else if x.Obj? && y.Obj? {
      ObjText(x.members);
      ObjText(y.members);
    }
  }

  lemma {:induction false} NormalThenSame(x: Json, y: Json)
    requires IsJson(x) && IsJson(y) && Normal(x) == Normal(y)
    ensures Same(x, y)
    decreases x
  {
    hide Normal, SortedMembers, NormalMembers, DistinctKeys, HasKey;
    NormalShapes(x, y);
    match x
    case Arr(items) =>
      forall i | 0 <= i < |items| ensures Same(items[i], y.items[i]) {
        assert Normals(items)[i] == Normals(y.items)[i];
        NormalThenSame(items[i], y.items[i]);
      }
    case Obj(members) =>
      ObjNormal(members, y.members);
      forall i, j | 0 <= i < |members| && 0 <= j < |y.members| && members[i].key == y.members[j].key
        ensures Same(members[i].value, y.members[j].value)
      {
        NormalThenSame(members[i].value, y.members[j].value);
      }
      AllKeys(members, y.members);
    case _ =>
  }

  lemma AllKeys(a: seq<Member>, b: seq<Member>)
    requires SameKeys(a, b)
    ensures forall i :: 0 <= i < |a| ==> HasKey(b, a[i].key)
    ensures forall j :: 0 <= j < |b| ==> HasKey(a, b[j].key)
  {
  }

  ghost predicate Alike(a: seq<Member>, b: seq<Member>) {
    |a| == |b| && forall p :: 0 <= p < |a| ==> a[p].key == b[p].key && Normal(a[p].value) == Normal(b[p].value)
  }

  lemma AlikeMembers(a: seq<Member>, b: seq<Member>)
    requires NormalMembers(a) == NormalMembers(b)
    ensures Alike(a, b) && SameKeys(a, b)
  {
    hide Normal;
    assert |NormalMembers(a)| == |a| && |NormalMembers(b)| == |b|;
    forall p | 0 <= p < |a| ensures a[p].key == b[p].key && Normal(a[p].value) == Normal(b[p].value) {
      assert NormalMembers(a)[p] == NormalMembers(b)[p];
    }
    forall p | 0 <= p < |a| ensures HasKey(b, a[p].key) && HasKey(a, b[p].key) {
      assert b[p].key == a[p].key;
    }
    KeysBothWays(a, b);
  }

  lemma ObjNormal(ms: seq<Member>, ns: seq<Member>)
    requires DistinctKeys(ms) && DistinctKeys(ns)
    requires NormalMembers(SortedMembers(ms)) == NormalMembers(SortedMembers(ns))
    ensures SameKeys(ms, ns)
    ensures forall i, j :: 0 <= i < |ms| && 0 <= j < |ns| && ms[i].key == ns[j].key ==>
              Normal(ms[i].value) == Normal(ns[j].value)
  {
    SortedFacts(ms);
    SortedFacts(ns);
    hide SortedMembers, Normal, DistinctKeys, InOrder, HasKey, NormalMembers, SameKeys;
    var a, b := SortedMembers(ms), SortedMembers(ns);
    AlikeMembers(a, b);
    assert SameKeys(ms, ns) by { hide *; SameKeysBack(ms, a, b, ns); }
    forall i, j | 0 <= i < |ms| && 0 <= j < |ns| && ms[i].key == ns[j].key
      ensures Normal(ms[i].value) == Normal(ns[j].value)
    {
      var p :| 0 <= p < |a| && a[p] == ms[i];
      var q :| 0 <= q < |b| && b[q] == ns[j];
      SamePlace(a, p, q);
    }
  }

  lemma SameKeysBack(ms: seq<Member>, a: seq<Member>, b: seq<Member>, ns: seq<Member>)
    requires SameKeys(a, ms) && SameKeys(a, b) && SameKeys(b, ns)
    ensures SameKeys(ms, ns)
  {
  }

  lemma SamePlace(ms: seq<Member>, p: nat, q: nat)
    requires InOrder(ms) && p < |ms| && q < |ms| && ms[p].key == ms[q].key
    ensures p == q
  {
    TextOrder(ms[p].key, ms[q].key);
  }

  /** Two values have the same canonical text exactly if they are equal up to the order of keys at every depth. */
  lemma CanonicalIffSame(x: Json, y: Json)
    requires IsJson(x) && IsJson(y)
    ensures Canonicalize(x) == Canonicalize(y) <==> Same(x, y)
  {
    if Same(x, y) {
      SameThenText(x, y);
    }
    if Canonicalize(x) == Canonicalize(y) {
      ReadsBack(x, []);
      ReadsBack(y, []);
      NormalThenSame(x, y);
    }
  }

  /** The order of keys: by the first code unit in which they differ, a proper prefix coming first. */
  lemma {:induction false} TextLessIff(a: Text, b: Text)
    ensures TextLess(a, b) <==>
              exists k :: 0 <= k <= |a| && k < |b| && a[..k] == b[..k] && (k == |a| || a[k] < b[k])
    decreases |a|
  {
    if a != [] && b != [] && a[0] == b[0] {
      TextLessIff(a[1..], b[1..]);
      if TextLess(a[1..], b[1..]) {
        var k :| 0 <= k <= |a[1..]| && k < |b[1..]| && a[1..][..k] == b[1..][..k]
              && (k == |a[1..]| || a[1..][k] < b[1..][k]);
        assert a[..k + 1] == [a[0]] + a[1..][..k] && b[..k + 1] == [b[0]] + b[1..][..k];
      }
      if k :| 0 <= k <= |a| && k < |b| && a[..k] == b[..k] && (k == |a| || a[k] < b[k]) {
        assert k > 0;
        assert a[1..][..k - 1] == a[..k][1..] && b[1..][..k - 1] == b[..k][1..];
      }
    } else if b != [] {
      assert a[..0] == b[..0];
    }
  }

  /** {"b":[true,null],"a":"\n"}, and how it is printed: {"a":"\n","b":[true,null]}. */
  const FIRST := Member([0x61], Str([0x0A]))
  const SECOND := Member([0x62], Arr([Bool(true), Null]))
  const EXAMPLE_TEXT: Text :=
    [0x7B] + [0x22, 0x61, 0x22, 0x3A, 0x22, 0x5C, 0x6E, 0x22] + [0x2C]
    + [0x22, 0x62, 0x22, 0x3A, 0x5B, 0x74, 0x72, 0x75, 0x65, 0x2C, 0x6E, 0x75, 0x6C, 0x6C, 0x5D] + [0x7D]

  lemma Example()
    ensures Canonicalize(Obj([SECOND, FIRST])) == EXAMPLE_TEXT
  {
    hide Canonicalize, SortedMembers, Join, Entry;
    FirstEntry(FIRST);
    SecondEntry(SECOND);
    ExampleKeys(FIRST, SECOND);
    ExampleJoin(Entry(FIRST), Entry(SECOND));
    ObjectOfTwo(SECOND, FIRST);
  }

  function Entry(m: Member): Text {
    Quoted(m.key) + [COLON] + Canonicalize(m.value)
  }

  lemma FirstEntry(a: Member)
    requires a == Member([0x61], Str([0x0A]))
    ensures Entry(a) == [0x22, 0x61, 0x22, 0x3A, 0x22, 0x5C, 0x6E, 0x22]
  {
    assert Escaped([0x0A]) == [0x5C, 0x6E] && Escaped([0x61]) == [0x61];
  }

  lemma SecondEntry(b: Member)
    requires b == Member([0x62], Arr([Bool(true), Null]))
    ensures Entry(b) == [0x22, 0x62, 0x22, 0x3A, 0x5B, 0x74, 0x72, 0x75, 0x65, 0x2C, 0x6E, 0x75, 0x6C, 0x6C, 0x5D]
  {
    ExampleList();
    hide Canonicalize;
    assert Escaped([0x62]) == [0x62];
  }

  lemma ExampleList()
    ensures Canonicalize(Arr([Bool(true), Null])) ==
            [0x5B, 0x74, 0x72, 0x75, 0x65, 0x2C, 0x6E, 0x75, 0x6C, 0x6C, 0x5D]
  {
    var parts := seq(2, i requires 0 <= i < 2 => Canonicalize([Bool(true), Null][i]));
    assert parts == [TRUE_TEXT, NULL_TEXT];
    ExampleJoin(TRUE_TEXT, NULL_TEXT);
  }

  lemma ExampleJoin(a: Text, b: Text)
    ensures Join([a, b]) == a + [0x2C] + b
  {
    assert [a, b][1..] == [b];
  }

  lemma ExampleKeys(a: Member, b: Member)
    requires a.key == [0x61] && b.key == [0x62]
    ensures SortedMembers([b, a]) == [a, b]
  {
    assert [b, a][1..] == [a] && [a][1..] == [];
    assert SortedMembers([]) == [] && InsertMember(a, []) == [a];
    assert SortedMembers([a]) == [a];
    assert TextLess(a.key, b.key);
    assert InsertMember(b, [a]) == [a] + InsertMember(b, []);
  }

  lemma ObjectOfTwo(b: Member, a: Member)
    requires SortedMembers([b, a]) == [a, b]
    ensures Canonicalize(Obj([b, a])) == [0x7B] + Join([Entry(a), Entry(b)]) + [0x7D]
  {
    var x := Obj([b, a]);
    var sorted := SortedMembers(x.members);
    assert sorted == [a, b];
    var entries := seq(|sorted|, i requires 0 <= i < |sorted| =>
      assert sorted[i] in x.members;
      Quoted(sorted[i].key) + [COLON] + Canonicalize(sorted[i].value));
    assert entries == [Entry(a), Entry(b)];
  }
}
