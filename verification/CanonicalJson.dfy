/**
 The canonical JSON printers that decide "same request" and "same field" (src/recursiveControl.ts,
 src/clientStartAdmission.ts).

 A string is its UTF-16 code units.  A number is the literal that JSON prints for it, which is
 different for different finite numbers (zero and minus zero print alike).  An object is its
 members in insertion order, with distinct keys.
 */
module CanonicalJson {
  import opened Ordering
  import opened Outcomes

  type Unit = u: nat | u < 0x1_0000
  type Text = seq<Unit>

  const QUOTE: Unit := 34
  const COMMA: Unit := 44
  const COLON: Unit := 58
  const OPEN_ARRAY: Unit := 91
  const BACKSLASH: Unit := 92
  const CLOSE_ARRAY: Unit := 93
  const OPEN_OBJECT: Unit := 123
  const CLOSE_OBJECT: Unit := 125
  const LETTER_U: Unit := 117

  datatype Json =
    | Null
    | Bool(value: bool)
    | Number(literal: Text)
    | Str(text: Text)
    | Arr(items: seq<Json>)
    | Obj(members: seq<Member>)

  datatype Member = Member(key: Text, value: Json)

  // ---------------------------------------------------------------- quoting a string

  predicate IsHigh(u: Unit) { 0xD800 <= u < 0xDC00 }

  predicate IsLow(u: Unit) { 0xDC00 <= u < 0xE000 }

  /** The unit belongs to a surrogate pair. */
  predicate Paired(s: Text, k: nat)
    requires k < |s|
  {
    || (IsHigh(s[k]) && k + 1 < |s| && IsLow(s[k + 1]))
    || (IsLow(s[k]) && k > 0 && IsHigh(s[k - 1]))
  }

  function HexDigit(d: nat): Unit
    requires d < 16
  {
    if d < 10 then 48 + d else 87 + d
  }

  function HexValue(u: Unit): Option<nat> {
    if 48 <= u <= 57 then Some(u - 48)
    else if 97 <= u <= 102 then Some(u - 87)
    else if 65 <= u <= 70 then Some(u - 55)
    else None
  }

  function HexEscape(u: Unit): Text {
    [BACKSLASH, LETTER_U, HexDigit(u / 4096), HexDigit(u / 256 % 16), HexDigit(u / 16 % 16), HexDigit(u % 16)]
  }

  /** The letter of a two-unit escape. */
  function ShortEscape(u: Unit): Option<Unit> {
    if u == 8 then Some(98)
    else if u == 9 then Some(116)
    else if u == 10 then Some(110)
    else if u == 12 then Some(102)
    else if u == 13 then Some(114)
    else if u == QUOTE || u == BACKSLASH then Some(u)
    else None
  }

  function QuoteUnit(s: Text, k: nat): Text
    requires k < |s|
  {
    var u := s[k];
    if ShortEscape(u).Some? then [BACKSLASH, ShortEscape(u).value]
    else if u < 32 || ((IsHigh(u) || IsLow(u)) && !Paired(s, k)) then HexEscape(u)
    else [u]
  }

  function QuoteFrom(s: Text, k: nat): Text
    requires k <= |s|
    decreases |s| - k
  {
    if k == |s| then [] else QuoteUnit(s, k) + QuoteFrom(s, k + 1)
  }

  function Quote(s: Text): Text {
    [QUOTE] + QuoteFrom(s, 0) + [QUOTE]
  }

  /** Section 7 of RFC 8259, read back: the unit an escape stands for, and its length. */
  function UnescapeAt(t: Text): (unit: Option<(Unit, nat)>)
    requires t != [] && t[0] == BACKSLASH
    ensures unit.Some? ==> 2 <= unit.value.1 <= |t|
  {
    if |t| < 2 then None
    else if t[1] == QUOTE || t[1] == BACKSLASH || t[1] == 47 then Some((t[1], 2))
    else if t[1] == 98 then Some((8, 2))
    else if t[1] == 116 then Some((9, 2))
    else if t[1] == 110 then Some((10, 2))
    else if t[1] == 102 then Some((12, 2))
    else if t[1] == 114 then Some((13, 2))
    else if t[1] == LETTER_U && |t| >= 6 then
      match (HexValue(t[2]), HexValue(t[3]), HexValue(t[4]), HexValue(t[5]))
      case (Some(a), Some(b), Some(c), Some(d)) => Some((((a * 16 + b) * 16 + c) * 16 + d, 6))
      case _ => None
    else None
  }

  /** Reads a string after its opening quote: its units, and what follows the closing quote. */
  function Unquote(t: Text): Option<(Text, Text)> {
    if t == [] || t[0] < 32 then None
    else if t[0] == QUOTE then Some(([], t[1..]))
    else if t[0] == BACKSLASH then
      match UnescapeAt(t)
      case None => None
      case Some(unit) =>
        match Unquote(t[unit.1..])
        case None => None
        case Some(rest) => Some(([unit.0] + rest.0, rest.1))
    else
      match Unquote(t[1..])
      case None => None
      case Some(rest) => Some(([t[0]] + rest.0, rest.1))
  }

  lemma HexRoundTrip(u: Unit)
    ensures u / 4096 < 16
    ensures HexValue(HexDigit(u / 4096)) == Some(u / 4096)
    ensures HexValue(HexDigit(u / 256 % 16)) == Some(u / 256 % 16)
    ensures HexValue(HexDigit(u / 16 % 16)) == Some(u / 16 % 16)
    ensures HexValue(HexDigit(u % 16)) == Some(u % 16)
    ensures ((u / 4096 * 16 + u / 256 % 16) * 16 + u / 16 % 16) * 16 + u % 16 == u
  {
    assert u / 16 == u / 16 / 16 * 16 + u / 16 % 16;
    assert u / 256 == u / 256 / 16 * 16 + u / 256 % 16;
    assert u / 16 / 16 == u / 256;
    assert u / 256 / 16 == u / 4096;
  }

  lemma UnescapeQuoted(s: Text, k: nat, rest: Text)
    requires k < |s| && QuoteUnit(s, k)[0] == BACKSLASH
    ensures UnescapeAt(QuoteUnit(s, k) + rest) == Some((s[k], |QuoteUnit(s, k)|))
  {
    HexRoundTrip(s[k]);
    var t := QuoteUnit(s, k) + rest;
    if ShortEscape(s[k]).None? {
      assert t[0..6] == HexEscape(s[k]);
      assert t[2] == HexEscape(s[k])[2] && t[3] == HexEscape(s[k])[3] && t[4] == HexEscape(s[k])[4] && t[5] == HexEscape(s[k])[5];
    }
  }

  lemma UnquoteStep(s: Text, k: nat, after: Text, tail: Text, rest: Text)
    requires k < |s| && Unquote(after) == Some((tail, rest))
    ensures Unquote(QuoteUnit(s, k) + after) == Some(([s[k]] + tail, rest))
  {
    var unit := QuoteUnit(s, k);
    var t := unit + after;
    assert t[|unit|..] == after;
    assert t[0] == unit[0];
    if unit[0] == BACKSLASH { UnescapeQuoted(s, k, after); } else { assert unit == [s[k]]; }
  }

  lemma UnquoteEnd(rest: Text)
    ensures Unquote([QUOTE] + rest) == Some(([], rest))
  {
    assert ([QUOTE] + rest)[1..] == rest;
  }

  /** Quoting is read back unit by unit, lone surrogates included. */
  lemma {:induction false} QuoteRoundTrip(s: Text, k: nat, rest: Text)
    requires k <= |s|
    ensures Unquote(QuoteFrom(s, k) + [QUOTE] + rest) == Some((s[k..], rest))
    decreases |s| - k
  {
    hide Unquote, QuoteUnit;
    if k == |s| {
      UnquoteEnd(rest);
      assert QuoteFrom(s, k) + [QUOTE] + rest == [QUOTE] + rest;
    } else {
      var after := QuoteFrom(s, k + 1) + [QUOTE] + rest;
      QuoteRoundTrip(s, k + 1, rest);
      UnquoteStep(s, k, after, s[k + 1..], rest);
      assert QuoteFrom(s, k) + [QUOTE] + rest == QuoteUnit(s, k) + after;
      assert s[k..] == [s[k]] + s[k + 1..];
    }
  }

  /** A quoted string ends where it ends, whatever follows, and tells which string it quotes. */
  lemma QuoteIsExact(s: Text, t: Text, x: Text, y: Text)
    requires Quote(s) + x == Quote(t) + y
    ensures s == t && x == y
  {
    var p, q := QuoteFrom(s, 0) + [QUOTE] + x, QuoteFrom(t, 0) + [QUOTE] + y;
    assert p == q by {
      AfterQuote(s, x);
      AfterQuote(t, y);
    }
    QuoteRoundTrip(s, 0, x);
    QuoteRoundTrip(t, 0, y);
    assert s[0..] == s && t[0..] == t;
  }

  lemma AfterQuote(s: Text, x: Text)
    ensures (Quote(s) + x)[1..] == QuoteFrom(s, 0) + [QUOTE] + x
  {
  }

  // ---------------------------------------------------------------- keys

  function Keys(members: seq<Member>): (keys: seq<Text>)
    ensures |keys| == |members|
    ensures forall k :: 0 <= k < |keys| ==> keys[k] == members[k].key
  {
    seq(|members|, k requires 0 <= k < |members| => members[k].key)
  }

  function IndexOf(members: seq<Member>, key: Text): (i: nat)
    requires key in Keys(members)
    ensures i < |members| && members[i].key == key
  {
    if members[0].key == key then 0
    else
      assert Keys(members[1..]) == Keys(members)[1..];
      1 + IndexOf(members[1..], key)
  }

  // ---------------------------------------------------------------- the printer

  predicate NumberUnit(u: Unit) {
    48 <= u <= 57 || u == 45 || u == 43 || u == 46 || u == 101
  }

  predicate IsNumberLiteral(t: Text) {
    t != [] && (48 <= t[0] <= 57 || t[0] == 45) && forall k :: 0 <= k < |t| ==> NumberUnit(t[k])
  }

  predicate WellFormed(a: Json) {
    match a
    case Number(literal) => IsNumberLiteral(literal)
    case Arr(items) => forall k :: 0 <= k < |items| ==> WellFormed(items[k])
    case Obj(members) => Distinct(Keys(members)) && forall k :: 0 <= k < |members| ==> WellFormed(members[k].value)
    case _ => true
  }

  const NULL_TEXT: Text := [110, 117, 108, 108]
  const TRUE_TEXT: Text := [116, 114, 117, 101]
  const FALSE_TEXT: Text := [102, 97, 108, 115, 101]

  function Print(order: (Text, Text) -> bool, a: Json): Text
    decreases a, 1, 0
  {
    match a
    case Null => NULL_TEXT
    case Bool(value) => if value then TRUE_TEXT else FALSE_TEXT
    case Number(literal) => literal
    case Str(text) => Quote(text)
    case Arr(items) => [OPEN_ARRAY] + PrintItems(order, a, 0)
    case Obj(members) => [OPEN_OBJECT] + PrintMembers(order, a, Sort(order, Keys(members)))
  }

  /** The items from `k` on, joined by commas, and the closing bracket. */
  function PrintItems(order: (Text, Text) -> bool, a: Json, k: nat): Text
    requires a.Arr? && k <= |a.items|
    decreases a, 0, |a.items| - k
  {
    if k == |a.items| then [CLOSE_ARRAY]
    else (if k > 0 then [COMMA] else []) + Print(order, a.items[k]) + PrintItems(order, a, k + 1)
  }

  /** The members named by `keys`, joined by commas, and the closing brace. */
  function PrintMembers(order: (Text, Text) -> bool, a: Json, keys: seq<Text>): Text
    requires a.Obj? && forall key :: key in keys ==> key in Keys(a.members)
    decreases a, 0, |keys|
  {
    if keys == [] then [CLOSE_OBJECT]
    else
      Quote(keys[0]) + [COLON] + Print(order, a.members[IndexOf(a.members, keys[0])].value)
      + (if |keys| > 1 then [COMMA] else []) + PrintMembers(order, a, keys[1..])
  }

  /** Equal up to the order of object keys, at any depth. */
  ghost predicate Equivalent(a: Json, b: Json)
    decreases a
  {
    match a
    case Arr(items) =>
      b.Arr? && |items| == |b.items| && forall k :: 0 <= k < |items| ==> Equivalent(items[k], b.items[k])
    case Obj(members) =>
      && b.Obj?
      && (forall key :: key in Keys(members) <==> key in Keys(b.members))
      && forall k :: 0 <= k < |members| ==>
           members[k].key in Keys(b.members)
           && Equivalent(members[k].value, b.members[IndexOf(b.members, members[k].key)].value)
    case _ => a == b
  }

  // ---------------------------------------------------------------- equal up to key order prints equal

  lemma KeysOfEquivalent(order: (Text, Text) -> bool, a: Json, b: Json)
    requires StrictTotal(order) && WellFormed(a) && WellFormed(b) && a.Obj? && Equivalent(a, b)
    ensures b.Obj? && Sort(order, Keys(a.members)) == Sort(order, Keys(b.members))
  {
    var x, y := Sort(order, Keys(a.members)), Sort(order, Keys(b.members));
    SortSorts(order, Keys(a.members));
    SortSorts(order, Keys(b.members));
    SortedIsUnique(order, x, y);
  }

  lemma {:induction false} EquivalentPrintsEqual(order: (Text, Text) -> bool, a: Json, b: Json)
    requires StrictTotal(order) && WellFormed(a) && WellFormed(b) && Equivalent(a, b)
    ensures Print(order, a) == Print(order, b)
    decreases a, 1, 0
  {
    match a
    case Arr(items) => ItemsPrintEqual(order, a, b, 0);
    case Obj(members) =>
      KeysOfEquivalent(order, a, b);
      MembersPrintEqual(order, a, b, Sort(order, Keys(members)));
    case _ =>
  }

  lemma {:induction false} ItemsPrintEqual(order: (Text, Text) -> bool, a: Json, b: Json, k: nat)
    requires StrictTotal(order) && WellFormed(a) && WellFormed(b) && a.Arr? && Equivalent(a, b) && k <= |a.items|
    ensures PrintItems(order, a, k) == PrintItems(order, b, k)
    decreases a, 0, |a.items| - k
  {
    if k < |a.items| {
      EquivalentPrintsEqual(order, a.items[k], b.items[k]);
      ItemsPrintEqual(order, a, b, k + 1);
    }
  }

  lemma {:induction false} MembersPrintEqual(order: (Text, Text) -> bool, a: Json, b: Json, keys: seq<Text>)
    requires StrictTotal(order) && WellFormed(a) && WellFormed(b) && a.Obj? && Equivalent(a, b)
    requires forall key :: key in keys ==> key in Keys(a.members)
    ensures PrintMembers(order, a, keys) == PrintMembers(order, b, keys)
    decreases a, 0, |keys|
  {
    if keys != [] {
      var i := IndexOf(a.members, keys[0]);
      EquivalentPrintsEqual(order, a.members[i].value, b.members[IndexOf(b.members, keys[0])].value);
      MembersPrintEqual(order, a, b, keys[1..]);
    }
  }

  // ---------------------------------------------------------------- printing equal is equal up to key order

  /** What may follow a value inside a larger text. */
  predicate Ends(x: Text) {
    x == [] || x[0] == COMMA || x[0] == CLOSE_ARRAY || x[0] == CLOSE_OBJECT
  }

  lemma NumberIsExact(a: Text, b: Text, x: Text, y: Text)
    requires IsNumberLiteral(a) && IsNumberLiteral(b) && Ends(x) && Ends(y) && a + x == b + y
    ensures a == b && x == y
  {
    assert (a + x)[..|a|] == a && (b + y)[..|b|] == b;
    assert (a + x)[|a|..] == x && (b + y)[|b|..] == y;
  }

  lemma {:induction false} PrintIsExact(order: (Text, Text) -> bool, a: Json, b: Json, x: Text, y: Text)
    requires StrictTotal(order) && WellFormed(a) && WellFormed(b) && Ends(x) && Ends(y)
    requires Print(order, a) + x == Print(order, b) + y
    ensures Equivalent(a, b) && x == y
    decreases a, 1, 0
  {
    FirstUnit(order, a, x);
    FirstUnit(order, b, y);
    match a
    case Null => FixedIsExact(NULL_TEXT, x, y);
    case Bool(value) => FixedIsExact(Print(order, a), x, y);
    case Number(literal) => NumberIsExact(literal, b.literal, x, y);
    case Str(text) => QuoteIsExact(text, b.text, x, y);
    case Arr(items) =>
      Tail(OPEN_ARRAY, PrintItems(order, a, 0), x);
      Tail(OPEN_ARRAY, PrintItems(order, b, 0), y);
      ItemsAreExact(order, a, b, 0, x, y);
    case Obj(members) =>
      var p, q := Sort(order, Keys(members)), Sort(order, Keys(b.members));
      Tail(OPEN_OBJECT, PrintMembers(order, a, p), x);
      Tail(OPEN_OBJECT, PrintMembers(order, b, q), y);
      MembersAreExact(order, a, b, p, q, x, y);
      AllMembersEquivalent(order, a, b);
  }

  /** The first unit tells the kind of value. */
  datatype Kind = NullKind | TrueKind | FalseKind | NumberKind | StringKind | ArrayKind | ObjectKind

  function KindOf(a: Json): Kind {
    match a
    case Null => NullKind
    case Bool(value) => if value then TrueKind else FalseKind
    case Number(_) => NumberKind
    case Str(_) => StringKind
    case Arr(_) => ArrayKind
    case Obj(_) => ObjectKind
  }

  function KindAt(u: Unit): Kind {
    if u == 110 then NullKind
    else if u == 116 then TrueKind
    else if u == 102 then FalseKind
    else if u == QUOTE then StringKind
    else if u == OPEN_ARRAY then ArrayKind
    else if u == OPEN_OBJECT then ObjectKind
    else NumberKind
  }

  lemma FirstUnit(order: (Text, Text) -> bool, a: Json, x: Text)
    requires WellFormed(a)
    ensures Print(order, a) != [] && (Print(order, a) + x)[0] == Print(order, a)[0]
    ensures KindAt(Print(order, a)[0]) == KindOf(a) && !Ends(Print(order, a) + x)
  {
  }

  lemma FixedIsExact(t: Text, x: Text, y: Text)
    requires t + x == t + y
    ensures x == y
  {
    assert (t + x)[|t|..] == x && (t + y)[|t|..] == y;
  }

  lemma Tail(u: Unit, t: Text, x: Text)
    ensures (([u] + t) + x)[1..] == t + x
  {
  }

  lemma {:induction false} ItemsAreExact(order: (Text, Text) -> bool, a: Json, b: Json, k: nat, x: Text, y: Text)
    requires StrictTotal(order) && WellFormed(a) && WellFormed(b) && Ends(x) && Ends(y)
    requires a.Arr? && b.Arr? && k <= |a.items| && k <= |b.items|
    requires PrintItems(order, a, k) + x == PrintItems(order, b, k) + y
    ensures |a.items| == |b.items| && x == y
    ensures forall i :: k <= i < |a.items| ==> Equivalent(a.items[i], b.items[i])
    decreases a, 0, |a.items| - k
  {
    if k == |a.items| && k == |b.items| {
      Tail(CLOSE_ARRAY, [], x);
      Tail(CLOSE_ARRAY, [], y);
      assert x == ([CLOSE_ARRAY] + x)[1..] && y == ([CLOSE_ARRAY] + y)[1..];
    } else {
      ItemsStart(order, a, k, x);
      ItemsStart(order, b, k, y);
      var p, q := PrintItems(order, a, k + 1) + x, PrintItems(order, b, k + 1) + y;
      ItemsEnd(order, a, k + 1, x);
      ItemsEnd(order, b, k + 1, y);
      PrintIsExact(order, a.items[k], b.items[k], p, q);
      ItemsAreExact(order, a, b, k + 1, x, y);
    }
  }

  predicate Starts(t: Text, u: Unit) {
    t != [] && t[0] == u
  }

  /** What the items from `k` on start with, and what is left after a separator. */
  lemma ItemsStart(order: (Text, Text) -> bool, a: Json, k: nat, x: Text)
    requires a.Arr? && k <= |a.items| && WellFormed(a)
    ensures Starts(PrintItems(order, a, k) + x, CLOSE_ARRAY) <==> k == |a.items|
    ensures k < |a.items| ==>
              |PrintItems(order, a, k)| > 0
              && (PrintItems(order, a, k) + x)[if k > 0 then 1 else 0..] == Print(order, a.items[k]) + (PrintItems(order, a, k + 1) + x)
  {
    hide Print;
    if k < |a.items| {
      var value, rest := Print(order, a.items[k]), PrintItems(order, a, k + 1);
      FirstUnit(order, a.items[k], rest + x);
      assert PrintItems(order, a, k) + x == (if k > 0 then [COMMA] else []) + (value + (rest + x));
    }
  }

  lemma ItemsEnd(order: (Text, Text) -> bool, a: Json, k: nat, x: Text)
    requires a.Arr? && 0 < k <= |a.items|
    ensures Ends(PrintItems(order, a, k) + x)
  {
  }

  /** The text after the first member: a comma if another one follows, and the rest. */
  function AfterMember(order: (Text, Text) -> bool, a: Json, keys: seq<Text>): Text
    requires a.Obj? && keys != [] && forall key :: key in keys ==> key in Keys(a.members)
  {
    (if |keys| > 1 then [COMMA] else []) + PrintMembers(order, a, keys[1..])
  }

  lemma MembersStart(order: (Text, Text) -> bool, a: Json, keys: seq<Text>, x: Text)
    requires a.Obj? && forall key :: key in keys ==> key in Keys(a.members)
    ensures keys == [] ==> PrintMembers(order, a, keys) + x == [CLOSE_OBJECT] + x
    ensures keys != [] ==>
              PrintMembers(order, a, keys) + x
              == Quote(keys[0])
                 + ([COLON] + (Print(order, a.members[IndexOf(a.members, keys[0])].value) + (AfterMember(order, a, keys) + x)))
    ensures keys != [] ==> Starts(PrintMembers(order, a, keys) + x, QUOTE)
  {
    hide Print;
    if keys != [] {
      var value := Print(order, a.members[IndexOf(a.members, keys[0])].value);
      var comma, rest := if |keys| > 1 then [COMMA] else [], PrintMembers(order, a, keys[1..]);
      assert PrintMembers(order, a, keys) == Quote(keys[0]) + [COLON] + value + comma + rest;
      Regroup(Quote(keys[0]), [COLON], value, comma, rest, x);
    }
  }

  lemma Regroup(a: Text, b: Text, c: Text, d: Text, e: Text, x: Text)
    ensures (a + b + c + d + e) + x == a + (b + (c + ((d + e) + x)))
  {
    assert (a + b + c + d + e) + x == (a + b + c) + ((d + e) + x);
    assert (a + b + c) + ((d + e) + x) == a + (b + (c + ((d + e) + x)));
  }

  lemma RestOfMembers(order: (Text, Text) -> bool, a: Json, keys: seq<Text>, x: Text)
    requires a.Obj? && keys != [] && forall key :: key in keys ==> key in Keys(a.members)
    ensures Ends(AfterMember(order, a, keys) + x)
    ensures |keys| == 1 ==>
              AfterMember(order, a, keys) + x == PrintMembers(order, a, keys[1..]) + x
              && (AfterMember(order, a, keys) + x)[0] == CLOSE_OBJECT
    ensures |keys| > 1 ==>
              (AfterMember(order, a, keys) + x)[1..] == PrintMembers(order, a, keys[1..]) + x
              && (AfterMember(order, a, keys) + x)[0] == COMMA
  {
  }

  lemma {:induction false} MembersAreExact(
      order: (Text, Text) -> bool, a: Json, b: Json, p: seq<Text>, q: seq<Text>, x: Text, y: Text)
    requires StrictTotal(order) && WellFormed(a) && WellFormed(b) && Ends(x) && Ends(y) && a.Obj? && b.Obj?
    requires forall key :: key in p ==> key in Keys(a.members)
    requires forall key :: key in q ==> key in Keys(b.members)
    requires PrintMembers(order, a, p) + x == PrintMembers(order, b, q) + y
    ensures p == q && x == y
    ensures forall key :: key in p ==>
              Equivalent(a.members[IndexOf(a.members, key)].value, b.members[IndexOf(b.members, key)].value)
    decreases a, 0, |p|
  {
    hide Print, Quote, AfterMember, StrictTotal, PrintMembers;
    MembersStart(order, a, p, x);
    MembersStart(order, b, q, y);
    if p == [] || q == [] {
      FixedIsExact([CLOSE_OBJECT], x, y);
    } else {
      var av, bv := a.members[IndexOf(a.members, p[0])].value, b.members[IndexOf(b.members, q[0])].value;
      var pr, qr := AfterMember(order, a, p) + x, AfterMember(order, b, q) + y;
      QuoteIsExact(p[0], q[0], [COLON] + (Print(order, av) + pr), [COLON] + (Print(order, bv) + qr));
      FixedIsExact([COLON], Print(order, av) + pr, Print(order, bv) + qr);
      RestOfMembers(order, a, p, x);
      RestOfMembers(order, b, q, y);
      PrintIsExact(order, av, bv, pr, qr);
      MembersAreExact(order, a, b, p[1..], q[1..], x, y);
    }
  }

  lemma IndexOfKey(members: seq<Member>, k: nat)
    requires k < |members| && Distinct(Keys(members))
    ensures members[k].key in Keys(members) && IndexOf(members, members[k].key) == k
  {
    assert Keys(members)[k] == members[k].key;
    var i := IndexOf(members, members[k].key);
    assert Keys(members)[i] == Keys(members)[k];
  }

  lemma AllMembersEquivalent(order: (Text, Text) -> bool, a: Json, b: Json)
    requires WellFormed(a) && WellFormed(b) && a.Obj? && b.Obj?
    requires Sort(order, Keys(a.members)) == Sort(order, Keys(b.members))
    requires forall key :: key in Sort(order, Keys(a.members)) ==>
               Equivalent(a.members[IndexOf(a.members, key)].value, b.members[IndexOf(b.members, key)].value)
    ensures Equivalent(a, b)
  {
    forall k | 0 <= k < |a.members|
      ensures a.members[k].key in Keys(b.members)
      ensures Equivalent(a.members[k].value, b.members[IndexOf(b.members, a.members[k].key)].value)
    {
      IndexOfKey(a.members, k);
      assert a.members[k].key in Sort(order, Keys(a.members));
    }
    assert forall key :: key in Keys(a.members) <==> key in Sort(order, Keys(a.members));
  }

  /** Two values print the same text exactly when they are equal up to object key order, at any depth. */
  lemma PrintDecidesEquivalence(order: (Text, Text) -> bool, a: Json, b: Json)
    requires StrictTotal(order) && WellFormed(a) && WellFormed(b)
    ensures Print(order, a) == Print(order, b) <==> Equivalent(a, b)
  {
    if Equivalent(a, b) { EquivalentPrintsEqual(order, a, b); }
    if Print(order, a) == Print(order, b) {
      assert Print(order, a) + [] == Print(order, a) && Print(order, b) + [] == Print(order, b);
      PrintIsExact(order, a, b, [], []);
    }
  }

  // ---------------------------------------------------------------- the two printers

  predicate UnitBelow(a: Unit, b: Unit) {
    a < b
  }

  /** JavaScript's `<` on strings: by code unit, a proper prefix first. */
  predicate UnitLess(a: Text, b: Text) {
    Lexicographic(UnitBelow, a, b)
  }

  lemma UnitLessIsStrictTotal()
    ensures StrictTotal(UnitLess)
  {
    assert StrictTotal(UnitBelow);
    forall a: Text ensures !UnitLess(a, a) { LexicographicIrreflexive(UnitBelow, a); }
    forall a: Text, b: Text ensures a == b || UnitLess(a, b) || UnitLess(b, a) { LexicographicTotal(UnitBelow, a, b); }
    forall a: Text, b: Text, c: Text | UnitLess(a, b) && UnitLess(b, c) ensures UnitLess(a, c) {
      LexicographicTransitive(UnitBelow, a, b, c);
    }
  }

  /** A key that JavaScript treats as an array index comes first in an object, in numeric order. */
  predicate IsIndex(key: Text) {
    && 0 < |key| <= 10
    && (forall k :: 0 <= k < |key| ==> 48 <= key[k] <= 57)
    && (|key| > 1 ==> key[0] != 48)
    && (|key| == 10 ==> UnitLess(key, MAX_INDEX_TEXT))
  }

  /** 4294967295, the least number that is no array index. */
  const MAX_INDEX_TEXT: Text := [52, 50, 57, 52, 57, 54, 55, 50, 57, 53]

  /** For numerals without leading zeros, shorter first and then by digit is numeric order. */
  predicate ObjectLess(a: Text, b: Text) {
    if IsIndex(a) && IsIndex(b) then |a| < |b| || (|a| == |b| && UnitLess(a, b))
    else if IsIndex(a) || IsIndex(b) then IsIndex(a)
    else UnitLess(a, b)
  }

  /** A decimal numeral as JavaScript prints it. */
  predicate IsNumeral(key: Text) {
    key != [] && (forall k :: 0 <= k < |key| ==> 48 <= key[k] <= 57) && (|key| > 1 ==> key[0] != 48)
  }

  function Pow10(n: nat): (p: nat)
    ensures p > 0
  {
    if n == 0 then 1 else 10 * Pow10(n - 1)
  }

  /** The number that a string of digits writes. */
  function Number(digits: Text): nat
    requires forall k :: 0 <= k < |digits| ==> 48 <= digits[k] <= 57
  {
    if digits == [] then 0 else (digits[0] - 48) * Pow10(|digits| - 1) + Number(digits[1..])
  }

  lemma {:induction false} NumberBound(digits: Text)
    requires forall k :: 0 <= k < |digits| ==> 48 <= digits[k] <= 57
    ensures Number(digits) < Pow10(|digits|)
  {
    if digits != [] {
      NumberBound(digits[1..]);
      assert (digits[0] - 48) * Pow10(|digits| - 1) <= 9 * Pow10(|digits| - 1);
    }
  }

  lemma {:induction false} OneMore(x: nat, y: nat, p: nat)
    requires x < y
    ensures x * p + p <= y * p
  {
    if y == x + 1 {
      assert y * p == x * p + p;
    } else {
      OneMore(x, y - 1, p);
      assert y * p == (y - 1) * p + p;
    }
  }

  lemma LeadDecides(x: nat, y: nat, p: nat, r: nat, q: nat)
    requires r < p && q < p
    ensures x * p + r < y * p + q <==> x < y || (x == y && r < q)
  {
    if x < y { OneMore(x, y, p); }
    if y < x { OneMore(y, x, p); }
  }

  lemma {:induction false} SameLengthNumbers(a: Text, b: Text)
    requires |a| == |b|
    requires forall k :: 0 <= k < |a| ==> 48 <= a[k] <= 57 && 48 <= b[k] <= 57
    ensures UnitLess(a, b) <==> Number(a) < Number(b)
  {
    if a != [] {
      SameLengthNumbers(a[1..], b[1..]);
      NumberBound(a[1..]);
      NumberBound(b[1..]);
      LeadDecides(a[0] - 48, b[0] - 48, Pow10(|a| - 1), Number(a[1..]), Number(b[1..]));
    }
  }

  lemma {:induction false} PowGrows(m: nat, n: nat)
    requires m <= n
    ensures Pow10(m) <= Pow10(n)
  {
    if m < n { PowGrows(m, n - 1); }
  }

  lemma LongerIsGreater(a: Text, b: Text)
    requires IsNumeral(a) && IsNumeral(b) && |a| < |b|
    ensures Number(a) < Number(b)
  {
    NumberBound(a);
    PowGrows(|a|, |b| - 1);
    assert (b[0] - 48) * Pow10(|b| - 1) >= Pow10(|b| - 1);
  }

  /** Shorter first and then by digit is the order of the numbers. */
  lemma NumeralOrder(a: Text, b: Text)
    requires IsNumeral(a) && IsNumeral(b)
    ensures |a| < |b| || (|a| == |b| && UnitLess(a, b)) <==> Number(a) < Number(b)
  {
    if |a| < |b| { LongerIsGreater(a, b); }
    if |b| < |a| { LongerIsGreater(b, a); }
    if |a| == |b| { SameLengthNumbers(a, b); }
  }

  /** The index keys are the numerals below 2^32 - 1, and an object gives them back in numeric order before all others. */
  lemma IndexKeysAreNumbers(a: Text, b: Text)
    ensures IsIndex(a) <==> IsNumeral(a) && Number(a) < 4294967295
    ensures IsIndex(a) && IsIndex(b) ==> (ObjectLess(a, b) <==> Number(a) < Number(b))
    ensures IsIndex(a) && !IsIndex(b) ==> ObjectLess(a, b) && !ObjectLess(b, a)
  {
    if IsNumeral(a) {
      assert IsNumeral(MAX_INDEX_TEXT) && Number(MAX_INDEX_TEXT) == 4294967295 by { MaxIndex(); }
      NumeralOrder(a, MAX_INDEX_TEXT);
      if IsNumeral(b) { NumeralOrder(a, b); }
    }
  }

  lemma Digit(digit: Unit, rest: Text, whole: Text, number: nat, power: nat)
    requires 48 <= digit <= 57 && (forall k :: 0 <= k < |rest| ==> 48 <= rest[k] <= 57) && whole == [digit] + rest
    requires Number(rest) == number && Pow10(|rest|) == power
    ensures forall k :: 0 <= k < |whole| ==> 48 <= whole[k] <= 57
    ensures Number(whole) == (digit - 48) * power + number && Pow10(|whole|) == 10 * power
  {
    assert whole[1..] == rest;
  }

  lemma MaxIndex()
    ensures IsNumeral(MAX_INDEX_TEXT) && Number(MAX_INDEX_TEXT) == 4294967295
  {
    hide Number, Pow10;
    assert Number([]) == 0 && Pow10(0) == 1 by { Nothing(); }
    Digit(53, [], [53], 0, 1);
    Digit(57, [53], [57, 53], 5, 10);
    Digit(50, [57, 53], [50, 57, 53], 95, 100);
    Digit(55, [50, 57, 53], [55, 50, 57, 53], 295, 1000);
    Digit(54, [55, 50, 57, 53], [54, 55, 50, 57, 53], 7295, 10000);
    Digit(57, [54, 55, 50, 57, 53], [57, 54, 55, 50, 57, 53], 67295, 100000);
    Digit(52, [57, 54, 55, 50, 57, 53], [52, 57, 54, 55, 50, 57, 53], 967295, 1000000);
    Digit(57, [52, 57, 54, 55, 50, 57, 53], [57, 52, 57, 54, 55, 50, 57, 53], 4967295, 10000000);
    Digit(50, [57, 52, 57, 54, 55, 50, 57, 53], [50, 57, 52, 57, 54, 55, 50, 57, 53], 94967295, 100000000);
    Digit(52, [50, 57, 52, 57, 54, 55, 50, 57, 53], [52, 50, 57, 52, 57, 54, 55, 50, 57, 53], 294967295, 1000000000);
  }

  lemma Nothing()
    ensures Number([]) == 0 && Pow10(0) == 1
  {
  }

  lemma ObjectLessIsStrictTotal()
    ensures StrictTotal(ObjectLess)
  {
    UnitLessIsStrictTotal();
    forall a: Text ensures !ObjectLess(a, a) { assert !UnitLess(a, a); }
    forall a: Text, b: Text ensures a == b || ObjectLess(a, b) || ObjectLess(b, a) {
      assert a == b || UnitLess(a, b) || UnitLess(b, a);
    }
    forall a: Text, b: Text, c: Text | ObjectLess(a, b) && ObjectLess(b, c) ensures ObjectLess(a, c) {
      assert UnitLess(a, b) && UnitLess(b, c) ==> UnitLess(a, c);
    }
  }

  /** `canonicalRecursiveRequestJson`: the members are joined in code unit order. */
  lemma RecursiveRequestDigestDecides(a: Json, b: Json)
    requires WellFormed(a) && WellFormed(b)
    ensures Print(UnitLess, a) == Print(UnitLess, b) <==> Equivalent(a, b)
  {
    UnitLessIsStrictTotal();
    PrintDecidesEquivalence(UnitLess, a, b);
  }

  /** `canonicalJson`: the sorted members are put back into an object, which orders index keys first. */
  lemma OwnerJsonDecides(a: Json, b: Json)
    requires WellFormed(a) && WellFormed(b)
    ensures Print(ObjectLess, a) == Print(ObjectLess, b) <==> Equivalent(a, b)
  {
    ObjectLessIsStrictTotal();
    PrintDecidesEquivalence(ObjectLess, a, b);
  }
}
