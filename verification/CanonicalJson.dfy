/** Canonical JSON text, on which every content hash of the contracts is computed.

    Text is a sequence of UTF-16 code units, as in TypeScript.  Numbers are integers of any
    size, although TypeScript holds only the safe ones exactly.  The syntax is that of
    RFC 8259, sections 4, 5 and 7. */
module CanonicalJson {
  import opened Common

  type Unit = u: int | 0 <= u < 0x10000
  type Text = seq<Unit>

  /** An object lists its members in the order of their insertion. */
  datatype Json =
    | Null
    | Bool(b: bool)
    | Num(n: int)
    | Str(s: Text)
    | Arr(items: Items)
    | Obj(members: Members)
  datatype Items = NoItems | Item(head: Json, tail: Items)
  datatype Members = NoMembers | Member(key: Text, value: Json, rest: Members)

  /** What a JSON value means: an object is a map, whatever the order of its members. */
  datatype Value =
    | NullValue
    | BoolValue(b: bool)
    | NumValue(n: int)
    | StrValue(s: Text)
    | ArrValue(items: seq<Value>)
    | ObjValue(members: map<Text, Value>)

  function Meaning(j: Json): Value {
    match j
    case Null => NullValue
    case Bool(b) => BoolValue(b)
    case Num(n) => NumValue(n)
    case Str(s) => StrValue(s)
    case Arr(items) => ArrValue(ItemsMeaning(items))
    case Obj(members) => ObjValue(MembersMeaning(members))
  }

  function ItemsMeaning(items: Items): seq<Value> {
    match items
    case NoItems => []
    case Item(head, tail) => [Meaning(head)] + ItemsMeaning(tail)
  }

  function MembersMeaning(members: Members): map<Text, Value> {
    match members
    case NoMembers => map[]
    case Member(key, value, rest) => MembersMeaning(rest)[key := Meaning(value)]
  }

  predicate HasKey(members: Members, key: Text) {
    members.Member? && (members.key == key || HasKey(members.rest, key))
  }

  /** No object has two members of one name. */
  predicate Valid(j: Json) {
    match j
    case Arr(items) => ValidItems(items)
    case Obj(members) => ValidMembers(members)
    case _ => true
  }

  predicate ValidItems(items: Items) {
    items.Item? ==> Valid(items.head) && ValidItems(items.tail)
  }

  predicate ValidMembers(members: Members) {
    members.Member? ==>
      Valid(members.value) && !HasKey(members.rest, members.key) && ValidMembers(members.rest)
  }

  // ---- Printing ---------------------------------------------------------------------------------

  const QUOTE: Unit := 34
  const COMMA: Unit := 44
  const MINUS: Unit := 45
  const ZERO: Unit := 48
  const COLON: Unit := 58
  const OPEN_BRACKET: Unit := 91
  const BACKSLASH: Unit := 92
  const CLOSE_BRACKET: Unit := 93
  const OPEN_BRACE: Unit := 123
  const CLOSE_BRACE: Unit := 125
  const NULL_TEXT: Text := [110, 117, 108, 108]
  const TRUE_TEXT: Text := [116, 114, 117, 101]
  const FALSE_TEXT: Text := [102, 97, 108, 115, 101]

  predicate Digit(u: Unit) { 48 <= u <= 57 }

  function Digits(n: nat): (t: Text)
    ensures |t| > 0 && Digit(t[0])
  {
    if n < 10 then [ZERO + n] else Digits(n / 10) + [ZERO + n % 10]
  }

  function HexDigit(d: nat): Unit
    requires d < 16
  {
    if d < 10 then 48 + d else 87 + d
  }

  predicate High(u: Unit) { 0xD800 <= u <= 0xDBFF }

  predicate Low(u: Unit) { 0xDC00 <= u <= 0xDFFF }

  function UnicodeEscape(u: Unit): Text {
    [BACKSLASH, 117, HexDigit(u / 0x1000), HexDigit(u / 0x100 % 16), HexDigit(u / 0x10 % 16), HexDigit(u % 16)]
  }

  /** The two programs that print: the Python one escapes every unit from 127 on. */
  datatype Style = TypeScript | Python

  predicate Kept(style: Style, u: Unit) {
    32 <= u && (style.TypeScript? || u < 127)
  }

  function EscapedUnit(style: Style, u: Unit): Text {
    if u == QUOTE || u == BACKSLASH then [BACKSLASH, u]
    else if u == 8 then [BACKSLASH, 98]
    else if u == 9 then [BACKSLASH, 116]
    else if u == 10 then [BACKSLASH, 110]
    else if u == 12 then [BACKSLASH, 102]
    else if u == 13 then [BACKSLASH, 114]
    else if !Kept(style, u) || High(u) || Low(u) then UnicodeEscape(u)
    else [u]
  }

  /** TypeScript keeps a surrogate pair; a surrogate on its own is always escaped. */
  predicate PairKept(style: Style, s: Text) {
    style.TypeScript? && |s| >= 2 && High(s[0]) && Low(s[1])
  }

  function Escaped(style: Style, s: Text): Text {
    if s == [] then []
    else if PairKept(style, s) then [s[0], s[1]] + Escaped(style, s[2..])
    else EscapedUnit(style, s[0]) + Escaped(style, s[1..])
  }

  function Quoted(style: Style, s: Text): Text {
    [QUOTE] + Escaped(style, s) + [QUOTE]
  }

  /** Strings are ordered by their code units. */
  predicate Less(a: Text, b: Text) {
    b != [] && (a == [] || a[0] < b[0] || (a[0] == b[0] && Less(a[1..], b[1..])))
  }

  function Size(j: Json): nat {
    match j
    case Arr(items) => 1 + ItemsSize(items)
    case Obj(members) => 1 + MembersSize(members)
    case _ => 1
  }

  function ItemsSize(items: Items): nat {
    match items
    case NoItems => 0
    case Item(head, tail) => 1 + Size(head) + ItemsSize(tail)
  }

  function MembersSize(members: Members): nat {
    match members
    case NoMembers => 0
    case Member(_, value, rest) => 1 + Size(value) + MembersSize(rest)
  }

  function Inserted(key: Text, value: Json, members: Members): (r: Members)
    ensures MembersSize(r) == 1 + Size(value) + MembersSize(members)
  {
    match members
    case NoMembers => Member(key, value, NoMembers)
    case Member(k, v, rest) =>
      if Less(k, key) then Member(k, v, Inserted(key, value, rest)) else Member(key, value, members)
  }

  function Sorted(members: Members): (r: Members)
    ensures MembersSize(r) == MembersSize(members)
  {
    match members
    case NoMembers => NoMembers
    case Member(key, value, rest) => Inserted(key, value, Sorted(rest))
  }

  function Printed(style: Style, j: Json): Text
    decreases Size(j)
  {
    match j
    case Null => NULL_TEXT
    case Bool(b) => if b then TRUE_TEXT else FALSE_TEXT
    case Num(n) => if n < 0 then [MINUS] + Digits(-n) else Digits(n)
    case Str(s) => Quoted(style, s)
    case Arr(items) => [OPEN_BRACKET] + JoinedItems(style, items) + [CLOSE_BRACKET]
    case Obj(members) => [OPEN_BRACE] + JoinedMembers(style, Sorted(members)) + [CLOSE_BRACE]
  }

  function JoinedItems(style: Style, items: Items): Text
    decreases ItemsSize(items)
  {
    match items
    case NoItems => []
    case Item(head, tail) =>
      Printed(style, head) + if tail.NoItems? then [] else [COMMA] + JoinedItems(style, tail)
  }

  function JoinedMembers(style: Style, members: Members): Text
    decreases MembersSize(members)
  {
    match members
    case NoMembers => []
    case Member(key, value, rest) =>
      Quoted(style, key) + [COLON] + Printed(style, value)
      + if rest.NoMembers? then [] else [COMMA] + JoinedMembers(style, rest)
  }

  // ---- Reading ----------------------------------------------------------------------------------

  datatype Parsed<+T> = Parsed(value: T, rest: Text)

  function ReadDigits(acc: nat, t: Text): (r: Parsed<nat>)
    ensures |r.rest| <= |t|
    decreases |t|
  {
    if t == [] || !Digit(t[0]) then Parsed(acc, t) else ReadDigits(10 * acc + (t[0] - ZERO), t[1..])
  }

  function HexValue(u: Unit): Option<nat> {
    if 48 <= u <= 57 then Some(u - 48) else if 97 <= u <= 102 then Some(u - 87) else None
  }

  /** The unit that an escape sequence stands for, and what follows it. */
  function ReadEscape(t: Text): (r: Option<Parsed<Unit>>)
    ensures r.Some? ==> |r.value.rest| < |t|
  {
    if t == [] then None
    else if t[0] == QUOTE || t[0] == BACKSLASH then Some(Parsed(t[0], t[1..]))
    else if t[0] == 98 then Some(Parsed(8, t[1..]))
    else if t[0] == 116 then Some(Parsed(9, t[1..]))
    else if t[0] == 110 then Some(Parsed(10, t[1..]))
    else if t[0] == 102 then Some(Parsed(12, t[1..]))
    else if t[0] == 114 then Some(Parsed(13, t[1..]))
    else if t[0] == 117 && |t| >= 5 then
      match (HexValue(t[1]), HexValue(t[2]), HexValue(t[3]), HexValue(t[4]))
      case (Some(a), Some(b), Some(c), Some(d)) =>
        var u := 0x1000 * a + 0x100 * b + 0x10 * c + d;
        if u < 0x10000 then Some(Parsed(u, t[5..])) else None
      case _ => None
    else None
  }

  function Prepend(u: Unit, r: Option<Parsed<Text>>): Option<Parsed<Text>> {
    if r.Some? then Some(Parsed([u] + r.value.value, r.value.rest)) else None
  }

  /** The rest of a string, behind its opening quote. */
  function ReadString(t: Text): (r: Option<Parsed<Text>>)
    ensures r.Some? ==> |r.value.rest| < |t|
    decreases |t|
  {
    if t == [] then None
    else if t[0] == QUOTE then Some(Parsed([], t[1..]))
    else if t[0] == BACKSLASH then
      var e := ReadEscape(t[1..]);
      if e.Some? then Prepend(e.value.value, ReadString(e.value.rest)) else None
    else Prepend(t[0], ReadString(t[1..]))
  }

  function Follows(word: Text, value: Value, t: Text): Option<Parsed<Value>> {
    if word <= t then Some(Parsed(value, t[|word|..])) else None
  }

  function ReadValue(t: Text): (r: Option<Parsed<Value>>)
    ensures r.Some? ==> |r.value.rest| < |t|
    decreases |t|, 1
  {
    if t == [] then None
    else if t[0] == QUOTE then
      var s := ReadString(t[1..]);
      if s.Some? then Some(Parsed(StrValue(s.value.value), s.value.rest)) else None
    else if t[0] == OPEN_BRACKET then
      if |t| > 1 && t[1] == CLOSE_BRACKET then Some(Parsed(ArrValue([]), t[2..]))
      else
        var items := ReadItems(t[1..]);
        if items.Some? then Some(Parsed(ArrValue(items.value.value), items.value.rest)) else None
    else if t[0] == OPEN_BRACE then
      if |t| > 1 && t[1] == CLOSE_BRACE then Some(Parsed(ObjValue(map[]), t[2..]))
      else
        var members := ReadMembers(t[1..]);
        if members.Some? then Some(Parsed(ObjValue(members.value.value), members.value.rest)) else None
    else if t[0] == MINUS then
      if |t| > 1 && Digit(t[1]) then
        var n := ReadDigits(0, t[1..]);
        var magnitude: int := n.value;
        Some(Parsed(NumValue(-magnitude), n.rest))
      else None
    else if Digit(t[0]) then
      var n := ReadDigits(t[0] - ZERO, t[1..]);
      Some(Parsed(NumValue(n.value), n.rest))
    else if t[0] == NULL_TEXT[0] then Follows(NULL_TEXT, NullValue, t)
    else if t[0] == TRUE_TEXT[0] then Follows(TRUE_TEXT, BoolValue(true), t)
    else Follows(FALSE_TEXT, BoolValue(false), t)
  }

  /** Elements up to and with the closing bracket. */
  function ReadItems(t: Text): (r: Option<Parsed<seq<Value>>>)
    ensures r.Some? ==> |r.value.rest| < |t|
    decreases |t|, 2
  {
    var head := ReadValue(t);
    if head.None? || head.value.rest == [] then None
    else if head.value.rest[0] == CLOSE_BRACKET then Some(Parsed([head.value.value], head.value.rest[1..]))
    else if head.value.rest[0] != COMMA then None
    else
      var tail := ReadItems(head.value.rest[1..]);
      if tail.Some? then Some(Parsed([head.value.value] + tail.value.value, tail.value.rest)) else None
  }

  /** Members up to and with the closing brace. */
  function ReadMembers(t: Text): (r: Option<Parsed<map<Text, Value>>>)
    ensures r.Some? ==> |r.value.rest| < |t|
    decreases |t|, 2
  {
    if t == [] || t[0] != QUOTE then None
    else
      var key := ReadString(t[1..]);
      if key.None? || key.value.rest == [] || key.value.rest[0] != COLON then None
      else
        var value := ReadValue(key.value.rest[1..]);
        if value.None? || value.value.rest == [] then None
        else if value.value.rest[0] == CLOSE_BRACE then
          Some(Parsed(map[key.value.value := value.value.value], value.value.rest[1..]))
        else if value.value.rest[0] != COMMA then None
        else
          var tail := ReadMembers(value.value.rest[1..]);
          if tail.Some?
          then Some(Parsed(tail.value.value[key.value.value := value.value.value], tail.value.rest)) else None
  }

  // ---- The reader undoes the printer --------------------------------------------------------------

  lemma {:induction false} DigitsRead(n: nat, rest: Text)
    ensures ReadDigits(0, Digits(n) + rest) == ReadDigits(n, rest)
    ensures var t := Digits(n) + rest; ReadDigits(t[0] - ZERO, t[1..]) == ReadDigits(n, rest)
  {
    if n < 10 {
      assert (Digits(n) + rest)[1..] == rest;
    } else {
      var d: Unit := ZERO + n % 10;
      assert Digits(n) + rest == Digits(n / 10) + ([d] + rest);
      DigitsRead(n / 10, [d] + rest);
      assert ([d] + rest)[1..] == rest;
    }
  }

  lemma HexDigitRead(d: nat)
    requires d < 16
    ensures HexValue(HexDigit(d)) == Some(d)
  {
  }

  lemma FourHexDigits(u: Unit)
    ensures u == 0x1000 * (u / 0x1000) + 0x100 * (u / 0x100 % 16) + 0x10 * (u / 0x10 % 16) + u % 16
    ensures u / 0x1000 < 16
  {
    var a, b := u / 0x10, u / 0x100;
    assert u == 0x10 * a + u % 16;
    assert a == 0x10 * (a / 16) + a % 16 && a / 16 == b;
    assert b == 0x10 * (b / 16) + b % 16 && b / 16 == u / 0x1000;
  }

  lemma HexRead(u: Unit, rest: Text)
    ensures UnicodeEscape(u) != [] && UnicodeEscape(u)[0] == BACKSLASH
    ensures ReadEscape(UnicodeEscape(u)[1..] + rest) == Some(Parsed(u, rest))
  {
    hide HexValue, HexDigit;
    FourHexDigits(u);
    HexDigitRead(u / 0x1000);
    HexDigitRead(u / 0x100 % 16);
    HexDigitRead(u / 0x10 % 16);
    HexDigitRead(u % 16);
    var t := UnicodeEscape(u)[1..] + rest;
    assert t[5..] == rest;
  }

  lemma UnitRead(style: Style, u: Unit, rest: Text)
    ensures ReadString(EscapedUnit(style, u) + rest) == Prepend(u, ReadString(rest))
  {
    hide ReadString, UnicodeEscape;
    var t := EscapedUnit(style, u) + rest;
    if EscapedUnit(style, u) == [u] {
      RawRead(u, rest);
    } else if EscapedUnit(style, u) == UnicodeEscape(u) {
      HexRead(u, rest);
      EscapeRead(UnicodeEscape(u), u, rest);
    } else {
      assert (EscapedUnit(style, u)[1..] + rest)[1..] == rest;
      EscapeRead(EscapedUnit(style, u), u, rest);
    }
  }

  lemma RawRead(u: Unit, rest: Text)
    requires u != QUOTE && u != BACKSLASH
    ensures ReadString([u] + rest) == Prepend(u, ReadString(rest))
  {
    assert ([u] + rest)[1..] == rest;
  }

  lemma EscapeRead(escape: Text, u: Unit, rest: Text)
    requires escape != [] && escape[0] == BACKSLASH && ReadEscape(escape[1..] + rest) == Some(Parsed(u, rest))
    ensures ReadString(escape + rest) == Prepend(u, ReadString(rest))
  {
    hide ReadEscape;
    assert (escape + rest)[1..] == escape[1..] + rest;
  }

  lemma {:induction false} StringRead(style: Style, s: Text, rest: Text)
    ensures ReadString(Escaped(style, s) + [QUOTE] + rest) == Some(Parsed(s, rest))
  {
    hide EscapedUnit, ReadEscape, ReadString;
    if s == [] {
      assert Escaped(style, s) + [QUOTE] + rest == [QUOTE] + rest;
      EndRead(rest);
    } else if PairKept(style, s) {
      var t := Escaped(style, s[2..]) + [QUOTE] + rest;
      StringRead(style, s[2..], rest);
      assert Escaped(style, s) + [QUOTE] + rest == [s[0], s[1]] + t;
      PairRead(s[0], s[1], t);
      assert s == [s[0]] + ([s[1]] + s[2..]);
    } else {
      var t := Escaped(style, s[1..]) + [QUOTE] + rest;
      StringRead(style, s[1..], rest);
      UnitRead(style, s[0], t);
      assert Escaped(style, s) + [QUOTE] + rest == EscapedUnit(style, s[0]) + t;
      assert s == [s[0]] + s[1..];
    }
  }

  lemma EndRead(rest: Text)
    ensures ReadString([QUOTE] + rest) == Some(Parsed([], rest))
  {
    assert ([QUOTE] + rest)[1..] == rest;
  }

  lemma PairRead(high: Unit, low: Unit, t: Text)
    requires High(high) && Low(low)
    ensures ReadString([high, low] + t) == Prepend(high, Prepend(low, ReadString(t)))
  {
    assert ([high, low] + t)[1..] == [low] + t && ([low] + t)[1..] == t;
  }

  // ---- Sorting members ----------------------------------------------------------------------------

  lemma {:induction false} LessTotal(a: Text, b: Text)
    ensures Less(a, b) || a == b || Less(b, a)
    ensures Less(a, b) ==> !Less(b, a) && a != b
  {
    if a != [] && b != [] && a[0] == b[0] {
      LessTotal(a[1..], b[1..]);
      assert a == [a[0]] + a[1..] && b == [b[0]] + b[1..];
    }
  }

  lemma {:induction false} LessTransitive(a: Text, b: Text, c: Text)
    requires Less(a, b) && Less(b, c)
    ensures Less(a, c)
  {
    if a != [] && a[0] == b[0] && b[0] == c[0] {
      LessTransitive(a[1..], b[1..], c[1..]);
    }
  }

  /** Every key comes after `key`. */
  predicate Above(key: Text, members: Members) {
    members.Member? ==> Less(key, members.key) && Above(key, members.rest)
  }

  predicate Ascending(members: Members) {
    members.Member? ==> Above(members.key, members.rest) && Ascending(members.rest)
  }

  lemma {:induction false} AboveTransitive(a: Text, b: Text, members: Members)
    requires Less(a, b) && Above(b, members)
    ensures Above(a, members)
  {
    if members.Member? {
      LessTransitive(a, b, members.key);
      AboveTransitive(a, b, members.rest);
    }
  }

  /** Inserting a new key keeps the order and means an added entry. */
  lemma {:induction false} InsertedMeans(key: Text, value: Json, members: Members)
    requires Ascending(members) && ValidMembers(members) && Valid(value) && !HasKey(members, key)
    ensures var r := Inserted(key, value, members);
            && Ascending(r) && ValidMembers(r)
            && MembersMeaning(r) == MembersMeaning(members)[key := Meaning(value)]
            && (forall k :: HasKey(r, k) <==> k == key || HasKey(members, k))
            && (forall k :: Above(k, members) && Less(k, key) ==> Above(k, r))
  {
    match members {
      case NoMembers =>
      case Member(k, v, rest) =>
        LessTotal(k, key);
        if Less(k, key) {
          InsertedMeans(key, value, rest);
          assert MembersMeaning(rest)[key := Meaning(value)][k := Meaning(v)]
              == MembersMeaning(rest)[k := Meaning(v)][key := Meaning(value)];
        } else {
          AboveTransitive(key, k, rest);
        }
    }
  }

  lemma {:induction false} SortedMeans(members: Members)
    requires ValidMembers(members)
    ensures Ascending(Sorted(members)) && ValidMembers(Sorted(members))
    ensures MembersMeaning(Sorted(members)) == MembersMeaning(members)
    ensures forall k :: HasKey(Sorted(members), k) <==> HasKey(members, k)
  {
    if members.Member? {
      SortedMeans(members.rest);
      InsertedMeans(members.key, members.value, Sorted(members.rest));
    }
  }

  function KeysOf(members: Members): seq<Text> {
    match members
    case NoMembers => []
    case Member(key, _, rest) => [key] + KeysOf(rest)
  }

  /** At the first difference of two keys the earlier one ends, or has the smaller code unit. */
  predicate PrecedesAt(a: Text, b: Text, n: nat) {
    n <= |a| && n < |b| && a[..n] == b[..n] && (n < |a| ==> a[n] < b[n])
  }

  ghost predicate Precedes(a: Text, b: Text) {
    exists n :: PrecedesAt(a, b, n)
  }

  lemma {:induction false} LessByUnits(a: Text, b: Text) returns (n: nat)
    requires Less(a, b)
    ensures PrecedesAt(a, b, n)
  {
    if a == [] || a[0] != b[0] {
      n := 0;
    } else {
      var m := LessByUnits(a[1..], b[1..]);
      n := m + 1;
      assert a[..n] == [a[0]] + a[1..][..m] && b[..n] == [b[0]] + b[1..][..m];
    }
  }

  lemma {:induction false} AboveByUnits(key: Text, members: Members)
    requires Above(key, members)
    ensures forall k :: k in KeysOf(members) ==> Precedes(key, k)
  {
    if members.Member? {
      var n := LessByUnits(key, members.key);
      assert PrecedesAt(key, members.key, n);
      AboveByUnits(key, members.rest);
    }
  }

  lemma {:induction false} AscendingByUnits(members: Members)
    requires Ascending(members)
    ensures forall i, j :: 0 <= i < j < |KeysOf(members)| ==> Precedes(KeysOf(members)[i], KeysOf(members)[j])
  {
    if members.Member? {
      AscendingByUnits(members.rest);
      AboveByUnits(members.key, members.rest);
      var keys, rest := KeysOf(members), KeysOf(members.rest);
      forall i, j | 0 <= i < j < |keys|
        ensures Precedes(keys[i], keys[j])
      {
        assert keys[j] == rest[j - 1];
        assert i > 0 ==> keys[i] == rest[i - 1];
      }
    }
  }

  /** The members are sorted by the code units of their keys. */
  lemma SortedByCodeUnits(members: Members)
    requires ValidMembers(members)
    ensures var keys := KeysOf(Sorted(members)); forall i, j :: 0 <= i < j < |keys| ==> Precedes(keys[i], keys[j])
  {
    SortedMeans(members);
    AscendingByUnits(Sorted(members));
  }

  // ---- The spelling -----------------------------------------------------------------------------

  /** The characters and words of the grammar. */
  lemma Spelled()
    ensures QUOTE == '"' as int && COMMA == ',' as int && MINUS == '-' as int && ZERO == '0' as int
    ensures COLON == ':' as int && BACKSLASH == '\\' as int
    ensures OPEN_BRACKET == '[' as int && CLOSE_BRACKET == ']' as int
    ensures OPEN_BRACE == '{' as int && CLOSE_BRACE == '}' as int
    ensures NULL_TEXT == ['n' as int, 'u' as int, 'l' as int, 'l' as int]
    ensures TRUE_TEXT == ['t' as int, 'r' as int, 'u' as int, 'e' as int]
    ensures FALSE_TEXT == ['f' as int, 'a' as int, 'l' as int, 's' as int, 'e' as int]
  {
  }

  /** A unit is escaped only if it must be, and then as shortly as the grammar allows. */
  lemma EscapesAreShort(style: Style, u: Unit)
    ensures |EscapedUnit(style, u)|
            == (if u in {8, 9, 10, 12, 13, 34, 92} then 2
                else if u < 32 || 0xD800 <= u <= 0xDFFF || (style.Python? && u >= 127) then 6
                else 1)
    ensures |EscapedUnit(style, u)| == 1 ==> EscapedUnit(style, u)[0] == u
    ensures |EscapedUnit(style, u)| > 1 ==>
              EscapedUnit(style, u)[0] == BACKSLASH
              && ReadEscape(EscapedUnit(style, u)[1..]) == Some(Parsed(u, []))
  {
    if |EscapedUnit(style, u)| == 6 {
      HexRead(u, []);
      assert UnicodeEscape(u)[1..] + [] == UnicodeEscape(u)[1..];
    }
  }

  /** TypeScript writes a surrogate pair as it is, Python never does. */
  lemma PairsAreKept(high: Unit, low: Unit, s: Text)
    requires 0xD800 <= high <= 0xDBFF && 0xDC00 <= low <= 0xDFFF
    ensures Escaped(TypeScript, [high, low] + s) == [high, low] + Escaped(TypeScript, s)
    ensures Escaped(Python, [high, low] + s)
            == UnicodeEscape(high) + (UnicodeEscape(low) + Escaped(Python, s))
  {
    var t := [high, low] + s;
    assert t[2..] == s && t[1..] == [low] + s && ([low] + s)[1..] == s;
  }

  /** No number begins with a zero but zero itself. */
  lemma {:induction false} NoLeadingZero(n: nat)
    ensures Digits(n)[0] == '0' as int <==> n == 0
    ensures n < 10 ==> |Digits(n)| == 1
  {
    if n >= 10 {
      NoLeadingZero(n / 10);
    }
  }

  // ---- The round trip -------------------------------------------------------------------------------

  predicate Separated(rest: Text) {
    rest == [] || !Digit(rest[0])
  }

  /** Reading a printed value gives what it means, and leaves what follows it. */
  lemma {:induction false} PrintedValueRead(style: Style, j: Json, rest: Text)
    requires Valid(j) && Separated(rest)
    ensures ReadValue(Printed(style, j) + rest) == Some(Parsed(Meaning(j), rest))
    ensures Printed(style, j) != [] && Printed(style, j)[0] != CLOSE_BRACKET
    decreases Size(j), 1
  {
    hide ReadValue, Printed;
    match j {
      case Arr(items) =>
        if items.Item? {
          PrintedItemsRead(style, items, rest);
        }
        ArrayRead(style, items, rest);
      case Obj(members) =>
        SortedMeans(members);
        if Sorted(members).Member? {
          PrintedMembersRead(style, Sorted(members), rest);
        }
        ObjectRead(style, members, rest);
      case _ => PrintedScalarRead(style, j, rest);
    }
  }

  lemma ArrayRead(style: Style, items: Items, rest: Text)
    requires items.Item? ==>
               && ReadItems(JoinedItems(style, items) + [CLOSE_BRACKET] + rest)
                  == Some(Parsed(ItemsMeaning(items), rest))
               && JoinedItems(style, items) != [] && JoinedItems(style, items)[0] != CLOSE_BRACKET
    ensures ReadValue(Printed(style, Arr(items)) + rest) == Some(Parsed(Meaning(Arr(items)), rest))
    ensures Printed(style, Arr(items)) != [] && Printed(style, Arr(items))[0] != CLOSE_BRACKET
  {
    hide ReadDigits, ReadString, ReadItems, ReadMembers, JoinedItems;
    var t := Printed(style, Arr(items)) + rest;
    if items.NoItems? {
      NothingJoined(style);
      assert t[2..] == rest;
    } else {
      assert t[1..] == JoinedItems(style, items) + [CLOSE_BRACKET] + rest;
      assert t[1] == JoinedItems(style, items)[0];
    }
  }

  lemma ObjectRead(style: Style, members: Members, rest: Text)
    requires MembersMeaning(Sorted(members)) == MembersMeaning(members)
    requires Sorted(members).Member? ==>
               && ReadMembers(JoinedMembers(style, Sorted(members)) + [CLOSE_BRACE] + rest)
                  == Some(Parsed(MembersMeaning(Sorted(members)), rest))
               && JoinedMembers(style, Sorted(members)) != [] && JoinedMembers(style, Sorted(members))[0] != CLOSE_BRACE
    ensures ReadValue(Printed(style, Obj(members)) + rest) == Some(Parsed(Meaning(Obj(members)), rest))
    ensures Printed(style, Obj(members)) != [] && Printed(style, Obj(members))[0] != CLOSE_BRACKET
  {
    hide ReadDigits, ReadString, ReadItems, ReadMembers, JoinedMembers, Sorted;
    var t, sorted := Printed(style, Obj(members)) + rest, Sorted(members);
    if sorted.NoMembers? {
      NothingJoined(style);
      assert t[2..] == rest;
    } else {
      assert t[1..] == JoinedMembers(style, sorted) + [CLOSE_BRACE] + rest;
      assert t[1] == JoinedMembers(style, sorted)[0];
    }
  }

  lemma NothingJoined(style: Style)
    ensures JoinedItems(style, NoItems) == [] && JoinedMembers(style, NoMembers) == []
  {
  }

  lemma PrintedScalarRead(style: Style, j: Json, rest: Text)
    requires !j.Arr? && !j.Obj? && Separated(rest)
    ensures ReadValue(Printed(style, j) + rest) == Some(Parsed(Meaning(j), rest))
    ensures Printed(style, j) != [] && Printed(style, j)[0] != CLOSE_BRACKET
  {
    hide ReadString, ReadItems, ReadMembers, Escaped, JoinedItems, JoinedMembers, Sorted;
    var t := Printed(style, j) + rest;
    match j {
      case Null => assert t[4..] == rest;
      case Bool(b) => assert t[if b then 4 else 5..] == rest;
      case Num(n) => NumberRead(style, n, rest);
      case Str(s) =>
        assert t[1..] == Escaped(style, s) + [QUOTE] + rest;
        StringRead(style, s, rest);
    }
  }

  lemma NumberRead(style: Style, n: int, rest: Text)
    requires Separated(rest)
    ensures ReadValue(Printed(style, Num(n)) + rest) == Some(Parsed(NumValue(n), rest))
  {
    hide Digits;
    var t := Printed(style, Num(n)) + rest;
    if n < 0 {
      assert t[1..] == Digits(-n) + rest;
      DigitsRead(-n, rest);
    } else {
      DigitsRead(n, rest);
    }
  }

  lemma {:induction false} PrintedItemsRead(style: Style, items: Items, rest: Text)
    requires items.Item? && ValidItems(items)
    ensures ReadItems(JoinedItems(style, items) + [CLOSE_BRACKET] + rest) == Some(Parsed(ItemsMeaning(items), rest))
    ensures JoinedItems(style, items) != [] && JoinedItems(style, items)[0] != CLOSE_BRACKET
    decreases ItemsSize(items), 0
  {
    hide ReadValue, Printed;
    var t := JoinedItems(style, items) + [CLOSE_BRACKET] + rest;
    if items.tail.NoItems? {
      PrintedValueRead(style, items.head, [CLOSE_BRACKET] + rest);
      assert t == Printed(style, items.head) + ([CLOSE_BRACKET] + rest);
      assert ([CLOSE_BRACKET] + rest)[1..] == rest;
      assert ItemsMeaning(items) == [Meaning(items.head)];
    } else {
      var more := JoinedItems(style, items.tail) + [CLOSE_BRACKET] + rest;
      PrintedItemsRead(style, items.tail, rest);
      PrintedValueRead(style, items.head, [COMMA] + more);
      assert t == Printed(style, items.head) + ([COMMA] + more);
      assert ([COMMA] + more)[1..] == more;
    }
  }

  lemma {:induction false} PrintedMembersRead(style: Style, members: Members, rest: Text)
    requires members.Member? && ValidMembers(members)
    ensures ReadMembers(JoinedMembers(style, members) + [CLOSE_BRACE] + rest)
            == Some(Parsed(MembersMeaning(members), rest))
    ensures JoinedMembers(style, members) != [] && JoinedMembers(style, members)[0] != CLOSE_BRACE
    decreases MembersSize(members), 0
  {
    hide ReadValue, Printed, Quoted, ReadString, Meaning;
    var t := JoinedMembers(style, members) + [CLOSE_BRACE] + rest;
    var key, value := members.key, Printed(style, members.value);
    if members.rest.NoMembers? {
      var after := [CLOSE_BRACE] + rest;
      PrintedValueRead(style, members.value, after);
      assert after[1..] == rest;
      MemberRead(style, key, value, after, t);
    } else {
      var more := JoinedMembers(style, members.rest) + [CLOSE_BRACE] + rest;
      var after := [COMMA] + more;
      PrintedMembersRead(style, members.rest, rest);
      PrintedValueRead(style, members.value, after);
      assert after[1..] == more;
      MemberRead(style, key, value, after, t);
    }
  }

  /** The key of the first member is read, and its value comes next. */
  lemma MemberRead(style: Style, key: Text, value: Text, after: Text, t: Text)
    requires t == Quoted(style, key) + [COLON] + value + after
    ensures t != [] && t[0] == QUOTE && ReadString(t[1..]) == Some(Parsed(key, [COLON] + (value + after)))
    ensures ([COLON] + (value + after))[1..] == value + after
  {
    hide ReadString, Escaped;
    StringRead(style, key, [COLON] + (value + after));
    assert t[1..] == Escaped(style, key) + [QUOTE] + ([COLON] + (value + after));
  }

  // ---- One text for one meaning -----------------------------------------------------------------------

  lemma {:induction false} MeansKeys(members: Members)
    ensures forall k :: k in MembersMeaning(members) <==> HasKey(members, k)
  {
    if members.Member? {
      MeansKeys(members.rest);
    }
  }

  lemma {:induction false} AboveMeans(key: Text, members: Members)
    requires Above(key, members)
    ensures forall k :: HasKey(members, k) ==> Less(key, k)
    ensures !HasKey(members, key)
  {
    LessTotal(key, key);
    if members.Member? {
      AboveMeans(key, members.rest);
    }
  }

  /** Values of one meaning have one text. */
  lemma {:induction false} OneMeaningOneText(style: Style, a: Json, b: Json)
    requires Valid(a) && Valid(b) && Meaning(a) == Meaning(b)
    ensures Printed(style, a) == Printed(style, b)
    decreases Size(a), 1
  {
    match a {
      case Arr(items) => OneMeaningOneJoin(style, items, b.items);
      case Obj(members) =>
        SortedMeans(members);
        SortedMeans(b.members);
        OneMapOneJoin(style, Sorted(members), Sorted(b.members));
      case _ =>
    }
  }

  lemma {:induction false} OneMeaningOneJoin(style: Style, a: Items, b: Items)
    requires ValidItems(a) && ValidItems(b) && ItemsMeaning(a) == ItemsMeaning(b)
    ensures JoinedItems(style, a) == JoinedItems(style, b)
    decreases ItemsSize(a), 0
  {
    if a.Item? {
      assert ItemsMeaning(a)[0] == Meaning(a.head) && ItemsMeaning(a)[1..] == ItemsMeaning(a.tail);
      assert ItemsMeaning(b)[0] == Meaning(b.head) && ItemsMeaning(b)[1..] == ItemsMeaning(b.tail);
      OneMeaningOneText(style, a.head, b.head);
      OneMeaningOneJoin(style, a.tail, b.tail);
    }
  }

  lemma {:induction false} OneMapOneJoin(style: Style, a: Members, b: Members)
    requires ValidMembers(a) && ValidMembers(b) && Ascending(a) && Ascending(b)
    requires MembersMeaning(a) == MembersMeaning(b)
    ensures JoinedMembers(style, a) == JoinedMembers(style, b)
    decreases MembersSize(a), 0
  {
    MeansKeys(a);
    MeansKeys(b);
    if a.Member? {
      assert HasKey(a, a.key) && HasKey(b, a.key);
      SameHead(a, b);
      OneMeaningOneText(style, a.value, b.value);
      OneMapOneJoin(style, a.rest, b.rest);
    } else if b.Member? {
      assert HasKey(b, b.key);
    }
  }

  /** Ascending members of one meaning begin alike. */
  lemma SameHead(a: Members, b: Members)
    requires a.Member? && b.Member? && Ascending(a) && Ascending(b) && MembersMeaning(a) == MembersMeaning(b)
    ensures a.key == b.key && Meaning(a.value) == Meaning(b.value)
    ensures MembersMeaning(a.rest) == MembersMeaning(b.rest)
  {
    MeansKeys(a);
    MeansKeys(b);
    MeansKeys(a.rest);
    MeansKeys(b.rest);
    AboveMeans(a.key, a.rest);
    AboveMeans(b.key, b.rest);
    LessTotal(a.key, b.key);
    assert HasKey(a, a.key) && HasKey(b, b.key);
    assert MembersMeaning(a.rest) == MembersMeaning(a) - {a.key};
    assert MembersMeaning(b.rest) == MembersMeaning(b) - {b.key};
  }

  /** The canonical text of the TypeScript contracts and of the console. */
  function CanonicalJson(j: Json): Text {
    Printed(TypeScript, j)
  }

  /** Two values have the same canonical text exactly when they are equal but for the order of
      their objects' members. */
  lemma CanonicalTextDecides(style: Style, a: Json, b: Json)
    requires Valid(a) && Valid(b)
    ensures Printed(style, a) == Printed(style, b) <==> Meaning(a) == Meaning(b)
  {
    if Printed(style, a) == Printed(style, b) {
      PrintedValueRead(style, a, []);
      PrintedValueRead(style, b, []);
    } else if Meaning(a) == Meaning(b) {
      OneMeaningOneText(style, a, b);
    }
  }

  // ---- The text can be encoded --------------------------------------------------------------------

  /** Surrogates stand in pairs only, so that UTF-8 can encode the text without loss. */
  predicate Paired(t: Text) {
    t == []
    || (|t| >= 2 && High(t[0]) && Low(t[1]) && Paired(t[2..]))
    || (!High(t[0]) && !Low(t[0]) && Paired(t[1..]))
  }

  lemma {:induction false} PairedTogether(a: Text, b: Text)
    requires Paired(a) && Paired(b)
    ensures Paired(a + b)
  {
    if a == [] {
      assert a + b == b;
    } else if |a| >= 2 && High(a[0]) && Low(a[1]) {
      PairedTogether(a[2..], b);
      assert (a + b)[2..] == a[2..] + b;
    } else {
      PairedTogether(a[1..], b);
      assert (a + b)[1..] == a[1..] + b;
    }
  }

  predicate Plain(t: Text) {
    forall i :: 0 <= i < |t| ==> !High(t[i]) && !Low(t[i])
  }

  lemma {:induction false} PlainIsPaired(t: Text)
    requires Plain(t)
    ensures Paired(t)
  {
    if t != [] {
      PlainIsPaired(t[1..]);
    }
  }

  lemma {:induction false} DigitsPlain(n: nat)
    ensures Plain(Digits(n))
  {
    if n >= 10 {
      DigitsPlain(n / 10);
    }
  }

  /** Whatever the string, its printed form has surrogates in pairs only. */
  lemma {:induction false} EscapedPaired(style: Style, s: Text)
    ensures Paired(Escaped(style, s))
  {
    if s == [] {
    } else if PairKept(style, s) {
      EscapedPaired(style, s[2..]);
      assert ([s[0], s[1]] + Escaped(style, s[2..]))[2..] == Escaped(style, s[2..]);
    } else {
      EscapedPaired(style, s[1..]);
      PlainIsPaired(EscapedUnit(style, s[0]));
      PairedTogether(EscapedUnit(style, s[0]), Escaped(style, s[1..]));
    }
  }

  lemma QuotedPaired(style: Style, s: Text)
    ensures Paired(Quoted(style, s))
  {
    hide Escaped;
    EscapedPaired(style, s);
    PlainIsPaired([QUOTE]);
    PairedTogether([QUOTE], Escaped(style, s));
    PairedTogether([QUOTE] + Escaped(style, s), [QUOTE]);
  }

  lemma Bracketed(open: Unit, t: Text, close: Unit)
    requires Paired(t) && Plain([open, close])
    ensures Paired([open] + t + [close])
  {
    assert !High([open, close][0]) && !High([open, close][1]) && !Low([open, close][0]) && !Low([open, close][1]);
    PlainIsPaired([open]);
    PlainIsPaired([close]);
    PairedTogether([open], t);
    PairedTogether([open] + t, [close]);
  }

  lemma {:induction false} TextPaired(style: Style, j: Json)
    ensures Paired(Printed(style, j))
    decreases Size(j), 1
  {
    hide Paired, Escaped, Digits;
    match j {
      case Null => PlainIsPaired(NULL_TEXT);
      case Bool(b) => PlainIsPaired(if b then TRUE_TEXT else FALSE_TEXT);
      case Num(n) =>
        DigitsPlain(if n < 0 then -n else n);
        PlainIsPaired(Printed(style, j));
      case Str(s) => QuotedPaired(style, s);
      case Arr(items) =>
        ItemsPaired(style, items);
        Bracketed(OPEN_BRACKET, JoinedItems(style, items), CLOSE_BRACKET);
      case Obj(members) =>
        MembersPaired(style, Sorted(members));
        Bracketed(OPEN_BRACE, JoinedMembers(style, Sorted(members)), CLOSE_BRACE);
    }
  }

  lemma {:induction false} ItemsPaired(style: Style, items: Items)
    ensures Paired(JoinedItems(style, items))
    decreases ItemsSize(items), 0
  {
    hide Printed;
    PlainIsPaired([COMMA]);
    if items.Item? {
      TextPaired(style, items.head);
      ItemsPaired(style, items.tail);
      PairedTogether([COMMA], JoinedItems(style, items.tail));
      PairedTogether(Printed(style, items.head),
                     if items.tail.NoItems? then [] else [COMMA] + JoinedItems(style, items.tail));
    }
  }

  lemma {:induction false} MembersPaired(style: Style, members: Members)
    ensures Paired(JoinedMembers(style, members))
    decreases MembersSize(members), 0
  {
    hide Printed, Quoted;
    PlainIsPaired([COMMA]);
    PlainIsPaired([COLON]);
    if members.Member? {
      var value := Printed(style, members.value);
      QuotedPaired(style, members.key);
      TextPaired(style, members.value);
      MembersPaired(style, members.rest);
      PairedTogether([COMMA], JoinedMembers(style, members.rest));
      PairedTogether(Quoted(style, members.key), [COLON]);
      PairedTogether(Quoted(style, members.key) + [COLON], value);
      PairedTogether(Quoted(style, members.key) + [COLON] + value,
                     if members.rest.NoMembers? then [] else [COMMA] + JoinedMembers(style, members.rest));
    }
  }

  // ---- The two programs ------------------------------------------------------------------------------

  /** No unit from 127 on. */
  predicate Ascii(t: Text) {
    forall i :: 0 <= i < |t| ==> t[i] < 127
  }

  lemma AsciiTogether(a: Text, b: Text)
    ensures Ascii(a + b) <==> Ascii(a) && Ascii(b)
  {
    if Ascii(a + b) {
      assert forall i :: 0 <= i < |a| ==> (a + b)[i] == a[i];
      assert forall i :: 0 <= i < |b| ==> (a + b)[|a| + i] == b[i];
    }
  }

  /** A string printed by Python is ASCII, and is TypeScript's text if that is ASCII too. */
  lemma {:induction false} EscapedStyles(s: Text)
    ensures Ascii(Escaped(Python, s))
    ensures Ascii(Escaped(TypeScript, s)) ==> Escaped(TypeScript, s) == Escaped(Python, s)
  {
    if s != [] {
      EscapedStyles(s[1..]);
      AsciiTogether(EscapedUnit(Python, s[0]), Escaped(Python, s[1..]));
      if PairKept(TypeScript, s) {
        assert Escaped(TypeScript, s)[0] == s[0];
      } else {
        AsciiTogether(EscapedUnit(TypeScript, s[0]), Escaped(TypeScript, s[1..]));
        assert Kept(TypeScript, s[0]) && !Kept(Python, s[0]) ==>
          EscapedUnit(TypeScript, s[0]) == [s[0]] || High(s[0]) || Low(s[0]);
        assert EscapedUnit(TypeScript, s[0]) == [s[0]] && s[0] >= 127 ==> !Ascii([s[0]]) by {
          assert [s[0]][0] == s[0];
        }
      }
    }
  }

  lemma QuotedStyles(s: Text)
    ensures Ascii(Quoted(Python, s))
    ensures Ascii(Quoted(TypeScript, s)) ==> Quoted(TypeScript, s) == Quoted(Python, s)
  {
    hide Escaped, Ascii;
    EscapedStyles(s);
    QuotedAscii(Python, s);
    QuotedAscii(TypeScript, s);
  }

  lemma QuotedAscii(style: Style, s: Text)
    ensures Ascii(Quoted(style, s)) <==> Ascii(Escaped(style, s))
  {
    hide Escaped;
    AsciiTogether([QUOTE] + Escaped(style, s), [QUOTE]);
    AsciiTogether([QUOTE], Escaped(style, s));
  }

  lemma {:induction false} PrintedStyles(j: Json)
    ensures Ascii(Printed(Python, j))
    ensures Ascii(Printed(TypeScript, j)) ==> Printed(TypeScript, j) == Printed(Python, j)
    decreases Size(j), 1
  {
    match j {
      case Num(n) => DigitsAscii(if n < 0 then -n else n);
      case Str(s) => QuotedStyles(s);
      case Arr(items) =>
        ItemsStyles(items);
        Enclosed(OPEN_BRACKET, JoinedItems(Python, items), CLOSE_BRACKET);
        Enclosed(OPEN_BRACKET, JoinedItems(TypeScript, items), CLOSE_BRACKET);
      case Obj(members) =>
        MembersStyles(Sorted(members));
        Enclosed(OPEN_BRACE, JoinedMembers(Python, Sorted(members)), CLOSE_BRACE);
        Enclosed(OPEN_BRACE, JoinedMembers(TypeScript, Sorted(members)), CLOSE_BRACE);
      case _ =>
    }
  }

  lemma {:induction false} DigitsAscii(n: nat)
    ensures Ascii(Digits(n)) && Ascii([MINUS] + Digits(n))
  {
    if n >= 10 {
      DigitsAscii(n / 10);
    }
  }

  lemma Enclosed(open: Unit, t: Text, close: Unit)
    requires open < 127 && close < 127
    ensures Ascii([open] + t + [close]) <==> Ascii(t)
  {
    AsciiTogether([open], t);
    AsciiTogether([open] + t, [close]);
  }

  lemma {:induction false} ItemsStyles(items: Items)
    ensures Ascii(JoinedItems(Python, items))
    ensures Ascii(JoinedItems(TypeScript, items)) ==> JoinedItems(TypeScript, items) == JoinedItems(Python, items)
    decreases ItemsSize(items), 0
  {
    hide Printed, Ascii;
    if items.Item? {
      PrintedStyles(items.head);
      ItemsStyles(items.tail);
      JoinedItemsAscii(Python, items);
      JoinedItemsAscii(TypeScript, items);
    } else {
      NothingAscii();
    }
  }

  lemma NothingAscii()
    ensures Ascii([])
  {
  }

  lemma JoinedItemsAscii(style: Style, items: Items)
    requires items.Item?
    ensures Ascii(JoinedItems(style, items))
            <==> Ascii(Printed(style, items.head)) && Ascii(JoinedItems(style, items.tail))
  {
    hide Printed;
    var more := JoinedItems(style, items.tail);
    AsciiTogether([COMMA], more);
    AsciiTogether(Printed(style, items.head), if items.tail.NoItems? then [] else [COMMA] + more);
  }

  lemma {:induction false} MembersStyles(members: Members)
    ensures Ascii(JoinedMembers(Python, members))
    ensures Ascii(JoinedMembers(TypeScript, members)) ==>
              JoinedMembers(TypeScript, members) == JoinedMembers(Python, members)
    decreases MembersSize(members), 0
  {
    hide Printed, Quoted, Ascii;
    if members.Member? {
      QuotedStyles(members.key);
      PrintedStyles(members.value);
      MembersStyles(members.rest);
      JoinedMembersAscii(Python, members);
      JoinedMembersAscii(TypeScript, members);
    } else {
      NothingAscii();
    }
  }

  lemma JoinedMembersAscii(style: Style, members: Members)
    requires members.Member?
    ensures Ascii(JoinedMembers(style, members))
            <==> Ascii(Quoted(style, members.key)) && Ascii(Printed(style, members.value))
                 && Ascii(JoinedMembers(style, members.rest))
  {
    hide Printed, Quoted;
    var key, value := Quoted(style, members.key), Printed(style, members.value);
    var more := JoinedMembers(style, members.rest);
    AsciiTogether(key, [COLON]);
    AsciiTogether(key + [COLON], value);
    AsciiTogether([COMMA], more);
    AsciiTogether(key + [COLON] + value, if members.rest.NoMembers? then [] else [COMMA] + more);
  }

  /** The two programs print a value alike exactly when TypeScript's text is ASCII. */
  lemma StylesAgree(j: Json)
    ensures Printed(Python, j) == CanonicalJson(j) <==> Ascii(CanonicalJson(j))
  {
    PrintedStyles(j);
  }
}
