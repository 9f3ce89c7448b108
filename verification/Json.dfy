/** JSON trees over UTF-16 text: what the Java client writes, and what it reads back. */
module Json {
  import opened Seqs

  /** One UTF-16 code unit. */
  type Unit = u: nat | u < 0x1_0000
  type Text = seq<Unit>

  /** A number is its token; an object keeps its members in order. */
  datatype Tree =
    | Null
    | Bool(b: bool)
    | Number(token: Text)
    | Str(text: Text)
    | Arr(items: seq<Tree>)
    | Obj(members: seq<Member>)

  datatype Member = Member(key: Text, value: Tree)

  function U(c: char): Unit
    requires c as int < 0x1_0000
  {
    c as int
  }

  const QUOTE: Unit := 0x22
  const BACKSLASH: Unit := 0x5c
  const COMMA: Unit := 0x2c
  const COLON: Unit := 0x3a
  const OPEN_ARR: Unit := 0x5b
  const CLOSE_ARR: Unit := 0x5d
  const OPEN_OBJ: Unit := 0x7b
  const CLOSE_OBJ: Unit := 0x7d

  const TRUE: Text := [0x74, 0x72, 0x75, 0x65]
  const FALSE: Text := [0x66, 0x61, 0x6c, 0x73, 0x65]
  const NULL: Text := [0x6e, 0x75, 0x6c, 0x6c]

  /** What Java counts as whitespace: separators other than no-break spaces, and the control separators. */
  predicate JavaSpace(u: Unit) {
    || 0x09 <= u <= 0x0d || 0x1c <= u <= 0x20 || u == 0x1680 || 0x2000 <= u <= 0x2006
    || 0x2008 <= u <= 0x200a || u == 0x2028 || u == 0x2029 || u == 0x205f || u == 0x3000
  }

  predicate IsDigit(u: Unit) { 0x30 <= u <= 0x39 }

  predicate IsSign(u: Unit) { u == 0x2b || u == 0x2d }

  /** The units a number token is made of. */
  predicate IsNumeric(u: Unit) { IsDigit(u) || IsSign(u) || u == 0x2e || u == 0x65 || u == 0x45 }

  // ---------------------------------------------------------------- number tokens

  function DigitsEnd(t: Text, i: nat): (j: nat)
    requires i <= |t|
    ensures i <= j <= |t|
    decreases |t| - i
  {
    if i < |t| && IsDigit(t[i]) then DigitsEnd(t, i + 1) else i
  }

  function SignEnd(t: Text, i: nat): (j: nat)
    requires i <= |t|
    ensures i <= j <= |t|
  {
    if i < |t| && IsSign(t[i]) then i + 1 else i
  }

  /** Where the mantissa that starts at `i` ends, if it has a digit at all. */
  function MantissaEnd(t: Text, i: nat): (r: Option<nat>)
    requires i <= |t|
    ensures r.Some? ==> i < r.value <= |t|
  {
    var a := DigitsEnd(t, i);
    var b := if a < |t| && t[a] == 0x2e then DigitsEnd(t, a + 1) else a;
    var point := if a < |t| && t[a] == 0x2e then 1 else 0;
    if b - i - point == 0 then None else Some(b)
  }

  /** Whether the token goes on from `b` with an exponent. */
  predicate ExponentFrom(t: Text, b: nat) {
    b < |t| && (t[b] == 0x65 || t[b] == 0x45) && var x := SignEnd(t, b + 1); x < |t| && DigitsEnd(t, x) == |t|
  }

  /** The tokens over the numeric units that stand for a double. */
  predicate IsDouble(t: Text) {
    match MantissaEnd(t, SignEnd(t, 0))
    case None => false
    case Some(b) => b == |t| || ExponentFrom(t, b)
  }

  // ---------------------------------------------------------------- writing

  function HexDigit(d: nat): Unit
    requires d < 16
  {
    if d < 10 then 0x30 + d else 0x61 + (d - 10)
  }

  function Escaped(u: Unit): Text {
    if u == QUOTE then [BACKSLASH, QUOTE]
    else if u == BACKSLASH then [BACKSLASH, BACKSLASH]
    else if u == 0x0a then [BACKSLASH, U('n')]
    else if u == 0x09 then [BACKSLASH, U('t')]
    else if u == 0x0d then [BACKSLASH, U('r')]
    else if u < 0x20 then [BACKSLASH, U('u'), 0x30, 0x30, HexDigit(u / 16), HexDigit(u % 16)]
    else [u]
  }

  /** The escaped units and the closing quote. */
  function CharsText(t: Text): Text {
    if t == [] then [QUOTE] else Escaped(t[0]) + CharsText(t[1..])
  }

  function StrText(t: Text): Text { [QUOTE] + CharsText(t) }

  function Write(v: Tree): Text
    decreases v
  {
    match v
    case Null => NULL
    case Bool(b) => if b then TRUE else FALSE
    case Number(token) => token
    case Str(t) => StrText(t)
    case Arr(items) => [OPEN_ARR] + ItemsText(items)
    case Obj(members) => [OPEN_OBJ] + MembersText(members)
  }

  /** The items, comma-separated, and the closing bracket. */
  function ItemsText(items: seq<Tree>): Text
    decreases items
  {
    if items == [] then [CLOSE_ARR]
    else Write(items[0]) + (if |items| == 1 then [CLOSE_ARR] else [COMMA] + ItemsText(items[1..]))
  }

  /** The members, comma-separated, and the closing brace. */
  function MembersText(members: seq<Member>): Text
    decreases members
  {
    if members == [] then [CLOSE_OBJ]
    else
      var m := members[0];
      var rest := if |members| == 1 then [CLOSE_OBJ] else [COMMA] + MembersText(members[1..]);
      StrText(m.key) + ([COLON] + (Write(m.value) + rest))
  }

  /** What follows the first item. */
  function AfterItem(items: seq<Tree>): Text
    requires items != []
  {
    if |items| == 1 then [CLOSE_ARR] else [COMMA] + ItemsText(items[1..])
  }

  lemma {:induction false} ItemsSplit(items: seq<Tree>)
    requires items != []
    ensures ItemsText(items) == Write(items[0]) + AfterItem(items)
  {}

  /** What follows the first member. */
  function AfterMember(members: seq<Member>): Text
    requires members != []
  {
    if |members| == 1 then [CLOSE_OBJ] else [COMMA] + MembersText(members[1..])
  }

  lemma {:induction false} MembersSplit(members: seq<Member>)
    requires members != []
    ensures MembersText(members)
            == StrText(members[0].key) + ([COLON] + (Write(members[0].value) + AfterMember(members)))
    ensures |MembersText(members)| == |StrText(members[0].key)| + 1 + |Write(members[0].value)| + |AfterMember(members)|
  {}

  // ---------------------------------------------------------------- reading

  /** A value and where it ends, or the exception of an unreadable text. */
  datatype Parsed<+T> = Ok(value: T, next: nat) | Fail

  function Left(s: Text, i: nat): nat { if i <= |s| then |s| - i else 0 }

  /** The first position from `i` on that is not whitespace; `sp` says what is. */
  function SkipSpace(sp: Unit -> bool, s: Text, i: nat): (j: nat)
    ensures i <= j && (j < |s| ==> !sp(s[j]))
    ensures j == i || j <= |s|
    decreases Left(s, i)
  {
    if i < |s| && sp(s[i]) then SkipSpace(sp, s, i + 1) else i
  }

  function HexValue(u: Unit): Option<nat> {
    if IsDigit(u) then Some(u - 0x30)
    else if 0x61 <= u <= 0x66 then Some(u - 0x61 + 10)
    else if 0x41 <= u <= 0x46 then Some(u - 0x41 + 10)
    else None
  }

  function HexNumber(t: Text): Option<nat> {
    if t == [] then Some(0)
    else match (HexNumber(t[..|t| - 1]), HexValue(t[|t| - 1]))
      case (Some(n), Some(d)) => Some(16 * n + d)
      case _ => None
  }

  /** Four units read as a hexadecimal integer, which may carry a sign, and cut to 16 bits. */
  function HexUnit(t: Text): Option<Unit>
    requires |t| == 4
  {
    var digits := if IsSign(t[0]) then t[1..] else t;
    match HexNumber(digits)
    case None => None
    case Some(n) => Some((if t[0] == 0x2d then -(n as int) else n as int) % 0x1_0000)
  }

  /** What an escape letter other than `u` stands for. */
  function Unescaped(u: Unit): Unit {
    if u == U('n') then 0x0a
    else if u == U('t') then 0x09
    else if u == U('r') then 0x0d
    else if u == U('b') then 0x08
    else if u == U('f') then 0x0c
    else u
  }

  /** The unit that starts at `i` of a string's inside, and where the next one starts. */
  function ReadUnit(s: Text, i: nat): (r: Parsed<Unit>)
    requires i < |s|
    ensures r.Ok? ==> i < r.next <= |s|
  {
    if s[i] != BACKSLASH then Ok(s[i], i + 1)
    else if i + 1 >= |s| then Fail
    else if s[i + 1] != U('u') then Ok(Unescaped(s[i + 1]), i + 2)
    else if i + 6 > |s| then Fail
    else match HexUnit(s[i + 2..i + 6])
      case None => Fail
      case Some(u) => Ok(u, i + 6)
  }

  /** The rest of a string from `i` on, up to and including its closing quote. */
  function ReadChars(s: Text, i: nat, sofar: Text): (r: Parsed<Text>)
    ensures r.Ok? ==> i < r.next <= |s|
    decreases Left(s, i)
  {
    if i >= |s| then Fail
    else if s[i] == QUOTE then Ok(sofar, i + 1)
    else match ReadUnit(s, i)
      case Fail => Fail
      case Ok(u, next) => ReadChars(s, next, sofar + [u])
  }

  function NumericEnd(s: Text, i: nat): (j: nat)
    requires i <= |s|
    ensures i <= j <= |s|
    decreases |s| - i
  {
    if i < |s| && IsNumeric(s[i]) then NumericEnd(s, i + 1) else i
  }

  function ReadNumber(s: Text, i: nat): (r: Parsed<Tree>)
    requires i <= |s|
    ensures r.Ok? ==> r.next >= i
  {
    var j := NumericEnd(s, i);
    if IsDouble(s[i..j]) then Ok(Number(s[i..j]), j) else Fail
  }

  function AsStr(r: Parsed<Text>): Parsed<Tree> {
    match r case Fail => Fail case Ok(t, next) => Ok(Str(t), next)
  }

  /** A value at `i`; the letters after the first of `true`, `false` and `null` are not looked at. */
  function ReadValue(sp: Unit -> bool, s: Text, i: nat): (r: Parsed<Tree>)
    ensures r.Ok? ==> r.next >= i
    decreases Left(s, i), 2
  {
    var j := SkipSpace(sp, s, i);
    if j >= |s| then Fail
    else if s[j] == OPEN_OBJ then ReadObj(sp, s, j)
    else if s[j] == OPEN_ARR then ReadArr(sp, s, j)
    else if s[j] == QUOTE then AsStr(ReadChars(s, j + 1, []))
    else if s[j] == U('t') then Ok(Bool(true), j + 4)
    else if s[j] == U('f') then Ok(Bool(false), j + 5)
    else if s[j] == U('n') then Ok(Null, j + 4)
    else ReadNumber(s, j)
  }

  function ReadArr(sp: Unit -> bool, s: Text, i: nat): (r: Parsed<Tree>)
    requires i < |s|
    ensures r.Ok? ==> r.next >= i
    decreases Left(s, i), 1
  {
    var j := SkipSpace(sp, s, i + 1);
    if j >= |s| then Fail
    else if s[j] == CLOSE_ARR then Ok(Arr([]), j + 1)
    else match ReadItems(sp, s, j, [])
      case Fail => Fail
      case Ok(items, next) => Ok(Arr(items), next)
  }

  /** Items from `i` on; whatever follows an item and is not the closing bracket counts as a comma. */
  function ReadItems(sp: Unit -> bool, s: Text, i: nat, sofar: seq<Tree>): (r: Parsed<seq<Tree>>)
    ensures r.Ok? ==> r.next >= i
    decreases Left(s, i), 3
  {
    match ReadValue(sp, s, i)
    case Fail => Fail
    case Ok(v, next) =>
      var j := SkipSpace(sp, s, next);
      if j >= |s| then Fail
      else if s[j] == CLOSE_ARR then Ok(sofar + [v], j + 1)
      else ReadItems(sp, s, j + 1, sofar + [v])
  }

  function ReadObj(sp: Unit -> bool, s: Text, i: nat): (r: Parsed<Tree>)
    requires i < |s|
    ensures r.Ok? ==> r.next >= i
    decreases Left(s, i), 1
  {
    var j := SkipSpace(sp, s, i + 1);
    if j >= |s| then Fail
    else if s[j] == CLOSE_OBJ then Ok(Obj([]), j + 1)
    else match ReadMembers(sp, s, j, [])
      case Fail => Fail
      case Ok(members, next) => Ok(Obj(members), next)
  }

  /** A member under a key that is there already takes the place of the earlier one. */
  function PutMember(members: seq<Member>, m: Member): seq<Member> {
    if members == [] then [m]
    else if members[0].key == m.key then [m] + members[1..]
    else [members[0]] + PutMember(members[1..], m)
  }

  function AsMember(key: Text, r: Parsed<Tree>): Parsed<Member> {
    match r case Fail => Fail case Ok(v, next) => Ok(Member(key, v), next)
  }

  /** A key and its value; the unit before the key and the one before the value are not looked at. */
  function ReadMember(sp: Unit -> bool, s: Text, i: nat): (r: Parsed<Member>)
    ensures r.Ok? ==> r.next >= i
    decreases Left(s, i), 3
  {
    match ReadChars(s, SkipSpace(sp, s, i) + 1, [])
    case Fail => Fail
    case Ok(key, next) => AsMember(key, ReadValue(sp, s, SkipSpace(sp, s, next) + 1))
  }

  /** Members from `i` on; whatever follows one and is not the closing brace counts as a comma. */
  function ReadMembers(sp: Unit -> bool, s: Text, i: nat, sofar: seq<Member>): (r: Parsed<seq<Member>>)
    ensures r.Ok? ==> r.next >= i
    decreases Left(s, i), 4
  {
    match ReadMember(sp, s, i)
    case Fail => Fail
    case Ok(m, next) =>
      var j := SkipSpace(sp, s, next);
      var members := PutMember(sofar, m);
      if j >= |s| then Fail
      else if s[j] == CLOSE_OBJ then Ok(members, j + 1)
      else ReadMembers(sp, s, j + 1, members)
  }
}
