/**
 * JSON texts in any layout, as RFC 8259 has them: the spelling of a document and the tree it stands for, defined apart
 * from the client's writer and parser.
 */
module JsonGrammar {
  import opened Seqs
  import opened Json

  // ---------------------------------------------------------------- texts

  /** `s` has `t` at offset `i`. */
  ghost predicate HasAt(s: Text, i: nat, t: Text) {
    i + |t| <= |s| && forall k :: 0 <= k < |t| ==> s[i + k] == t[k]
  }

  lemma {:induction false} HasParts(s: Text, i: nat, a: Text, b: Text)
    requires HasAt(s, i, a + b)
    ensures HasAt(s, i, a) && HasAt(s, i + |a|, b)
  {
    var t := a + b;
    forall k | 0 <= k < |a| ensures s[i + k] == a[k] { assert s[i + k] == t[k]; }
    forall k | 0 <= k < |b| ensures s[i + |a| + k] == b[k] { assert s[i + (|a| + k)] == t[|a| + k]; }
  }

  lemma {:induction false} HeadAt(s: Text, i: nat, t: Text)
    requires HasAt(s, i, t) && t != []
    ensures i < |s| && s[i] == t[0]
  {
    assert s[i + 0] == t[0];
  }

  // ---------------------------------------------------------------- strings

  /** One character of a string: itself, a short escape, or an escape with four hexadecimal digits. */
  datatype Piece = Plain(u: Unit) | Short(letter: Unit) | Hex(a: Unit, b: Unit, c: Unit, d: Unit)

  /** The short escapes and what they stand for. */
  const SHORT: map<Unit, Unit> :=
    map[U('"') := U('"'), U('\\') := U('\\'), U('/') := U('/'), U('b') := 8, U('f') := 12,
        U('n') := U('\n'), U('r') := U('\r'), U('t') := U('\t')]

  predicate Within(u: Unit, a: char, b: char) { a as int <= u <= b as int }

  predicate IsHex(u: Unit) { Within(u, '0', '9') || Within(u, 'a', 'f') || Within(u, 'A', 'F') }

  function HexOf(u: Unit): (n: nat)
    ensures n < 16
  {
    if Within(u, '0', '9') then u - U('0')
    else if Within(u, 'a', 'f') then 10 + (u - U('a'))
    else if Within(u, 'A', 'F') then 10 + (u - U('A'))
    else 0
  }

  /** A quote, a backslash and the control characters must be escaped. */
  predicate ValidPiece(p: Piece) {
    match p
    case Plain(u) => u >= 0x20 && u != U('"') && u != U('\\')
    case Short(letter) => letter in SHORT
    case Hex(a, b, c, d) => IsHex(a) && IsHex(b) && IsHex(c) && IsHex(d)
  }

  function PieceUnit(p: Piece): Unit {
    match p
    case Plain(u) => u
    case Short(letter) => if letter in SHORT then SHORT[letter] else letter
    case Hex(a, b, c, d) => 0x1000 * HexOf(a) + 0x100 * HexOf(b) + 0x10 * HexOf(c) + HexOf(d)
  }

  function SpellPiece(p: Piece): Text {
    match p
    case Plain(u) => [u]
    case Short(letter) => [U('\\'), letter]
    case Hex(a, b, c, d) => [U('\\'), U('u'), a, b, c, d]
  }

  predicate ValidPieces(ps: seq<Piece>) { forall p :: p in ps ==> ValidPiece(p) }

  function PieceUnits(ps: seq<Piece>): Text {
    if ps == [] then [] else [PieceUnit(ps[0])] + PieceUnits(ps[1..])
  }

  /** The pieces and the closing quote. */
  function SpellPieces(ps: seq<Piece>): Text {
    if ps == [] then [U('"')] else SpellPiece(ps[0]) + SpellPieces(ps[1..])
  }

  function SpellStr(ps: seq<Piece>): Text { [U('"')] + SpellPieces(ps) }

  // ---------------------------------------------------------------- documents

  /** A value; a list and a map carry the whitespace after their opening bracket. */
  datatype Doc =
    | NullDoc
    | BoolDoc(b: bool)
    | NumberDoc(token: Text)
    | StrDoc(pieces: seq<Piece>)
    | ArrDoc(gap: Text, elems: seq<Elem>)
    | ObjDoc(gap: Text, entries: seq<Entry>)

  /** A value between whitespace. */
  datatype Elem = Elem(before: Text, doc: Doc, after: Text)

  /** A key between whitespace, and its value. */
  datatype Entry = Entry(before: Text, key: seq<Piece>, after: Text, elem: Elem)

  predicate JsonSpace(u: Unit) { u == U(' ') || u == U('\t') || u == U('\n') || u == U('\r') }

  /** A token over the numeric units that stands for a double. */
  predicate NumberToken(t: Text) { (forall u :: u in t ==> IsNumeric(u)) && IsDouble(t) }

  predicate AllBlank(t: Text, blank: Unit -> bool) { forall u :: u in t ==> blank(u) }

  /** A document whose whitespace is made of blanks. */
  predicate Valid(d: Doc, blank: Unit -> bool)
    decreases d
  {
    match d
    case NumberDoc(token) => NumberToken(token)
    case StrDoc(pieces) => ValidPieces(pieces)
    case ArrDoc(gap, elems) => AllBlank(gap, blank) && forall e :: e in elems ==> ValidElem(e, blank)
    case ObjDoc(gap, entries) => AllBlank(gap, blank) && forall e :: e in entries ==> ValidEntry(e, blank)
    case _ => true
  }

  predicate ValidElem(e: Elem, blank: Unit -> bool)
    decreases e
  {
    AllBlank(e.before, blank) && AllBlank(e.after, blank) && Valid(e.doc, blank)
  }

  predicate ValidEntry(e: Entry, blank: Unit -> bool)
    decreases e
  {
    AllBlank(e.before, blank) && AllBlank(e.after, blank) && ValidPieces(e.key) && ValidElem(e.elem, blank)
  }

  function Spell(d: Doc): Text
    decreases d
  {
    match d
    case NullDoc => [U('n'), U('u'), U('l'), U('l')]
    case BoolDoc(b) => if b then [U('t'), U('r'), U('u'), U('e')] else [U('f'), U('a'), U('l'), U('s'), U('e')]
    case NumberDoc(token) => token
    case StrDoc(pieces) => SpellStr(pieces)
    case ArrDoc(gap, elems) => [U('[')] + (gap + SpellElems(elems))
    case ObjDoc(gap, entries) => [U('{')] + (gap + SpellEntries(entries))
  }

  /** An element and what follows it. */
  function SpellElem(e: Elem, rest: Text): Text
    decreases e
  {
    e.before + (Spell(e.doc) + (e.after + rest))
  }

  /** The elements, comma-separated, and the closing bracket. */
  function SpellElems(elems: seq<Elem>): Text
    decreases elems
  {
    if elems == [] then [U(']')]
    else SpellElem(elems[0], if |elems| == 1 then [U(']')] else [U(',')] + SpellElems(elems[1..]))
  }

  /** An entry and what follows it. */
  function SpellEntry(e: Entry, rest: Text): Text
    decreases e
  {
    e.before + (SpellStr(e.key) + (e.after + ([U(':')] + SpellElem(e.elem, rest))))
  }

  /** The entries, comma-separated, and the closing brace. */
  function SpellEntries(entries: seq<Entry>): Text
    decreases entries
  {
    if entries == [] then [U('}')]
    else SpellEntry(entries[0], if |entries| == 1 then [U('}')] else [U(',')] + SpellEntries(entries[1..]))
  }

  // ---------------------------------------------------------------- what a document stands for

  function Meaning(d: Doc): Tree
    decreases d
  {
    match d
    case NullDoc => Null
    case BoolDoc(b) => Bool(b)
    case NumberDoc(token) => Number(token)
    case StrDoc(pieces) => Str(PieceUnits(pieces))
    case ArrDoc(_, elems) => Arr(Meanings(elems))
    case ObjDoc(_, entries) => Obj(PutAll([], entries))
  }

  function Meanings(elems: seq<Elem>): seq<Tree>
    decreases elems
  {
    if elems == [] then [] else [Meaning(elems[0].doc)] + Meanings(elems[1..])
  }

  function MeantMember(e: Entry): Member
    decreases e
  {
    Member(PieceUnits(e.key), Meaning(e.elem.doc))
  }

  /** The entries put one after the other; the last one under a key counts. */
  function PutAll(sofar: seq<Member>, entries: seq<Entry>): seq<Member>
    decreases entries
  {
    if entries == [] then sofar else PutAll(PutMember(sofar, MeantMember(entries[0])), entries[1..])
  }

  // ---------------------------------------------------------------- maps

  function KeysOf(members: seq<Member>): seq<Text> { seq(|members|, i requires 0 <= i < |members| => members[i].key) }

  function ValueOf(members: seq<Member>, key: Text): Option<Tree> {
    if members == [] then None
    else if members[0].key == key then Some(members[0].value)
    else ValueOf(members[1..], key)
  }

  /** Putting a member sets its key and no other; a new key comes last, an old one stays in its place. */
  lemma {:induction false} PutIs(members: seq<Member>, m: Member, key: Text)
    ensures ValueOf(PutMember(members, m), key) == if key == m.key then Some(m.value) else ValueOf(members, key)
    ensures KeysOf(PutMember(members, m))
            == if m.key in KeysOf(members) then KeysOf(members) else KeysOf(members) + [m.key]
  {
    if members != [] {
      var rest := members[1..];
      KeysCons(members[0], rest);
      assert members == [members[0]] + rest;
      if members[0].key == m.key {
        KeysCons(m, rest);
      } else {
        PutIs(rest, m, key);
        KeysCons(members[0], PutMember(rest, m));
      }
    }
  }

  lemma {:induction false} KeysCons(m: Member, rest: seq<Member>)
    ensures KeysOf([m] + rest) == [m.key] + KeysOf(rest)
  {}

  // ---------------------------------------------------------------- numbers

  /** `sign whole . fraction e sign digits`, where a part may be missing. */
  datatype Numeral = Numeral(sign: Text, whole: Text, fraction: Option<Text>, exponent: Option<Exponent>)
  datatype Exponent = Exponent(e: Unit, sign: Text, digits: Text)

  predicate Digits(t: Text) { forall i :: 0 <= i < |t| ==> Within(t[i], '0', '9') }

  predicate Signs(t: Text) { t == [] || t == [U('+')] || t == [U('-')] }

  /** At least one digit before the exponent, and one in it. */
  predicate ValidNumeral(n: Numeral) {
    && Signs(n.sign) && Digits(n.whole)
    && (n.whole != [] || (n.fraction.Some? && n.fraction.value != []))
    && (n.fraction.Some? ==> Digits(n.fraction.value))
    && (n.exponent.Some? ==> ValidExponent(n.exponent.value))
  }

  predicate ValidExponent(x: Exponent) {
    (x.e == U('e') || x.e == U('E')) && Signs(x.sign) && Digits(x.digits) && x.digits != []
  }

  function SpellFraction(f: Option<Text>): Text {
    match f case None => [] case Some(digits) => [U('.')] + digits
  }

  function SpellExponent(x: Option<Exponent>): Text {
    match x case None => [] case Some(x) => [x.e] + (x.sign + x.digits)
  }

  function SpellNumeral(n: Numeral): Text {
    n.sign + (n.whole + (SpellFraction(n.fraction) + SpellExponent(n.exponent)))
  }

  lemma {:induction false} DigitsRun(t: Text, i: nat, digits: Text)
    requires HasAt(t, i, digits) && Digits(digits) && (i + |digits| == |t| || !IsDigit(t[i + |digits|]))
    ensures DigitsEnd(t, i) == i + |digits|
    decreases |digits|
  {
    if digits != [] {
      HeadAt(t, i, digits);
      assert digits == digits[..1] + digits[1..];
      HasParts(t, i, digits[..1], digits[1..]);
      DigitsRun(t, i + 1, digits[1..]);
    }
  }

  lemma {:induction false} DigitsFound(t: Text, i: nat)
    requires i <= |t|
    ensures Digits(t[i..DigitsEnd(t, i)])
    decreases |t| - i
  {
    if i < |t| && IsDigit(t[i]) {
      DigitsFound(t, i + 1);
      var j := DigitsEnd(t, i);
      assert t[i..j] == [t[i]] + t[i + 1..j];
    } else {
      assert t[i..i] == [];
    }
  }

  /** The mantissa ends here: at the end, or at the exponent's letter. */
  predicate EndsMantissa(t: Text, i: nat) { i == |t| || (i < |t| && (t[i] == U('e') || t[i] == U('E'))) }

  lemma {:induction false} MantissaRun(t: Text, i: nat, whole: Text, fraction: Option<Text>)
    requires Digits(whole) && (fraction.Some? ==> Digits(fraction.value))
    requires whole != [] || (fraction.Some? && fraction.value != [])
    requires HasAt(t, i, whole) && HasAt(t, i + |whole|, SpellFraction(fraction))
    requires EndsMantissa(t, i + |whole| + |SpellFraction(fraction)|)
    ensures MantissaEnd(t, i) == Some(i + |whole| + |SpellFraction(fraction)|)
  {
    var a := i + |whole|;
    if fraction.Some? {
      HeadAt(t, a, [U('.')] + fraction.value);
      HasParts(t, a, [U('.')], fraction.value);
      DigitsRun(t, a + 1, fraction.value);
    }
    DigitsRun(t, i, whole);
  }

  lemma {:induction false} SignRun(t: Text, i: nat, sign: Text)
    requires HasAt(t, i, sign) && Signs(sign) && i + |sign| < |t| && !IsSign(t[i + |sign|])
    ensures SignEnd(t, i) == i + |sign|
  {
    if sign != [] { HeadAt(t, i, sign); }
  }

  lemma {:induction false} ExponentRun(t: Text, b: nat, x: Exponent)
    requires ValidExponent(x) && HasAt(t, b, SpellExponent(Some(x))) && b + |SpellExponent(Some(x))| == |t|
    ensures ExponentFrom(t, b)
  {
    var i := b + 1 + |x.sign|;
    HeadAt(t, b, [x.e] + (x.sign + x.digits));
    HasParts(t, b, [x.e], x.sign + x.digits);
    HasParts(t, b + 1, x.sign, x.digits);
    HeadAt(t, i, x.digits);
    SignRun(t, b + 1, x.sign);
    DigitsRun(t, i, x.digits);
  }

  /** The length of a numeral up to its exponent. */
  function Upto(n: Numeral): nat { |n.sign| + |n.whole| + |SpellFraction(n.fraction)| }

  /** The parts of a numeral, one after the other. */
  ghost predicate PartsAt(t: Text, n: Numeral) {
    && HasAt(t, 0, n.sign) && HasAt(t, |n.sign|, n.whole) && HasAt(t, |n.sign| + |n.whole|, SpellFraction(n.fraction))
    && HasAt(t, Upto(n), SpellExponent(n.exponent)) && |t| == Upto(n) + |SpellExponent(n.exponent)|
  }

  lemma {:induction false} NumeralParts(n: Numeral)
    ensures PartsAt(SpellNumeral(n), n)
  {
    FourParts(n.sign, n.whole, SpellFraction(n.fraction), SpellExponent(n.exponent));
  }

  lemma {:induction false} FourParts(a: Text, b: Text, c: Text, d: Text)
    ensures var t := a + (b + (c + d));
            && HasAt(t, 0, a) && HasAt(t, |a|, b) && HasAt(t, |a| + |b|, c) && HasAt(t, |a| + |b| + |c|, d)
            && |t| == |a| + |b| + |c| + |d|
  {
    var t := a + (b + (c + d));
    HasParts(t, 0, a, b + (c + d));
    HasParts(t, |a|, b, c + d);
    HasParts(t, |a| + |b|, c, d);
  }

  lemma {:induction false} NotSignAt(t: Text, i: nat, whole: Text, f: Text)
    requires HasAt(t, i, whole) && HasAt(t, i + |whole|, f) && Digits(whole)
    requires whole != [] || (f != [] && f[0] == U('.'))
    ensures i < |t| && !IsSign(t[i])
  {
    if whole != [] { HeadAt(t, i, whole); } else { HeadAt(t, i, f); }
  }

  lemma {:induction false} ExponentOf(t: Text, n: Numeral)
    requires ValidNumeral(n) && PartsAt(t, n)
    ensures EndsMantissa(t, Upto(n)) && (Upto(n) == |t| || ExponentFrom(t, Upto(n)))
  {
    if n.exponent.Some? { ExponentRun(t, Upto(n), n.exponent.value); }
  }

  lemma {:induction false} MantissaOf(t: Text, n: Numeral)
    requires ValidNumeral(n) && PartsAt(t, n) && EndsMantissa(t, Upto(n))
    ensures MantissaEnd(t, SignEnd(t, 0)) == Some(Upto(n))
  {
    NotSignAt(t, |n.sign|, n.whole, SpellFraction(n.fraction));
    SignRun(t, 0, n.sign);
    MantissaRun(t, |n.sign|, n.whole, n.fraction);
  }

  lemma {:induction false} NumeralIsDouble(n: Numeral)
    requires ValidNumeral(n)
    ensures IsDouble(SpellNumeral(n))
  {
    NumeralParts(n);
    ExponentOf(SpellNumeral(n), n);
    MantissaOf(SpellNumeral(n), n);
  }

  lemma {:induction false} SignFound(t: Text, i: nat)
    requires i <= |t|
    ensures Signs(t[i..SignEnd(t, i)])
  {
    var j := SignEnd(t, i);
    if j > i { assert t[i..j] == [t[i]]; }
  }

  lemma {:induction false} ExponentFound(t: Text, b: nat) returns (x: Option<Exponent>)
    requires b == |t| || ExponentFrom(t, b)
    ensures x.Some? ==> ValidExponent(x.value)
    ensures b <= |t| && SpellExponent(x) == t[b..]
  {
    if b == |t| {
      x := None;
    } else {
      var i := SignEnd(t, b + 1);
      SignFound(t, b + 1);
      DigitsFound(t, i);
      x := Some(Exponent(t[b], t[b + 1..i], t[i..]));
      assert t[i..] == t[i..DigitsEnd(t, i)];
      assert t[b..] == [t[b]] + (t[b + 1..i] + t[i..]);
    }
  }

  lemma {:induction false} MantissaFound(t: Text, i: nat) returns (whole: Text, fraction: Option<Text>)
    requires i <= |t| && MantissaEnd(t, i).Some?
    ensures Digits(whole) && (fraction.Some? ==> Digits(fraction.value))
    ensures whole != [] || (fraction.Some? && fraction.value != [])
    ensures whole + SpellFraction(fraction) == t[i..MantissaEnd(t, i).value]
  {
    var a, b := DigitsEnd(t, i), MantissaEnd(t, i).value;
    DigitsFound(t, i);
    whole := t[i..a];
    if a < |t| && t[a] == 0x2e {
      DigitsFound(t, a + 1);
      fraction := Some(t[a + 1..b]);
      assert t[i..b] == whole + ([t[a]] + t[a + 1..b]);
    } else {
      fraction := None;
    }
  }

  lemma {:induction false} DoubleIsNumeral(t: Text) returns (n: Numeral)
    requires IsDouble(t)
    ensures ValidNumeral(n) && SpellNumeral(n) == t
  {
    var i := SignEnd(t, 0);
    var b := MantissaEnd(t, i).value;
    SignFound(t, 0);
    var whole, fraction := MantissaFound(t, i);
    var x := ExponentFound(t, b);
    n := Numeral(t[..i], whole, fraction, x);
    Reassemble(t, i, b, whole, SpellFraction(fraction));
  }

  lemma {:induction false} Reassemble(t: Text, i: nat, b: nat, whole: Text, f: Text)
    requires i <= b <= |t| && whole + f == t[i..b]
    ensures t[..i] == t[0..i] && t[..i] + (whole + (f + t[b..])) == t
  {
    assert whole + (f + t[b..]) == (whole + f) + t[b..];
    assert t[..i] + (t[i..b] + t[b..]) == t;
  }

  /** The number tokens are exactly the numerals. */
  lemma {:induction false} DoubleIff(t: Text)
    ensures IsDouble(t) <==> exists n :: ValidNumeral(n) && SpellNumeral(n) == t
  {
    if IsDouble(t) {
      var n := DoubleIsNumeral(t);
    }
    forall n | ValidNumeral(n) && SpellNumeral(n) == t ensures IsDouble(t) { NumeralIsDouble(n); }
  }
}
