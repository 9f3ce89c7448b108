/**
 * The parser reads every JSON text as the tree it stands for, from any offset and up to exactly its end. What the
 * writer writes is one spelling of its tree, so it is read back.
 */
module JsonRoundTrip {
  import opened Seqs
  import opened Json
  import opened JsonGrammar

  predicate DistinctKeys(members: seq<Member>) {
    forall i, j :: 0 <= i < j < |members| ==> members[i].key != members[j].key
  }

  /** The trees the writer is meant for: readable numbers, and maps that have each key once. */
  predicate WellFormed(v: Tree)
    decreases v
  {
    match v
    case Number(token) => NumberToken(token)
    case Arr(items) => forall x :: x in items ==> WellFormed(x)
    case Obj(members) => DistinctKeys(members) && forall m :: m in members ==> WellFormed(m.value)
    case _ => true
  }

  /** No printable ASCII unit counts as whitespace. */
  ghost predicate Legible(sp: Unit -> bool) { forall u: Unit :: 0x20 < u < 0x80 ==> !sp(u) }

  /** A reading that skips every blank. */
  ghost predicate Skips(sp: Unit -> bool, blank: Unit -> bool) {
    Legible(sp) && forall u: Unit :: blank(u) ==> sp(u)
  }

  /** Java skips the four whitespace characters of JSON. */
  lemma {:induction false} JavaSkips()
    ensures Skips(JavaSpace, JsonSpace) && Skips(JavaSpace, u => false)
  {
    forall u: Unit | 0x20 < u < 0x80 ensures !JavaSpace(u) {}
    forall u: Unit | JsonSpace(u) ensures JavaSpace(u) {}
  }

  // ---------------------------------------------------------------- strings

  lemma {:induction false} HexSnoc(t: Text, u: Unit)
    requires HexNumber(t).Some? && HexValue(u).Some?
    ensures HexNumber(t + [u]) == Some(16 * HexNumber(t).value + HexValue(u).value)
  {
    assert (t + [u])[..|t|] == t;
  }

  lemma {:induction false} HexIs(u: Unit)
    requires IsHex(u)
    ensures HexValue(u) == Some(HexOf(u)) && !IsSign(u)
  {}

  lemma {:induction false} HexFour(a: Unit, b: Unit, c: Unit, d: Unit)
    requires HexValue(a).Some? && HexValue(b).Some? && HexValue(c).Some? && HexValue(d).Some?
    ensures HexNumber([a, b, c, d]) == Some(0x1000 * HexValue(a).value + 0x100 * HexValue(b).value
                                            + 0x10 * HexValue(c).value + HexValue(d).value)
  {
    assert HexNumber([a]) == Some(HexValue(a).value);
    HexSnoc([a], b);
    assert [a] + [b] == [a, b];
    HexSnoc([a, b], c);
    assert [a, b] + [c] == [a, b, c];
    HexSnoc([a, b, c], d);
    assert [a, b, c] + [d] == [a, b, c, d];
  }

  /** Four hexadecimal digits. */
  lemma {:induction false} HexBack(a: Unit, b: Unit, c: Unit, d: Unit)
    requires IsHex(a) && IsHex(b) && IsHex(c) && IsHex(d)
    ensures HexUnit([a, b, c, d]) == Some(0x1000 * HexOf(a) + 0x100 * HexOf(b) + 0x10 * HexOf(c) + HexOf(d))
  {
    HexIs(a);
    HexIs(b);
    HexIs(c);
    HexIs(d);
    HexFour(a, b, c, d);
  }

  /** Every character of a string, however spelled, is read as the unit it stands for. */
  lemma {:induction false} PieceBack(s: Text, i: nat, p: Piece)
    requires ValidPiece(p) && HasAt(s, i, SpellPiece(p))
    ensures i < |s| && s[i] != QUOTE && ReadUnit(s, i) == Ok(PieceUnit(p), i + |SpellPiece(p)|)
  {
    var t := SpellPiece(p);
    HeadAt(s, i, t);
    if |t| > 1 { assert s[i + 1] == t[1]; }
    if p.Hex? {
      HexBack(p.a, p.b, p.c, p.d);
      assert s[i + 2] == t[2] && s[i + 3] == t[3] && s[i + 4] == t[4] && s[i + 5] == t[5];
      assert s[i + 2..i + 6] == [p.a, p.b, p.c, p.d];
    }
  }

  lemma {:induction false} CharBack(s: Text, i: nat, p: Piece, rest: Text)
    requires ValidPiece(p) && HasAt(s, i, SpellPiece(p) + rest)
    ensures i < |s| && s[i] != QUOTE && ReadUnit(s, i) == Ok(PieceUnit(p), i + |SpellPiece(p)|)
    ensures HasAt(s, i + |SpellPiece(p)|, rest)
  {
    HasParts(s, i, SpellPiece(p), rest);
    PieceBack(s, i, p);
  }

  lemma {:induction false} CharsBack(s: Text, i: nat, ps: seq<Piece>, sofar: Text)
    requires ValidPieces(ps) && HasAt(s, i, SpellPieces(ps))
    ensures ReadChars(s, i, sofar) == Ok(sofar + PieceUnits(ps), i + |SpellPieces(ps)|)
    decreases |ps|
  {
    if ps == [] {
      HeadAt(s, i, SpellPieces(ps));
      assert sofar + PieceUnits(ps) == sofar;
    } else {
      var u, rest := PieceUnit(ps[0]), ps[1..];
      var next := i + |SpellPiece(ps[0])|;
      CharBack(s, i, ps[0], SpellPieces(rest));
      CharsBack(s, next, rest, sofar + [u]);
      ReadCharsStep(s, i, sofar, u, next);
      assert sofar + [u] + PieceUnits(rest) == sofar + PieceUnits(ps);
    }
  }

  lemma {:induction false} ReadCharsStep(s: Text, i: nat, sofar: Text, u: Unit, next: nat)
    requires i < |s| && s[i] != QUOTE && ReadUnit(s, i) == Ok(u, next)
    ensures ReadChars(s, i, sofar) == ReadChars(s, next, sofar + [u])
  {}

  lemma {:induction false} StrBack(s: Text, i: nat, ps: seq<Piece>)
    requires ValidPieces(ps) && HasAt(s, i, SpellStr(ps))
    ensures i < |s| && s[i] == QUOTE && ReadChars(s, i + 1, []) == Ok(PieceUnits(ps), i + |SpellStr(ps)|)
  {
    HasParts(s, i, [U('"')], SpellPieces(ps));
    HeadAt(s, i, SpellStr(ps));
    CharsBack(s, i + 1, ps, []);
    assert [] + PieceUnits(ps) == PieceUnits(ps);
  }

  // ---------------------------------------------------------------- numbers

  lemma {:induction false} NumericRun(s: Text, i: nat, j: nat)
    requires i <= j <= |s| && (forall k :: i <= k < j ==> IsNumeric(s[k]))
    requires j == |s| || !IsNumeric(s[j])
    ensures NumericEnd(s, i) == j
    decreases j - i
  {
    if i < j { NumericRun(s, i + 1, j); }
  }

  lemma {:induction false} NumberBack(s: Text, i: nat, t: Text)
    requires HasAt(s, i, t) && NumberToken(t)
    requires i + |t| == |s| || !IsNumeric(s[i + |t|])
    ensures ReadNumber(s, i) == Ok(Number(t), i + |t|)
  {
    forall k | i <= k < i + |t| ensures IsNumeric(s[k]) { assert s[i + (k - i)] == t[k - i] && t[k - i] in t; }
    NumericRun(s, i, i + |t|);
    assert s[i..i + |t|] == t;
  }

  // ---------------------------------------------------------------- whitespace

  lemma {:induction false} SkipOver(sp: Unit -> bool, s: Text, i: nat, t: Text)
    requires AllBlank(t, sp) && HasAt(s, i, t)
    ensures SkipSpace(sp, s, i) == SkipSpace(sp, s, i + |t|)
    decreases |t|
  {
    if t != [] {
      HeadAt(s, i, t);
      assert t == t[..1] + t[1..];
      HasParts(s, i, t[..1], t[1..]);
      SkipOver(sp, s, i + 1, t[1..]);
    }
  }

  lemma {:induction false} BlankIsSpace(sp: Unit -> bool, blank: Unit -> bool, t: Text)
    requires Skips(sp, blank) && AllBlank(t, blank)
    ensures AllBlank(t, sp)
  {}

  /** Whitespace before something printable. */
  lemma {:induction false} SkipTo(sp: Unit -> bool, blank: Unit -> bool, s: Text, i: nat, t: Text, rest: Text)
    requires Skips(sp, blank) && AllBlank(t, blank) && HasAt(s, i, t + rest) && rest != [] && 0x20 < rest[0] < 0x80
    ensures SkipSpace(sp, s, i) == i + |t| == SkipSpace(sp, s, i + |t|)
    ensures HasAt(s, i + |t|, rest) && i + |t| < |s| && s[i + |t|] == rest[0]
  {
    HasParts(s, i, t, rest);
    HeadAt(s, i + |t|, rest);
    BlankIsSpace(sp, blank, t);
    SkipOver(sp, s, i, t);
  }

  /** Two stretches of whitespace before something printable. */
  lemma {:induction false} SkipBoth(sp: Unit -> bool, blank: Unit -> bool, s: Text, i: nat, gap: Text, before: Text,
                                    more: Text) returns (j: nat)
    requires Skips(sp, blank) && AllBlank(gap, blank) && AllBlank(before, blank)
    requires HasAt(s, i, gap + (before + more)) && more != [] && 0x20 < more[0] < 0x80
    ensures j == i + |gap| + |before| && SkipSpace(sp, s, i) == SkipSpace(sp, s, i + |gap|) == j == SkipSpace(sp, s, j)
    ensures j < |s| && s[j] == more[0]
  {
    HasParts(s, i, gap, before + more);
    BlankIsSpace(sp, blank, gap);
    SkipOver(sp, s, i, gap);
    SkipTo(sp, blank, s, i + |gap|, before, more);
    j := i + |gap| + |before|;
  }

  // ---------------------------------------------------------------- values

  /** A value starts with a printable unit that is not a closing bracket. */
  lemma {:induction false} StartsPlainly(d: Doc, blank: Unit -> bool)
    requires Valid(d, blank)
    ensures Spell(d) != [] && 0x20 < Spell(d)[0] < 0x80 && Spell(d)[0] != CLOSE_ARR
    ensures d.NumberDoc? ==> IsNumeric(Spell(d)[0])
  {
    if d.NumberDoc? { assert d.token != [] && d.token[0] in d.token; }
  }

  ghost predicate EndsAt(s: Text, i: nat, d: Doc) {
    d.NumberDoc? ==> i >= |s| || !IsNumeric(s[i])
  }

  /** A JSON text is read as the tree it stands for, from any offset of any text. */
  lemma {:induction false} DocBack(sp: Unit -> bool, blank: Unit -> bool, s: Text, i: nat, d: Doc)
    requires Skips(sp, blank) && Valid(d, blank) && HasAt(s, i, Spell(d)) && EndsAt(s, i + |Spell(d)|, d)
    ensures ReadValue(sp, s, i) == Ok(Meaning(d), i + |Spell(d)|)
    decreases d, 1
  {
    match d
    case ArrDoc(gap, elems) =>
      ArrBack(sp, blank, s, i, gap, elems);
      ReadByHead(sp, s, i);
    case ObjDoc(gap, entries) =>
      ObjBack(sp, blank, s, i, gap, entries);
      ReadByHead(sp, s, i);
    case _ => LeafBack(sp, blank, s, i, d);
  }

  lemma {:induction false} ReadByHead(sp: Unit -> bool, s: Text, i: nat)
    requires Legible(sp) && i < |s|
    ensures s[i] == OPEN_ARR ==> ReadValue(sp, s, i) == ReadArr(sp, s, i)
    ensures s[i] == OPEN_OBJ ==> ReadValue(sp, s, i) == ReadObj(sp, s, i)
    ensures s[i] == QUOTE ==> ReadValue(sp, s, i) == AsStr(ReadChars(s, i + 1, []))
    ensures IsNumeric(s[i]) ==> ReadValue(sp, s, i) == ReadNumber(s, i)
  {}

  lemma {:induction false} WordBack(sp: Unit -> bool, s: Text, i: nat, d: Doc)
    requires Legible(sp) && HasAt(s, i, Spell(d)) && (d.NullDoc? || d.BoolDoc?)
    ensures ReadValue(sp, s, i) == Ok(Meaning(d), i + |Spell(d)|)
  {
    HeadAt(s, i, Spell(d));
  }

  lemma {:induction false} LeafBack(sp: Unit -> bool, blank: Unit -> bool, s: Text, i: nat, d: Doc)
    requires Skips(sp, blank) && Valid(d, blank) && HasAt(s, i, Spell(d)) && EndsAt(s, i + |Spell(d)|, d)
    requires !d.ArrDoc? && !d.ObjDoc?
    ensures ReadValue(sp, s, i) == Ok(Meaning(d), i + |Spell(d)|)
  {
    StartsPlainly(d, blank);
    HeadAt(s, i, Spell(d));
    ReadByHead(sp, s, i);
    match d
    case NumberDoc(token) => NumberBack(s, i, token);
    case StrDoc(ps) => StrBack(s, i, ps);
    case _ => WordBack(sp, s, i, d);
  }

  /** A value is read from its first unit that is not whitespace. */
  lemma {:induction false} ReadAfterSpace(sp: Unit -> bool, s: Text, i: nat, j: nat)
    requires SkipSpace(sp, s, i) == j == SkipSpace(sp, s, j)
    ensures ReadValue(sp, s, i) == ReadValue(sp, s, j)
  {}

  lemma {:induction false} ItemsAfterSpace(sp: Unit -> bool, s: Text, i: nat, j: nat)
    requires SkipSpace(sp, s, i) == j == SkipSpace(sp, s, j)
    ensures ReadItems(sp, s, i, []) == ReadItems(sp, s, j, [])
  {
    ReadAfterSpace(sp, s, i, j);
  }

  lemma {:induction false} MembersAfterSpace(sp: Unit -> bool, s: Text, i: nat, j: nat)
    requires SkipSpace(sp, s, i) == j == SkipSpace(sp, s, j)
    ensures ReadMembers(sp, s, i, []) == ReadMembers(sp, s, j, [])
  {
    MemberAfterSpace(sp, s, i, j);
    MembersByFirst(sp, s, i, j);
  }

  lemma {:induction false} MembersByFirst(sp: Unit -> bool, s: Text, i: nat, j: nat)
    requires ReadMember(sp, s, i) == ReadMember(sp, s, j)
    ensures ReadMembers(sp, s, i, []) == ReadMembers(sp, s, j, [])
  {
    match ReadMember(sp, s, i)
    case Fail =>
    case Ok(m, next) =>
      var k := SkipSpace(sp, s, next);
      if k < |s| && s[k] != CLOSE_OBJ {
        ReadMembersStep(sp, s, i, m, [], next, k);
        ReadMembersStep(sp, s, j, m, [], next, k);
      } else if k < |s| {
        ReadLastMember(sp, s, i, m, [], next, k);
        ReadLastMember(sp, s, j, m, [], next, k);
      }
  }

  lemma {:induction false} MemberAfterSpace(sp: Unit -> bool, s: Text, i: nat, j: nat)
    requires SkipSpace(sp, s, i) == j == SkipSpace(sp, s, j)
    ensures ReadMember(sp, s, i) == ReadMember(sp, s, j)
  {}

  /** A value, the whitespace after it, and the comma or bracket that follows. */
  lemma {:induction false} BodyBack(sp: Unit -> bool, blank: Unit -> bool, s: Text, a: nat, e: Elem, rest: Text)
    requires Skips(sp, blank) && ValidElem(e, blank) && HasAt(s, a, Spell(e.doc) + (e.after + rest))
    requires rest != [] && 0x20 < rest[0] < 0x80 && !IsNumeric(rest[0])
    ensures var j := a + |Spell(e.doc)|;
            && ReadValue(sp, s, a) == Ok(Meaning(e.doc), j) && SkipSpace(sp, s, j) == j + |e.after|
            && HasAt(s, j + |e.after|, rest) && j + |e.after| < |s| && s[j + |e.after|] == rest[0]
    decreases e, 2
  {
    var j := a + |Spell(e.doc)|;
    HasParts(s, a, Spell(e.doc), e.after + rest);
    SkipTo(sp, blank, s, j, e.after, rest);
    NotNumericNext(sp, blank, s, j, e.after, rest);
    DocBack(sp, blank, s, a, e.doc);
  }

  /** An element, the whitespace around it, and the comma or bracket that follows. */
  lemma {:induction false} ElemBack(sp: Unit -> bool, blank: Unit -> bool, s: Text, i: nat, e: Elem, rest: Text)
    returns (j: nat, k: nat)
    requires Skips(sp, blank) && ValidElem(e, blank) && HasAt(s, i, SpellElem(e, rest))
    requires rest != [] && 0x20 < rest[0] < 0x80 && !IsNumeric(rest[0])
    ensures ReadValue(sp, s, i) == Ok(Meaning(e.doc), j) && SkipSpace(sp, s, j) == k
    ensures HasAt(s, k, rest) && k < |s| && s[k] == rest[0] && k + |rest| == i + |SpellElem(e, rest)|
    decreases e, 3
  {
    var a := i + |e.before|;
    j := a + |Spell(e.doc)|;
    k := j + |e.after|;
    StartsPlainly(e.doc, blank);
    SkipTo(sp, blank, s, i, e.before, Spell(e.doc) + (e.after + rest));
    ReadAfterSpace(sp, s, i, a);
    BodyBack(sp, blank, s, a, e, rest);
  }

  lemma {:induction false} NotNumericNext(sp: Unit -> bool, blank: Unit -> bool, s: Text, j: nat, t: Text, rest: Text)
    requires Skips(sp, blank) && AllBlank(t, blank) && HasAt(s, j, t + rest) && rest != [] && !IsNumeric(rest[0])
    ensures j < |s| && !IsNumeric(s[j])
  {
    HeadAt(s, j, t + rest);
    if t != [] { assert t[0] in t; }
  }

  lemma {:induction false} ArrBack(sp: Unit -> bool, blank: Unit -> bool, s: Text, i: nat, gap: Text, elems: seq<Elem>)
    requires Skips(sp, blank) && AllBlank(gap, blank) && (forall e :: e in elems ==> ValidElem(e, blank))
    requires HasAt(s, i, [U('[')] + (gap + SpellElems(elems)))
    ensures i < |s| && s[i] == OPEN_ARR
    ensures ReadArr(sp, s, i) == Ok(Arr(Meanings(elems)), i + 1 + |gap| + |SpellElems(elems)|)
    decreases elems, 5
  {
    if elems == [] {
      EmptyArr(sp, blank, s, i, gap);
    } else {
      Opened(s, i, U('['), gap, SpellElems(elems));
      var j := AllItemsBack(sp, blank, s, i + 1, gap, elems);
      ReadArrStep(sp, s, i, j);
    }
  }

  lemma {:induction false} Opened(s: Text, i: nat, open: Unit, gap: Text, inside: Text)
    requires HasAt(s, i, [open] + (gap + inside))
    ensures i < |s| && s[i] == open && HasAt(s, i + 1, gap + inside) && HasAt(s, i + 1 + |gap|, inside)
  {
    HeadAt(s, i, [open] + (gap + inside));
    HasParts(s, i, [open], gap + inside);
    HasParts(s, i + 1, gap, inside);
  }

  lemma {:induction false} EmptyArr(sp: Unit -> bool, blank: Unit -> bool, s: Text, i: nat, gap: Text)
    requires Skips(sp, blank) && AllBlank(gap, blank) && HasAt(s, i, [U('[')] + (gap + [U(']')]))
    ensures i < |s| && s[i] == OPEN_ARR && ReadArr(sp, s, i) == Ok(Arr([]), i + 2 + |gap|)
  {
    Opened(s, i, U('['), gap, [U(']')]);
    SkipTo(sp, blank, s, i + 1, gap, [U(']')]);
  }

  lemma {:induction false} ReadArrStep(sp: Unit -> bool, s: Text, i: nat, j: nat)
    requires i < |s| && SkipSpace(sp, s, i + 1) == j && j < |s| && s[j] != CLOSE_ARR && ReadItems(sp, s, j, []).Ok?
    ensures var r := ReadItems(sp, s, j, []); ReadArr(sp, s, i) == Ok(Arr(r.value), r.next)
  {}

  /** Skipping to the first element, past the whitespace of the list and its own. */
  lemma {:induction false} FirstOfElems(sp: Unit -> bool, blank: Unit -> bool, s: Text, i: nat, gap: Text,
                                        elems: seq<Elem>) returns (j: nat)
    requires Skips(sp, blank) && AllBlank(gap, blank) && elems != [] && ValidElem(elems[0], blank)
    requires HasAt(s, i, gap + SpellElems(elems))
    ensures SkipSpace(sp, s, i) == j && j < |s| && s[j] != CLOSE_ARR
    ensures ReadItems(sp, s, i + |gap|, []) == ReadItems(sp, s, j, []) && HasAt(s, i + |gap|, SpellElems(elems))
  {
    HasParts(s, i, gap, SpellElems(elems));
    var e := elems[0];
    StartsPlainly(e.doc, blank);
    ElemsAre(elems);
    j := SkipBoth(sp, blank, s, i, gap, e.before, Spell(e.doc) + (e.after + AfterElem(elems)));
    ItemsAfterSpace(sp, s, i + |gap|, j);
  }

  /** What follows the first element. */
  function AfterElem(elems: seq<Elem>): Text
    requires elems != []
  {
    if |elems| == 1 then [U(']')] else [U(',')] + SpellElems(elems[1..])
  }

  lemma {:induction false} ElemsAre(elems: seq<Elem>)
    requires elems != []
    ensures SpellElems(elems) == elems[0].before + (Spell(elems[0].doc) + (elems[0].after + AfterElem(elems)))
    ensures SpellElems(elems) == SpellElem(elems[0], AfterElem(elems))
    ensures AfterElem(elems) != [] && AfterElem(elems)[0] == (if |elems| == 1 then CLOSE_ARR else COMMA)
    ensures Meanings(elems) == [Meaning(elems[0].doc)] + Meanings(elems[1..])
  {}

  lemma {:induction false} FirstElem(sp: Unit -> bool, blank: Unit -> bool, s: Text, i: nat, elems: seq<Elem>)
    returns (j: nat, k: nat)
    requires Skips(sp, blank) && elems != [] && ValidElem(elems[0], blank) && HasAt(s, i, SpellElems(elems))
    ensures ReadValue(sp, s, i) == Ok(Meaning(elems[0].doc), j) && SkipSpace(sp, s, j) == k
    ensures HasAt(s, k, AfterElem(elems)) && k + |AfterElem(elems)| == i + |SpellElems(elems)|
    ensures k < |s| && s[k] == if |elems| == 1 then CLOSE_ARR else COMMA
    decreases elems, 1
  {
    ElemsAre(elems);
    j, k := ElemBack(sp, blank, s, i, elems[0], AfterElem(elems));
  }

  /** The elements after the first one, when there are any. */
  lemma {:induction false} MoreElems(sp: Unit -> bool, blank: Unit -> bool, s: Text, k: nat, elems: seq<Elem>,
                                     sofar: seq<Tree>)
    requires Skips(sp, blank) && |elems| > 1 && (forall e :: e in elems ==> ValidElem(e, blank))
    requires HasAt(s, k, AfterElem(elems))
    ensures ReadItems(sp, s, k + 1, sofar + [Meaning(elems[0].doc)])
            == Ok(sofar + Meanings(elems), k + |AfterElem(elems)|)
    decreases elems, 2
  {
    var v, rest := Meaning(elems[0].doc), elems[1..];
    HasParts(s, k, [U(',')], SpellElems(rest));
    ItemsBack(sp, blank, s, k + 1, rest, sofar + [v]);
    ElemsAre(elems);
    assert sofar + [v] + Meanings(rest) == sofar + Meanings(elems);
  }

  lemma {:induction false} ItemsBack(sp: Unit -> bool, blank: Unit -> bool, s: Text, i: nat, elems: seq<Elem>,
                                     sofar: seq<Tree>)
    requires Skips(sp, blank) && elems != [] && (forall e :: e in elems ==> ValidElem(e, blank))
    requires HasAt(s, i, SpellElems(elems))
    ensures ReadItems(sp, s, i, sofar) == Ok(sofar + Meanings(elems), i + |SpellElems(elems)|)
    decreases elems, 3
  {
    var v := Meaning(elems[0].doc);
    var j, k := FirstElem(sp, blank, s, i, elems);
    if |elems| == 1 {
      ReadLastItem(sp, s, i, v, sofar, j, k);
      OneMeaning(elems);
    } else {
      MoreElems(sp, blank, s, k, elems, sofar);
      ReadItemsStep(sp, s, i, v, sofar, j, k);
    }
  }

  lemma {:induction false} AllItemsBack(sp: Unit -> bool, blank: Unit -> bool, s: Text, i: nat, gap: Text,
                                        elems: seq<Elem>) returns (j: nat)
    requires Skips(sp, blank) && AllBlank(gap, blank) && (forall e :: e in elems ==> ValidElem(e, blank))
    requires elems != [] && HasAt(s, i, gap + SpellElems(elems))
    ensures SkipSpace(sp, s, i) == j && j < |s| && s[j] != CLOSE_ARR
    ensures ReadItems(sp, s, j, []) == Ok(Meanings(elems), i + |gap| + |SpellElems(elems)|)
    decreases elems, 4
  {
    j := FirstOfElems(sp, blank, s, i, gap, elems);
    ItemsBack(sp, blank, s, i + |gap|, elems, []);
    NoneBefore(Meanings(elems));
  }

  lemma {:induction false} NoneBefore(items: seq<Tree>)
    ensures [] + items == items
  {}

  lemma {:induction false} OneMeaning(elems: seq<Elem>)
    requires |elems| == 1
    ensures Meanings(elems) == [Meaning(elems[0].doc)] && |AfterElem(elems)| == 1
  {
    assert elems[1..] == [];
  }

  lemma {:induction false} ReadLastItem(sp: Unit -> bool, s: Text, i: nat, v: Tree, sofar: seq<Tree>, j: nat, k: nat)
    requires ReadValue(sp, s, i) == Ok(v, j) && SkipSpace(sp, s, j) == k && k < |s| && s[k] == CLOSE_ARR
    ensures ReadItems(sp, s, i, sofar) == Ok(sofar + [v], k + 1)
  {}

  lemma {:induction false} ReadItemsStep(sp: Unit -> bool, s: Text, i: nat, v: Tree, sofar: seq<Tree>, j: nat, k: nat)
    requires ReadValue(sp, s, i) == Ok(v, j) && SkipSpace(sp, s, j) == k && k < |s| && s[k] != CLOSE_ARR
    ensures ReadItems(sp, s, i, sofar) == ReadItems(sp, s, k + 1, sofar + [v])
  {}

  lemma {:induction false} ObjBack(sp: Unit -> bool, blank: Unit -> bool, s: Text, i: nat, gap: Text,
                                   entries: seq<Entry>)
    requires Skips(sp, blank) && AllBlank(gap, blank) && (forall e :: e in entries ==> ValidEntry(e, blank))
    requires HasAt(s, i, [U('{')] + (gap + SpellEntries(entries)))
    ensures i < |s| && s[i] == OPEN_OBJ
    ensures ReadObj(sp, s, i) == Ok(Obj(PutAll([], entries)), i + 1 + |gap| + |SpellEntries(entries)|)
    decreases entries, 5
  {
    if entries == [] {
      EmptyObj(sp, blank, s, i, gap);
    } else {
      Opened(s, i, U('{'), gap, SpellEntries(entries));
      var j := AllMembersBack(sp, blank, s, i + 1, gap, entries);
      ReadObjStep(sp, s, i, j);
    }
  }

  lemma {:induction false} EmptyObj(sp: Unit -> bool, blank: Unit -> bool, s: Text, i: nat, gap: Text)
    requires Skips(sp, blank) && AllBlank(gap, blank) && HasAt(s, i, [U('{')] + (gap + [U('}')]))
    ensures i < |s| && s[i] == OPEN_OBJ && ReadObj(sp, s, i) == Ok(Obj([]), i + 2 + |gap|)
  {
    Opened(s, i, U('{'), gap, [U('}')]);
    SkipTo(sp, blank, s, i + 1, gap, [U('}')]);
  }

  lemma {:induction false} ReadObjStep(sp: Unit -> bool, s: Text, i: nat, j: nat)
    requires i < |s| && SkipSpace(sp, s, i + 1) == j && j < |s| && s[j] != CLOSE_OBJ && ReadMembers(sp, s, j, []).Ok?
    ensures var r := ReadMembers(sp, s, j, []); ReadObj(sp, s, i) == Ok(Obj(r.value), r.next)
  {}

  lemma {:induction false} FirstOfEntries(sp: Unit -> bool, blank: Unit -> bool, s: Text, i: nat, gap: Text,
                                          entries: seq<Entry>) returns (j: nat)
    requires Skips(sp, blank) && AllBlank(gap, blank) && entries != [] && ValidEntry(entries[0], blank)
    requires HasAt(s, i, gap + SpellEntries(entries))
    ensures SkipSpace(sp, s, i) == j && j < |s| && s[j] != CLOSE_OBJ
    ensures ReadMembers(sp, s, i + |gap|, []) == ReadMembers(sp, s, j, [])
  {
    var e := entries[0];
    EntriesAre(entries);
    j := SkipBoth(sp, blank, s, i, gap, e.before,
                  SpellStr(e.key) + (e.after + ([U(':')] + SpellElem(e.elem, AfterEntry(entries)))));
    MembersAfterSpace(sp, s, i + |gap|, j);
  }

  /** What follows the first entry. */
  function AfterEntry(entries: seq<Entry>): Text
    requires entries != []
  {
    if |entries| == 1 then [U('}')] else [U(',')] + SpellEntries(entries[1..])
  }

  /** A key and the whitespace around it, up to behind the colon. */
  lemma {:induction false} KeyBack(sp: Unit -> bool, blank: Unit -> bool, s: Text, i: nat, e: Entry, rest: Text)
    returns (j: nat, k: nat)
    requires Skips(sp, blank) && ValidEntry(e, blank)
    requires HasAt(s, i, e.before + (SpellStr(e.key) + (e.after + ([U(':')] + rest))))
    ensures ReadChars(s, SkipSpace(sp, s, i) + 1, []) == Ok(PieceUnits(e.key), j) && SkipSpace(sp, s, j) == k
    ensures HasAt(s, k + 1, rest)
    ensures k + 1 + |rest| == i + |e.before + (SpellStr(e.key) + (e.after + ([U(':')] + rest)))|
  {
    var a := i + |e.before|;
    var colon := [U(':')] + rest;
    SkipTo(sp, blank, s, i, e.before, SpellStr(e.key) + (e.after + colon));
    HasParts(s, a, SpellStr(e.key), e.after + colon);
    StrBack(s, a, e.key);
    j := a + |SpellStr(e.key)|;
    k := j + |e.after|;
    SkipTo(sp, blank, s, j, e.after, colon);
    HasParts(s, k, [U(':')], rest);
  }

  /** An entry and the comma or brace that follows. */
  lemma {:induction false} EntryBack(sp: Unit -> bool, blank: Unit -> bool, s: Text, i: nat, e: Entry, rest: Text)
    returns (j: nat, k: nat)
    requires Skips(sp, blank) && ValidEntry(e, blank) && HasAt(s, i, SpellEntry(e, rest))
    requires rest != [] && 0x20 < rest[0] < 0x80 && !IsNumeric(rest[0])
    ensures ReadMember(sp, s, i) == Ok(MeantMember(e), j) && SkipSpace(sp, s, j) == k
    ensures HasAt(s, k, rest) && k < |s| && s[k] == rest[0] && k + |rest| == i + |SpellEntry(e, rest)|
    decreases e, 3
  {
    var a, b := KeyBack(sp, blank, s, i, e, SpellElem(e.elem, rest));
    j, k := ElemBack(sp, blank, s, b + 1, e.elem, rest);
  }

  lemma {:induction false} EntriesAre(entries: seq<Entry>)
    requires entries != []
    ensures var e := entries[0];
            SpellEntries(entries)
            == e.before + (SpellStr(e.key) + (e.after + ([U(':')] + SpellElem(e.elem, AfterEntry(entries)))))
    ensures SpellEntries(entries) == SpellEntry(entries[0], AfterEntry(entries))
    ensures AfterEntry(entries) != [] && AfterEntry(entries)[0] == (if |entries| == 1 then CLOSE_OBJ else COMMA)
  {}

  lemma {:induction false} FirstEntry(sp: Unit -> bool, blank: Unit -> bool, s: Text, i: nat, entries: seq<Entry>)
    returns (j: nat, k: nat)
    requires Skips(sp, blank) && entries != [] && ValidEntry(entries[0], blank) && HasAt(s, i, SpellEntries(entries))
    ensures ReadMember(sp, s, i) == Ok(MeantMember(entries[0]), j) && SkipSpace(sp, s, j) == k
    ensures HasAt(s, k, AfterEntry(entries)) && k + |AfterEntry(entries)| == i + |SpellEntries(entries)|
    ensures k < |s| && s[k] == if |entries| == 1 then CLOSE_OBJ else COMMA
    decreases entries, 1
  {
    EntriesAre(entries);
    j, k := EntryBack(sp, blank, s, i, entries[0], AfterEntry(entries));
  }

  /** The entries after the first one, when there are any. */
  lemma {:induction false} MoreEntries(sp: Unit -> bool, blank: Unit -> bool, s: Text, k: nat, entries: seq<Entry>,
                                       sofar: seq<Member>)
    requires Skips(sp, blank) && |entries| > 1 && (forall e :: e in entries ==> ValidEntry(e, blank))
    requires HasAt(s, k, AfterEntry(entries))
    ensures ReadMembers(sp, s, k + 1, PutMember(sofar, MeantMember(entries[0])))
            == Ok(PutAll(sofar, entries), k + |AfterEntry(entries)|)
    decreases entries, 2
  {
    HasParts(s, k, [U(',')], SpellEntries(entries[1..]));
    MembersBack(sp, blank, s, k + 1, entries[1..], PutMember(sofar, MeantMember(entries[0])));
  }

  lemma {:induction false} MembersBack(sp: Unit -> bool, blank: Unit -> bool, s: Text, i: nat, entries: seq<Entry>,
                                       sofar: seq<Member>)
    requires Skips(sp, blank) && entries != [] && (forall e :: e in entries ==> ValidEntry(e, blank))
    requires HasAt(s, i, SpellEntries(entries))
    ensures ReadMembers(sp, s, i, sofar) == Ok(PutAll(sofar, entries), i + |SpellEntries(entries)|)
    decreases entries, 3
  {
    var m := MeantMember(entries[0]);
    var j, k := FirstEntry(sp, blank, s, i, entries);
    if |entries| == 1 {
      ReadLastMember(sp, s, i, m, sofar, j, k);
      OnePut(sofar, entries);
    } else {
      MoreEntries(sp, blank, s, k, entries, sofar);
      ReadMembersStep(sp, s, i, m, sofar, j, k);
    }
  }

  lemma {:induction false} AllMembersBack(sp: Unit -> bool, blank: Unit -> bool, s: Text, i: nat, gap: Text,
                                          entries: seq<Entry>) returns (j: nat)
    requires Skips(sp, blank) && AllBlank(gap, blank) && (forall e :: e in entries ==> ValidEntry(e, blank))
    requires entries != [] && HasAt(s, i, gap + SpellEntries(entries))
    ensures SkipSpace(sp, s, i) == j && j < |s| && s[j] != CLOSE_OBJ
    ensures ReadMembers(sp, s, j, []) == Ok(PutAll([], entries), i + |gap| + |SpellEntries(entries)|)
    decreases entries, 4
  {
    j := FirstOfEntries(sp, blank, s, i, gap, entries);
    HasParts(s, i, gap, SpellEntries(entries));
    MembersBack(sp, blank, s, i + |gap|, entries, []);
  }

  lemma {:induction false} OnePut(sofar: seq<Member>, entries: seq<Entry>)
    requires |entries| == 1
    ensures PutAll(sofar, entries) == PutMember(sofar, MeantMember(entries[0])) && |AfterEntry(entries)| == 1
  {
    assert entries[1..] == [];
  }

  lemma {:induction false} ReadLastMember(sp: Unit -> bool, s: Text, i: nat, m: Member, sofar: seq<Member>, j: nat,
                                          k: nat)
    requires ReadMember(sp, s, i) == Ok(m, j) && SkipSpace(sp, s, j) == k && k < |s| && s[k] == CLOSE_OBJ
    ensures ReadMembers(sp, s, i, sofar) == Ok(PutMember(sofar, m), k + 1)
  {}

  lemma {:induction false} ReadMembersStep(sp: Unit -> bool, s: Text, i: nat, m: Member, sofar: seq<Member>, j: nat,
                                           k: nat)
    requires ReadMember(sp, s, i) == Ok(m, j) && SkipSpace(sp, s, j) == k && k < |s| && s[k] != CLOSE_OBJ
    ensures ReadMembers(sp, s, i, sofar) == ReadMembers(sp, s, k + 1, PutMember(sofar, m))
  {}

  lemma {:induction false} TopBack(sp: Unit -> bool, blank: Unit -> bool, s: Text, a: nat, e: Elem)
    requires Skips(sp, blank) && ValidElem(e, blank) && HasAt(s, a, Spell(e.doc) + e.after)
    requires |s| == a + |Spell(e.doc) + e.after|
    ensures ReadValue(sp, s, a) == Ok(Meaning(e.doc), a + |Spell(e.doc)|)
  {
    HasParts(s, a, Spell(e.doc), e.after);
    if e.after != [] {
      HeadAt(s, a + |Spell(e.doc)|, e.after);
      assert e.after[0] in e.after;
    }
    DocBack(sp, blank, s, a, e.doc);
  }

  /** The Java client reads every JSON document, in any layout and with any escapes, as the tree it stands for. */
  lemma {:induction false} ReadsJson(e: Elem)
    requires ValidElem(e, JsonSpace)
    ensures ReadValue(JavaSpace, e.before + (Spell(e.doc) + e.after), 0)
            == Ok(Meaning(e.doc), |e.before| + |Spell(e.doc)|)
  {
    JavaSkips();
    var s := e.before + (Spell(e.doc) + e.after);
    StartsPlainly(e.doc, JsonSpace);
    SkipTo(JavaSpace, JsonSpace, s, 0, e.before, Spell(e.doc) + e.after);
    ReadAfterSpace(JavaSpace, s, 0, |e.before|);
    TopBack(JavaSpace, JsonSpace, s, |e.before|, e);
  }

  // ---------------------------------------------------------------- what is written

  /** The hexadecimal digit of a number, in lower case. */
  lemma {:induction false} HexDigitIs(n: nat)
    requires n < 16
    ensures IsHex(HexDigit(n)) && HexOf(HexDigit(n)) == n
  {}

  /** How the writer spells a unit. */
  function WrittenPiece(u: Unit): Piece {
    if u == U('"') then Short(U('"'))
    else if u == U('\\') then Short(U('\\'))
    else if u == U('\n') then Short(U('n'))
    else if u == U('\t') then Short(U('t'))
    else if u == U('\r') then Short(U('r'))
    else if u < 0x20 then Hex(U('0'), U('0'), HexDigit(u / 16), HexDigit(u % 16))
    else Plain(u)
  }

  lemma {:induction false} UnitWritten(u: Unit)
    ensures ValidPiece(WrittenPiece(u)) && PieceUnit(WrittenPiece(u)) == u && SpellPiece(WrittenPiece(u)) == Escaped(u)
  {
    if u < 0x20 {
      HexDigitIs(u / 16);
      HexDigitIs(u % 16);
    }
  }

  /** Every unit, escaped or not, is read back as itself. */
  lemma {:induction false} UnitBack(s: Text, i: nat, u: Unit)
    requires HasAt(s, i, Escaped(u))
    ensures i < |s| && s[i] != QUOTE && ReadUnit(s, i) == Ok(u, i + |Escaped(u)|)
  {
    UnitWritten(u);
    PieceBack(s, i, WrittenPiece(u));
  }

  function WrittenPieces(t: Text): seq<Piece> {
    if t == [] then [] else [WrittenPiece(t[0])] + WrittenPieces(t[1..])
  }

  lemma {:induction false} StrWritten(t: Text)
    ensures ValidPieces(WrittenPieces(t)) && PieceUnits(WrittenPieces(t)) == t
    ensures SpellPieces(WrittenPieces(t)) == CharsText(t)
  {
    if t != [] {
      UnitWritten(t[0]);
      StrWritten(t[1..]);
      assert WrittenPieces(t)[1..] == WrittenPieces(t[1..]);
    }
  }

  /** How the writer lays out a tree. */
  function Written(v: Tree): Doc
    decreases v
  {
    match v
    case Null => NullDoc
    case Bool(b) => BoolDoc(b)
    case Number(token) => NumberDoc(token)
    case Str(t) => StrDoc(WrittenPieces(t))
    case Arr(items) => ArrDoc([], WrittenItems(items))
    case Obj(members) => ObjDoc([], WrittenMembers(members))
  }

  function WrittenItems(items: seq<Tree>): seq<Elem>
    decreases items
  {
    if items == [] then [] else [Elem([], Written(items[0]), [])] + WrittenItems(items[1..])
  }

  function WrittenMember(m: Member): Entry
    decreases m
  {
    Entry([], WrittenPieces(m.key), [], Elem([], Written(m.value), []))
  }

  function WrittenMembers(members: seq<Member>): seq<Entry>
    decreases members
  {
    if members == [] then [] else [WrittenMember(members[0])] + WrittenMembers(members[1..])
  }

  /** What the writer writes is that layout's spelling, */
  lemma {:induction false} WriteSpells(v: Tree)
    ensures Spell(Written(v)) == Write(v)
    decreases v
  {
    match v
    case Str(t) => StrWritten(t);
    case Arr(items) =>
      ItemsSpelled(items);
      NoGap(OPEN_ARR, ItemsText(items));
    case Obj(members) =>
      MembersSpelled(members);
      NoGap(OPEN_OBJ, MembersText(members));
    case _ =>
  }

  lemma {:induction false} NoGap(open: Unit, inside: Text)
    ensures [open] + ([] + inside) == [open] + inside
  {}

  lemma {:induction false} BareElem(d: Doc, rest: Text)
    ensures SpellElem(Elem([], d, []), rest) == Spell(d) + rest
  {
    assert [] + rest == rest && [] + (Spell(d) + rest) == Spell(d) + rest;
  }

  lemma {:induction false} ElemsSplit(d: Doc, elems: seq<Elem>)
    ensures SpellElems([Elem([], d, [])] + elems)
            == Spell(d) + (if elems == [] then [U(']')] else [U(',')] + SpellElems(elems))
  {
    var all := [Elem([], d, [])] + elems;
    assert all[1..] == elems;
    BareElem(d, AfterElem(all));
  }

  lemma {:induction false} ItemsSpelled(items: seq<Tree>)
    ensures SpellElems(WrittenItems(items)) == ItemsText(items) && |WrittenItems(items)| == |items|
    decreases items
  {
    if items != [] {
      WriteSpells(items[0]);
      ItemsSpelled(items[1..]);
      ElemsSplit(Written(items[0]), WrittenItems(items[1..]));
    }
  }

  lemma {:induction false} EntriesSplit(key: seq<Piece>, d: Doc, entries: seq<Entry>)
    ensures SpellEntries([Entry([], key, [], Elem([], d, []))] + entries)
            == SpellStr(key) + ([U(':')] + (Spell(d) + (if entries == [] then [U('}')]
                                                        else [U(',')] + SpellEntries(entries))))
  {
    var all := [Entry([], key, [], Elem([], d, []))] + entries;
    assert all[1..] == entries;
    BareElem(d, AfterEntry(all));
    var more := [U(':')] + (Spell(d) + AfterEntry(all));
    assert [] + more == more && [] + (SpellStr(key) + more) == SpellStr(key) + more;
  }

  lemma {:induction false} MembersSpelled(members: seq<Member>)
    ensures SpellEntries(WrittenMembers(members)) == MembersText(members) && |WrittenMembers(members)| == |members|
    decreases members
  {
    if members != [] {
      StrWritten(members[0].key);
      WriteSpells(members[0].value);
      MembersSpelled(members[1..]);
      EntriesSplit(WrittenPieces(members[0].key), Written(members[0].value), WrittenMembers(members[1..]));
    }
  }

  /** which is a JSON document without whitespace that stands for the tree. */
  lemma {:induction false} WrittenMeans(v: Tree, blank: Unit -> bool)
    requires WellFormed(v)
    ensures Valid(Written(v), blank) && Meaning(Written(v)) == v
    decreases v, 1
  {
    match v
    case Str(t) => StrWritten(t);
    case Arr(items) => ItemsMean(items, blank);
    case Obj(members) =>
      assert [] + members == members;
      MembersMean(members, [], blank);
    case _ =>
  }

  lemma {:induction false} ItemsMean(items: seq<Tree>, blank: Unit -> bool)
    requires forall x :: x in items ==> WellFormed(x)
    ensures (forall e :: e in WrittenItems(items) ==> ValidElem(e, blank)) && Meanings(WrittenItems(items)) == items
    decreases items, 0
  {
    if items != [] {
      WrittenMeans(items[0], blank);
      ItemsMean(items[1..], blank);
      assert WrittenItems(items)[1..] == WrittenItems(items[1..]);
    }
  }

  lemma {:induction false} MemberMeans(m: Member, blank: Unit -> bool)
    requires WellFormed(m.value)
    ensures ValidEntry(WrittenMember(m), blank) && MeantMember(WrittenMember(m)) == m
    decreases m, 2
  {
    StrWritten(m.key);
    WrittenMeans(m.value, blank);
  }

  lemma {:induction false} MembersMean(members: seq<Member>, sofar: seq<Member>, blank: Unit -> bool)
    requires DistinctKeys(sofar + members) && forall m :: m in members ==> WellFormed(m.value)
    ensures forall e :: e in WrittenMembers(members) ==> ValidEntry(e, blank)
    ensures PutAll(sofar, WrittenMembers(members)) == sofar + members
    decreases members, 0
  {
    if members == [] {
      assert sofar + members == sofar;
    } else {
      var m, rest := members[0], members[1..];
      MemberMeans(m, blank);
      PutFirst(members, sofar);
      assert sofar + [m] + rest == sofar + members;
      MembersMean(rest, sofar + [m], blank);
      assert WrittenMembers(members)[1..] == WrittenMembers(rest);
    }
  }

  lemma {:induction false} PutFresh(members: seq<Member>, m: Member)
    requires forall i :: 0 <= i < |members| ==> members[i].key != m.key
    ensures PutMember(members, m) == members + [m]
  {
    if members != [] { PutFresh(members[1..], m); }
  }

  lemma {:induction false} FreshKey(sofar: seq<Member>, members: seq<Member>)
    requires members != [] && DistinctKeys(sofar + members)
    ensures forall x :: 0 <= x < |sofar| ==> sofar[x].key != members[0].key
  {
    var all := sofar + members;
    forall x | 0 <= x < |sofar| ensures sofar[x].key != members[0].key {
      assert all[x] == sofar[x] && all[|sofar|] == members[0];
    }
  }

  lemma {:induction false} PutFirst(members: seq<Member>, sofar: seq<Member>)
    requires members != [] && DistinctKeys(sofar + members)
    ensures PutMember(sofar, members[0]) == sofar + [members[0]]
  {
    FreshKey(sofar, members);
    PutFresh(sofar, members[0]);
  }

  // ---------------------------------------------------------------- the round trip

  /** The round trip, from any offset of any text. */
  lemma {:induction false} ValueBack(sp: Unit -> bool, s: Text, i: nat, v: Tree)
    requires Legible(sp) && WellFormed(v) && HasAt(s, i, Write(v))
    requires v.Number? && i + |Write(v)| < |s| ==> !IsNumeric(s[i + |Write(v)|])
    ensures ReadValue(sp, s, i) == Ok(v, i + |Write(v)|)
  {
    WriteSpells(v);
    WrittenMeans(v, u => false);
    DocBack(sp, u => false, s, i, Written(v));
  }

  /** The whole text of a tree is read back as the tree. */
  lemma {:induction false} WriteThenRead(sp: Unit -> bool, v: Tree)
    requires Legible(sp)
    requires WellFormed(v)
    ensures ReadValue(sp, Write(v), 0) == Ok(v, |Write(v)|)
  {
    ValueBack(sp, Write(v), 0, v);
  }

  /** So no two trees are written alike. */
  lemma {:induction false} WriteInjective(v: Tree, w: Tree)
    requires WellFormed(v) && WellFormed(w) && Write(v) == Write(w)
    ensures v == w
  {
    WriteThenRead(JavaSpace, v);
    WriteThenRead(JavaSpace, w);
  }
}
