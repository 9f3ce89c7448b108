/** The Java client's parser and writer objects against the reading and writing of trees. */
module JsonClient {
  import opened Seqs
  import opened Json
  import opened JsonGrammar
  import opened JsonRoundTrip

  /** A method returned `r` and left the index at `i`; an exception is `None`. */
  ghost predicate Gives<T>(r: Option<T>, i: nat, p: Parsed<T>) {
    match p
    case Fail => r.None?
    case Ok(v, next) => r == Some(v) && i == next
  }

  class Parser {
    const space: Unit -> bool
    const s: Text
    var i: nat

    constructor (space: Unit -> bool, s: Text)
      ensures this.space == space && this.s == s && i == 0
    {
      this.space, this.s, this.i := space, s, 0;
    }

    method Ws()
      modifies this
      ensures i == SkipSpace(space, s, old(i))
    {
      while i < |s| && space(s[i])
        invariant SkipSpace(space, s, i) == SkipSpace(space, s, old(i))
        decreases Left(s, i)
      {
        i := i + 1;
      }
    }

    method Num() returns (r: Option<Tree>)
      requires i <= |s|
      modifies this
      ensures Gives(r, i, ReadNumber(s, old(i)))
    {
      var st := i;
      while i < |s| && IsNumeric(s[i])
        invariant st <= i <= |s| && NumericEnd(s, i) == NumericEnd(s, st)
      {
        i := i + 1;
      }
      r := if IsDouble(s[st..i]) then Some(Number(s[st..i])) else None;
    }

    /** The rest of an escape, after its backslash. */
    method Escape() returns (r: Option<Unit>)
      requires 0 < i <= |s| && s[i - 1] == BACKSLASH
      modifies this
      ensures Gives(r, i, ReadUnit(s, old(i) - 1))
    {
      if i >= |s| { return None; }
      var e := s[i];
      i := i + 1;
      if e == U('u') {
        if i + 4 > |s| { return None; }
        r := HexUnit(s[i..i + 4]);
        i := i + 4;
      } else {
        r := Some(Unescaped(e));
      }
    }

    method Str() returns (r: Option<Text>)
      modifies this
      ensures Gives(r, i, ReadChars(s, old(i) + 1, []))
    {
      var b: Text := [];
      i := i + 1;
      while true
        invariant ReadChars(s, i, b) == ReadChars(s, old(i) + 1, [])
        decreases Left(s, i)
      {
        if i >= |s| { return None; }
        var c := s[i];
        i := i + 1;
        if c == QUOTE { return Some(b); }
        if c == BACKSLASH {
          var u := Escape();
          if u.None? { return None; }
          b := b + [u.value];
        } else {
          b := b + [c];
        }
      }
    }

    method Value() returns (r: Option<Tree>)
      modifies this
      ensures Gives(r, i, ReadValue(space, s, old(i)))
      decreases Left(s, i), 2
    {
      Ws();
      if i >= |s| { return None; }
      var c := s[i];
      if c == OPEN_OBJ {
        r := ObjValue();
      } else if c == OPEN_ARR {
        r := ArrValue();
      } else if c == QUOTE {
        var t := Str();
        r := if t.None? then None else Some(Tree.Str(t.value));
      } else if c == U('t') {
        i := i + 4;
        r := Some(Bool(true));
      } else if c == U('f') {
        i := i + 5;
        r := Some(Bool(false));
      } else if c == U('n') {
        i := i + 4;
        r := Some(Null);
      } else {
        r := Num();
      }
    }

    method ArrValue() returns (r: Option<Tree>)
      requires i < |s|
      modifies this
      ensures Gives(r, i, ReadArr(space, s, old(i)))
      decreases Left(s, i), 1
    {
      i := i + 1;
      Ws();
      if i >= |s| { return None; }
      if s[i] == CLOSE_ARR {
        i := i + 1;
        return Some(Arr([]));
      }
      var a := Items();
      r := if a.None? then None else Some(Arr(a.value));
    }

    /** The item loop. */
    method Items() returns (r: Option<seq<Tree>>)
      modifies this
      ensures Gives(r, i, ReadItems(space, s, old(i), []))
      decreases Left(s, i), 4
    {
      var a: seq<Tree> := [];
      while true
        invariant old(i) <= i && ReadItems(space, s, i, a) == ReadItems(space, s, old(i), [])
        decreases Left(s, i)
      {
        var v := Value();
        if v.None? { return None; }
        a := a + [v.value];
        Ws();
        if i >= |s| { return None; }
        var c := s[i];
        i := i + 1;
        if c == CLOSE_ARR { return Some(a); }
      }
    }

    /** One member; its key is read from where the index stands, its value past the next unit. */
    method MemberValue() returns (r: Option<Member>)
      modifies this
      ensures Gives(r, i, ReadMember(space, s, old(i)))
      decreases Left(s, i), 3
    {
      Ws();
      var k := Str();
      if k.None? { return None; }
      Ws();
      i := i + 1;
      var v := Value();
      if v.None? { return None; }
      r := Some(Member(k.value, v.value));
    }

    method ObjValue() returns (r: Option<Tree>)
      requires i < |s|
      modifies this
      ensures Gives(r, i, ReadObj(space, s, old(i)))
      decreases Left(s, i), 1
    {
      i := i + 1;
      Ws();
      if i >= |s| { return None; }
      if s[i] == CLOSE_OBJ {
        i := i + 1;
        return Some(Obj([]));
      }
      var members := Members();
      r := if members.None? then None else Some(Obj(members.value));
    }

    /** The member loop. */
    method Members() returns (r: Option<seq<Member>>)
      modifies this
      ensures Gives(r, i, ReadMembers(space, s, old(i), []))
      decreases Left(s, i), 4
    {
      var members: seq<Member> := [];
      while true
        invariant old(i) <= i && ReadMembers(space, s, i, members) == ReadMembers(space, s, old(i), [])
        decreases Left(s, i)
      {
        var m := MemberValue();
        if m.None? { return None; }
        members := PutMember(members, m.value);
        Ws();
        if i >= |s| { return None; }
        var c := s[i];
        i := i + 1;
        if c == CLOSE_OBJ { return Some(members); }
      }
    }
  }

  // ---------------------------------------------------------------- writing

  class Builder {
    var b: Text

    constructor ()
      ensures b == []
    {
      b := [];
    }

    method WStr(t: Text)
      modifies this
      ensures b == old(b) + StrText(t)
    {
      b := b + [QUOTE];
      Regroup(old(b), [QUOTE], CharsText(t), []);
      assert t[0..] == t;
      for k := 0 to |t|
        invariant b + CharsText(t[k..]) == old(b) + StrText(t)
      {
        CharsStep(t, k);
        Regroup(b, Escaped(t[k]), CharsText(t[k + 1..]), []);
        b := b + Escaped(t[k]);
      }
      assert t[|t|..] == [];
      b := b + [QUOTE];
    }

    method W(o: Tree)
      modifies this
      ensures b == old(b) + Write(o)
      decreases o, 3
    {
      match o
      case Null => b := b + NULL;
      case Bool(x) => b := b + (if x then TRUE else FALSE);
      case Number(token) => b := b + token;
      case Str(t) => WStr(t);
      case Arr(items) => WArr(items);
      case Obj(members) => WObj(members);
    }

    method WItem(items: seq<Tree>, k: nat)
      requires k < |items|
      modifies this
      ensures b + RestOfItems(items, k + 1) == old(b) + RestOfItems(items, k)
      decreases items, 0
    {
      RestStep(items, k);
      Regroup(b, if k == 0 then [] else [COMMA], Write(items[k]), RestOfItems(items, k + 1));
      b := b + (if k == 0 then [] else [COMMA]);
      W(items[k]);
    }

    method WItems(items: seq<Tree>)
      modifies this
      ensures b == old(b) + RestOfItems(items, 0)
      decreases items, 1
    {
      for k := 0 to |items|
        invariant b + RestOfItems(items, k) == old(b) + RestOfItems(items, 0)
      {
        WItem(items, k);
      }
      b := b + [CLOSE_ARR];
    }

    method WArr(items: seq<Tree>)
      modifies this
      ensures b == old(b) + ([OPEN_ARR] + ItemsText(items))
      decreases items, 2
    {
      b := b + [OPEN_ARR];
      WItems(items);
      RestAtStart(items);
      Regroup(old(b), [OPEN_ARR], ItemsText(items), []);
    }

    method WMember(members: seq<Member>, k: nat)
      requires k < |members|
      modifies this
      ensures b + RestOfMembers(members, k + 1) == old(b) + RestOfMembers(members, k)
      decreases members, 0
    {
      var m := members[k];
      RestStepMembers(members, k);
      ghost var rest := RestOfMembers(members, k + 1);
      Regroup(b, if k == 0 then [] else [COMMA], StrText(m.key), [COLON] + (Write(m.value) + rest));
      b := b + (if k == 0 then [] else [COMMA]);
      WStr(m.key);
      Regroup(b, [COLON], Write(m.value), rest);
      b := b + [COLON];
      W(m.value);
    }

    method WMembers(members: seq<Member>)
      modifies this
      ensures b == old(b) + RestOfMembers(members, 0)
      decreases members, 1
    {
      for k := 0 to |members|
        invariant b + RestOfMembers(members, k) == old(b) + RestOfMembers(members, 0)
      {
        WMember(members, k);
      }
      b := b + [CLOSE_OBJ];
    }

    method WObj(members: seq<Member>)
      modifies this
      ensures b == old(b) + ([OPEN_OBJ] + MembersText(members))
      decreases members, 2
    {
      b := b + [OPEN_OBJ];
      WMembers(members);
      RestAtStartMembers(members);
      Regroup(old(b), [OPEN_OBJ], MembersText(members), []);
    }
  }

  lemma {:induction false} CharsStep(t: Text, k: nat)
    requires k < |t|
    ensures CharsText(t[k..]) == Escaped(t[k]) + CharsText(t[k + 1..])
  {
    assert t[k..][1..] == t[k + 1..];
  }

  lemma {:induction false} Regroup(b: Text, c: Text, w: Text, r: Text)
    ensures b + (c + (w + r)) == b + c + w + r
    ensures r == [] ==> b + (c + w) == b + c + w
  {}

  lemma {:induction false} RestAtStart(items: seq<Tree>)
    ensures RestOfItems(items, 0) == ItemsText(items) && RestOfItems(items, |items|) == [CLOSE_ARR]
  {
    if items != [] { assert items[0..] == items; }
  }

  lemma {:induction false} RestAtStartMembers(members: seq<Member>)
    ensures RestOfMembers(members, 0) == MembersText(members) && RestOfMembers(members, |members|) == [CLOSE_OBJ]
  {
    if members != [] { assert members[0..] == members; }
  }

  /** What is still to be written once `k` items are. */
  ghost function RestOfItems(items: seq<Tree>, k: nat): Text
    requires k <= |items|
  {
    if k == |items| then [CLOSE_ARR] else (if k == 0 then [] else [COMMA]) + ItemsText(items[k..])
  }

  lemma {:induction false} RestStep(items: seq<Tree>, k: nat)
    requires k < |items|
    ensures RestOfItems(items, k) == (if k == 0 then [] else [COMMA]) + (Write(items[k]) + RestOfItems(items, k + 1))
  {
    assert items[k..][1..] == items[k + 1..];
    ItemsSplit(items[k..]);
  }

  ghost function RestOfMembers(members: seq<Member>, k: nat): Text
    requires k <= |members|
  {
    if k == |members| then [CLOSE_OBJ] else (if k == 0 then [] else [COMMA]) + MembersText(members[k..])
  }

  lemma {:induction false} RestStepMembers(members: seq<Member>, k: nat)
    requires k < |members|
    ensures RestOfMembers(members, k) ==
            (if k == 0 then [] else [COMMA])
            + (StrText(members[k].key) + ([COLON] + (Write(members[k].value) + RestOfMembers(members, k + 1))))
  {
    assert members[k..][1..] == members[k + 1..];
    MembersSplit(members[k..]);
  }

  /** Parsing a JSON document, in any layout and with any escapes, gives the tree it stands for. */
  method Parse(e: Elem) returns (r: Option<Tree>)
    requires ValidElem(e, JsonSpace)
    ensures r == Some(Meaning(e.doc))
  {
    var p := new Parser(JavaSpace, e.before + (Spell(e.doc) + e.after));
    ReadsJson(e);
    r := p.Value();
  }

  /** Writing a tree and parsing what was written gives the tree back. */
  method RoundTrip(o: Tree) returns (back: Option<Tree>)
    requires WellFormed(o)
    ensures back == Some(o)
  {
    var w := new Builder();
    w.W(o);
    assert [] + Write(o) == Write(o);
    var p := new Parser(JavaSpace, w.b);
    WriteThenRead(JavaSpace, o);
    back := p.Value();
  }
}
