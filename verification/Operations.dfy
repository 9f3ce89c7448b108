/** What each data operation does and answers, in plain terms. */
module Operations {
  import opened Seqs
  import opened Values
  import opened Timed

  /** What a store promises of an operation: from what was there to the answer and what is there then. */
  ghost predicate Promised(op: Op, o: Option<Value>, res: Result, o': Option<Value>) {
    match op
    case Get => res == Got(o) && o' == o
    case Put(v) => res == Done && o' == Some(v)
    case Delete => res == Done && o' == None
    case Cas(want, update) =>
      if o == want then res == Swapped(true) && o' == Some(update) else res == Swapped(false) && o' == o
    case Incr(d) =>
      && (o == None && InI64(d) ==> res == Counted(Some(d)) && o' == Some(Int(d)))
      && (o.Some? && o.value.Int? && MIN_I64 <= o.value.i + d <= MAX_I64 ==>
            res == Counted(Some(o.value.i + d)) && o' == Some(Int(o.value.i + d)))
    case SetAdd(m) =>
      res == Swapped(m !in Members(o)) && forall x :: x in Members(o') <==> x == m || x in Members(o)
    case SetRemove(m) =>
      res == Swapped(m in Members(o)) && forall x :: x in Members(o') <==> x != m && x in Members(o)
  }

  lemma {:induction false} PromiseKept(op: Op, o: Option<Value>)
    ensures Promised(op, o, AnswerOf(op, o), Apply(op, o).0)
  {
    match op
    case SetRemove(m) => RemoveKept(m, o);
    case _ =>
  }

  lemma {:induction false} RemoveKept(m: string, o: Option<Value>)
    ensures Promised(SetRemove(m), o, AnswerOf(SetRemove(m), o), Apply(SetRemove(m), o).0)
  {
    var xs, left := Members(o), Members(Apply(SetRemove(m), o).0);
    SetRemoveAnswers(m, o);
    forall x ensures x in left <==> x != m && x in xs {
      assert (x in xs <==> x in multiset(xs)) && (x in left <==> x in multiset(left));
    }
  }

  // ---------------------------------------------------------------- get, put, delete, compare-and-set

  /** A get changes nothing, a put replaces, a delete leaves nothing. */
  lemma {:induction false} PlainOps(o: Option<Value>, v: Value)
    ensures Apply(Get, o) == (o, Got(o)) && Apply(Put(v), o) == (Some(v), Done) && Apply(Delete, o) == (None, Done)
  {}

  /** A compare-and-set writes its value exactly when it finds what it was told to expect, and says so. */
  lemma {:induction false} CasSwapsIff(want: Option<Value>, update: Value, o: Option<Value>)
    ensures o == want ==> Apply(Cas(want, update), o) == (Some(update), Swapped(true))
    ensures o != want ==> Apply(Cas(want, update), o) == (o, Swapped(false))
  {}

  // ---------------------------------------------------------------- counters

  const TWO_64: int := 0x1_0000_0000_0000_0000

  lemma {:induction false} WrapAddIs(a: int, d: int)
    requires InI64(a) && InI64(d)
    ensures WrapAdd(a, d)
            == if a + d > MAX_I64 then a + d - TWO_64 else if a + d < MIN_I64 then a + d + TWO_64 else a + d
  {}

  /** A counter that holds `n` answers and holds the sum, brought back by 2^64 where it leaves 64 bits. */
  lemma {:induction false} IncrAdds(n: int, d: int)
    requires InI64(n) && InI64(d)
    ensures MIN_I64 <= n + d <= MAX_I64 ==> Apply(Incr(d), Some(Int(n))) == (Some(Int(n + d)), Counted(Some(n + d)))
    ensures n + d > MAX_I64 ==>
              Apply(Incr(d), Some(Int(n))) == (Some(Int(n + d - TWO_64)), Counted(Some(n + d - TWO_64)))
    ensures n + d < MIN_I64 ==>
              Apply(Incr(d), Some(Int(n))) == (Some(Int(n + d + TWO_64)), Counted(Some(n + d + TWO_64)))
  {}

  /** An absent counter starts at 0, one stored as text at the number the text stands for. */
  lemma {:induction false} IncrStarts(d: int, i: int, before: string, after: string)
    requires InI64(d) && InI64(i)
    requires (forall c :: c in before ==> IsSpace(c)) && (forall c :: c in after ==> IsSpace(c))
    ensures Apply(Incr(d), None) == (Some(Int(d)), Counted(Some(d)))
    ensures Apply(Incr(d), Some(Text(before + Decimal(i) + after))) == Apply(Incr(d), Some(Int(i)))
  {
    CounterText(i, before, after);
  }

  /** What does not stand for a 64-bit integer is left alone and not counted. */
  lemma {:induction false} IncrRefuses(d: int, items: seq<string>, id: int, s: string)
    ensures Apply(Incr(d), Some(Strings(items))) == (Some(Strings(items)), Counted(None))
    ensures Apply(Incr(d), Some(Opaque(id))) == (Some(Opaque(id)), Counted(None))
    ensures ParseInt(Trim(s)) == None ==> Apply(Incr(d), Some(Text(s))) == (Some(Text(s)), Counted(None))
  {}

  /** Counting by `d` and then by `e` ends and answers as counting once by their sum, brought back to 64 bits. */
  lemma {:induction false} IncrTwice(d: int, e: int, sum: int, o: Option<Value>)
    requires InI64(d) && InI64(e) && AsCounter(o).Some? && InI64(AsCounter(o).value)
    requires InI64(sum) && (sum == d + e || sum == d + e - TWO_64 || sum == d + e + TWO_64)
    ensures Apply(Incr(e), Apply(Incr(d), o).0) == Apply(Incr(sum), o)
  {
    var n := AsCounter(o).value;
    WrapAddIs(n, d);
    WrapAddIs(WrapAdd(n, d), e);
    WrapAddIs(n, sum);
    assert Apply(Incr(d), o).0 == Some(Int(WrapAdd(n, d)));
  }

  // ---------------------------------------------------------------- decimal text

  function Digit(d: nat): char
    requires d < 10
  {
    '0' + d as char
  }

  /** The decimal digits of a number. */
  function DigitsOf(n: nat): string { (if n < 10 then [] else DigitsOf(n / 10)) + [Digit(n % 10)] }

  function Decimal(i: int): string { if i < 0 then ['-'] + DigitsOf(-i) else DigitsOf(i) }

  lemma {:induction false} DigitsBack(n: nat)
    ensures Digits(DigitsOf(n)) == Some(n) && DigitsOf(n) != [] && forall c :: c in DigitsOf(n) ==> IsDigit(c)
  {
    var s := DigitsOf(n);
    assert s[|s| - 1] == Digit(n % 10);
    if n >= 10 {
      DigitsBack(n / 10);
      assert s[..|s| - 1] == DigitsOf(n / 10);
    } else {
      assert s == [Digit(n % 10)];
    }
  }

  lemma {:induction false} SignedBack(sign: char, s: string, n: nat)
    requires Digits(s) == Some(n) && s != [] && (sign == '-' || sign == '+')
    ensures var i := if sign == '-' then -(n as int) else n as int;
            ParseInt([sign] + s) == if InI64(i) then Some(i) else None
  {
    assert ([sign] + s)[1..] == s;
  }

  lemma {:induction false} UnsignedBack(s: string, n: nat)
    requires Digits(s) == Some(n) && s != [] && IsDigit(s[0])
    ensures ParseInt(s) == if InI64(n) then Some(n) else None
  {}

  /** The decimal text of an integer, with or without a plus sign, parses to it exactly when it fits into 64 bits. */
  lemma {:induction false} DecimalBack(i: int)
    ensures ParseInt(Decimal(i)) == if InI64(i) then Some(i) else None
    ensures i >= 0 ==> ParseInt(['+'] + Decimal(i)) == if InI64(i) then Some(i) else None
  {
    var n := if i < 0 then -i else i;
    var s := DigitsOf(n);
    DigitsBack(n);
    assert s[0] in s;
    SignedBack('-', s, n);
    SignedBack('+', s, n);
    UnsignedBack(s, n);
  }

  ghost predicate AllDigits(s: string) { forall i :: 0 <= i < |s| ==> IsDigit(s[i]) }

  lemma {:induction false} DigitsOnly(s: string)
    ensures Digits(s).Some? <==> s != [] && AllDigits(s)
  {
    if s != [] {
      var n := |s| - 1;
      if n > 0 { DigitsOnly(s[..n]); }
      assert AllDigits(s) <==> AllDigits(s[..n]) && IsDigit(s[n]);
    }
  }

  /** Nothing parses but digits after at most one sign. */
  lemma {:induction false} ParsesOnlyDecimals(s: string)
    requires ParseInt(s).Some?
    ensures s != [] && var t := if s[0] == '-' || s[0] == '+' then s[1..] else s;
            t != [] && AllDigits(t)
  {
    DigitsOnly(if s[0] == '-' || s[0] == '+' then s[1..] else s);
  }

  lemma {:induction false} TrimPads(before: string, s: string, after: string)
    requires (forall c :: c in before ==> IsSpace(c)) && (forall c :: c in after ==> IsSpace(c))
    requires s != [] && !IsSpace(s[0]) && !IsSpace(s[|s| - 1])
    ensures Trim(before + s + after) == s
    decreases |before| + |after|
  {
    var t := before + s + after;
    if before != [] {
      assert t[0] == before[0] && before[0] in before;
      assert t[1..] == before[1..] + s + after;
      TrimPads(before[1..], s, after);
    } else if after != [] {
      assert t[0] == s[0] && t[|t| - 1] == after[|after| - 1] && after[|after| - 1] in after;
      assert t[..|t| - 1] == before + s + after[..|after| - 1];
      TrimPads(before, s, after[..|after| - 1]);
    } else {
      assert t == s;
    }
  }

  /** The decimal text of a 64-bit integer counts as that integer, surrounding space or not. */
  lemma {:induction false} CounterText(i: int, before: string, after: string)
    requires InI64(i)
    requires (forall c :: c in before ==> IsSpace(c)) && (forall c :: c in after ==> IsSpace(c))
    ensures AsCounter(Some(Text(before + Decimal(i) + after))) == Some(i)
  {
    DecimalBack(i);
    DecimalEnds(i);
    TrimPads(before, Decimal(i), after);
  }

  lemma {:induction false} DecimalEnds(i: int)
    ensures var s := Decimal(i); s != [] && !IsSpace(s[0]) && !IsSpace(s[|s| - 1])
  {
    var s, n := Decimal(i), if i < 0 then -i else i;
    DigitsBack(n);
    assert s[0] == '-' || s[0] in DigitsOf(n);
    assert s[|s| - 1] in DigitsOf(n);
  }

  // ---------------------------------------------------------------- sets

  /** What is not an array of strings is an empty set. */
  lemma {:induction false} OtherValuesAreEmpty(v: Value, m: string)
    requires !v.Strings?
    ensures Apply(SetAdd(m), Some(v)).0 == Some(Strings([m])) && Apply(SetRemove(m), Some(v)).0 == Some(v)
    ensures Apply(SetAdd(m), None).0 == Some(Strings([m])) && Apply(SetRemove(m), None).0 == None
  {
    assert Members(Some(v)) == [] && Members(None) == [] && [] + [m] == [m];
  }

  lemma {:induction false} WithoutCounts(xs: seq<string>, m: string)
    ensures multiset(Without(xs, m)) == multiset(xs)[m := 0] && |Without(xs, m)| == |xs| - multiset(xs)[m]
  {
    if xs != [] {
      assert xs == [xs[0]] + xs[1..];
      WithoutCounts(xs[1..], m);
    }
  }

  /**
   * An add answers whether the member was missing. It then stands behind the others, and a set that
   * has it already is left alone.
   */
  lemma {:induction false} SetAddAnswers(m: string, o: Option<Value>)
    ensures AnswerOf(SetAdd(m), o) == Swapped(m !in Members(o))
    ensures m in Members(o) ==> Apply(SetAdd(m), o).0 == o
    ensures m !in Members(o) ==> Apply(SetAdd(m), o).0 == Some(Strings(Members(o) + [m]))
  {}

  /**
   * A remove answers whether the member was there. All its copies go and nothing else does, and a
   * set that empties leaves nothing behind.
   */
  lemma {:induction false} SetRemoveAnswers(m: string, o: Option<Value>)
    ensures AnswerOf(SetRemove(m), o) == Swapped(m in Members(o))
    ensures m !in Members(o) ==> Apply(SetRemove(m), o).0 == o
    ensures m in Members(o) ==>
              var left := Apply(SetRemove(m), o).0;
              && multiset(Members(left)) == multiset(Members(o))[m := 0]
              && (left == None <==> forall x :: x in Members(o) ==> x == m)
  {
    RemoveLeaves(m, o);
    WithoutCounts(Members(o), m);
    WithoutEmpty(Members(o), m);
  }

  lemma {:induction false} RemoveLeaves(m: string, o: Option<Value>)
    ensures AnswerOf(SetRemove(m), o) == Swapped(m in Members(o))
    ensures var rest := Without(Members(o), m);
            Apply(SetRemove(m), o).0
            == if m !in Members(o) then o else if rest == [] then None else Some(Strings(rest))
  {
    WithoutShorter(Members(o), m);
  }

  lemma {:induction false} WithoutShorter(xs: seq<string>, m: string)
    ensures |Without(xs, m)| == |xs| <==> m !in xs
  {
    WithoutCounts(xs, m);
    assert m in xs <==> multiset(xs)[m] > 0;
  }

  /** What a remove leaves keeps its order. */
  lemma {:induction false} SetRemoveKeepsOrder(m: string, o: Option<Value>)
    ensures forall x, y :: Precedes(Members(Apply(SetRemove(m), o).0), x, y) ==> Precedes(Members(o), x, y)
  {
    WithoutOrder(Members(o), m);
  }

  lemma {:induction false} WithoutEmpty(xs: seq<string>, m: string)
    ensures Without(xs, m) == [] <==> forall x :: x in xs ==> x == m
  {
    if xs != [] {
      WithoutEmpty(xs[1..], m);
      assert xs == [xs[0]] + xs[1..];
      assert xs[0] in xs && forall x :: x in xs[1..] ==> x in xs;
    }
  }

  /** Some copy of `x` stands before some copy of `y`. */
  ghost predicate Precedes(xs: seq<string>, x: string, y: string) {
    exists i, j :: 0 <= i < j < |xs| && xs[i] == x && xs[j] == y
  }

  lemma {:induction false} WithoutOrder(xs: seq<string>, m: string)
    ensures forall x, y :: Precedes(Without(xs, m), x, y) ==> Precedes(xs, x, y)
    ensures forall x :: x in Without(xs, m) ==> x in xs
  {
    if xs != [] {
      var rest := Without(xs[1..], m);
      WithoutOrder(xs[1..], m);
      forall x, y | Precedes(Without(xs, m), x, y) ensures Precedes(xs, x, y) {
        var ws := Without(xs, m);
        var i, j :| 0 <= i < j < |ws| && ws[i] == x && ws[j] == y;
        if xs[0] != m && i == 0 {
          assert y == rest[j - 1] && y in xs[1..];
          var b :| 0 <= b < |xs[1..]| && xs[1..][b] == y;
          assert xs[0] == x && xs[b + 1] == y;
        } else {
          var d := if xs[0] == m then 0 else 1;
          assert rest[i - d] == x && rest[j - d] == y;
          assert Precedes(rest, x, y);
          var a, b :| 0 <= a < b < |xs[1..]| && xs[1..][a] == x && xs[1..][b] == y;
          assert xs[a + 1] == x && xs[b + 1] == y;
        }
      }
    }
  }
}
