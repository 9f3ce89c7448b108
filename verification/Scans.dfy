/** Range scans over one store: the plain sort-filter-take form and the cursor that refines it. */
module Scans {
  import opened Seqs
  import opened KeyOrder

  /** Keys above `after`, starting with `prefix`, below `end`; each bound may be absent. */
  datatype Range = Range(after: Option<string>, prefix: Option<string>, end: Option<string>)

  predicate Above(k: string, after: Option<string>) { after.Some? ==> Less(after.value, k) }

  predicate Matches(k: string, r: Range) {
    Above(k, r.after) && (r.prefix.Some? ==> r.prefix.value <= k) && (r.end.Some? ==> Less(k, r.end.value))
  }

  function Grown(out: seq<string>, k: string, add: bool): seq<string> { if add then out + [k] else out }

  /** The kept ones among the first `n`. */
  function Kept(s: seq<string>, n: nat, keep: string -> bool): seq<string>
    requires n <= |s|
  {
    if n == 0 then [] else Grown(Kept(s, n - 1, keep), s[n - 1], keep(s[n - 1]))
  }

  function Filter(s: seq<string>, keep: string -> bool): seq<string> { Kept(s, |s|, keep) }

  function Take(s: seq<string>, n: nat): seq<string> { s[..Min(|s|, n)] }

  function InRange(r: Range): string -> bool { k => Matches(k, r) }

  /** The default scan over the ascending live keys of a collection. */
  function ScanRange(keys: seq<string>, r: Range, limit: nat): seq<string> { Take(Filter(keys, InRange(r)), limit) }

  // ---------------------------------------------------------------- filtering

  lemma {:induction false} KeptElems(s: seq<string>, n: nat, keep: string -> bool)
    requires n <= |s|
    ensures Elems(Kept(s, n, keep)) == set i | 0 <= i < n && keep(s[i]) :: s[i]
  {
    if n > 0 {
      KeptElems(s, n - 1, keep);
      ElemsConcat(Kept(s, n - 1, keep), [s[n - 1]]);
    }
  }

  lemma {:induction false} FilterElems(s: seq<string>, keep: string -> bool)
    ensures Elems(Filter(s, keep)) == set k | k in s && keep(k)
  {
    KeptElems(s, |s|, keep);
  }

  lemma {:induction false} KeptSorted(s: seq<string>, n: nat, keep: string -> bool)
    requires n <= |s| && SortedBy(s, Less)
    ensures SortedBy(Kept(s, n, keep), Less)
  {
    if n > 0 {
      var t := Kept(s, n - 1, keep);
      KeptSorted(s, n - 1, keep);
      KeptElems(s, n - 1, keep);
      forall i | 0 <= i < |t| ensures Less(t[i], s[n - 1]) {
        assert t[i] in Elems(t);
      }
      SortedSnoc(t, s[n - 1]);
    }
  }

  lemma {:induction false} SortedSnoc(s: seq<string>, k: string)
    requires SortedBy(s, Less) && forall i :: 0 <= i < |s| ==> Less(s[i], k)
    ensures SortedBy(s + [k], Less)
  {
    var t := s + [k];
    forall i, j | 0 <= i < j < |t| ensures Less(t[i], t[j]) {
      assert t[i] == s[i];
      if j < |s| { assert t[j] == s[j]; }
    }
  }

  lemma {:induction false} FilterSorted(s: seq<string>, keep: string -> bool)
    requires SortedBy(s, Less)
    ensures SortedBy(Filter(s, keep), Less)
  {
    KeptSorted(s, |s|, keep);
  }

  /** The stretch from `i` to `n` adds nothing when none of it is kept. */
  lemma {:induction false} KeptNoMore(s: seq<string>, i: nat, n: nat, keep: string -> bool)
    requires i <= n <= |s| && forall j :: i <= j < n ==> !keep(s[j])
    ensures Kept(s, n, keep) == Kept(s, i, keep)
  {
    if i < n { KeptNoMore(s, i, n - 1, keep); }
  }

  lemma {:induction false} KeptGrows(s: seq<string>, i: nat, n: nat, keep: string -> bool)
    requires i <= n <= |s|
    ensures Kept(s, i, keep) <= Kept(s, n, keep)
  {
    if i < n { KeptGrows(s, i, n - 1, keep); }
  }

  lemma {:induction false} KeptAlike(s: seq<string>, n: nat, p: string -> bool, q: string -> bool)
    requires n <= |s| && forall i :: 0 <= i < n ==> p(s[i]) == q(s[i])
    ensures Kept(s, n, p) == Kept(s, n, q)
  {
    if n > 0 { KeptAlike(s, n - 1, p, q); }
  }

  lemma {:induction false} KeptAppend(s: seq<string>, k: string, n: nat, keep: string -> bool)
    requires n <= |s|
    ensures Kept(s + [k], n, keep) == Kept(s, n, keep)
  {
    if n > 0 { KeptAppend(s, k, n - 1, keep); }
  }

  lemma {:induction false} KeptTwice(s: seq<string>, n: nat, p: string -> bool, q: string -> bool, both: string -> bool)
    requires n <= |s| && forall k :: k in s ==> (both(k) <==> p(k) && q(k))
    ensures Filter(Kept(s, n, p), q) == Kept(s, n, both)
  {
    if n > 0 {
      KeptTwice(s, n - 1, p, q, both);
      KeptAppend(Kept(s, n - 1, p), s[n - 1], |Kept(s, n - 1, p)|, q);
    }
  }

  lemma {:induction false} FilterTwice(s: seq<string>, p: string -> bool, q: string -> bool, both: string -> bool)
    requires forall k :: k in s ==> (both(k) <==> p(k) && q(k))
    ensures Filter(Filter(s, p), q) == Filter(s, both)
  {
    KeptTwice(s, |s|, p, q, both);
  }

  // ---------------------------------------------------------------- what a scan returns

  /** A key above `after`, with the prefix, below `end`. */
  ghost predicate Between(k: string, after: Option<string>, prefix: Option<string>, end: Option<string>) {
    && (after.Some? ==> Less(after.value, k)) && (prefix.Some? ==> prefix.value <= k)
    && (end.Some? ==> Less(k, end.value))
  }

  /**
   * Ascending keys within the bounds, at most `limit` of them: all there are, or else all up to the
   * last one returned.
   */
  ghost predicate ScanOf(out: seq<string>, live: set<string>, after: Option<string>, prefix: Option<string>,
                         end: Option<string>, limit: nat) {
    && SortedBy(out, Less) && |out| <= limit
    && (forall k :: k in out ==> k in live && Between(k, after, prefix, end))
    && (forall k :: k in live && Between(k, after, prefix, end) && k !in out ==>
          |out| == limit && (out != [] ==> Less(out[|out| - 1], k)))
  }

  lemma {:induction false} ScanIsDirect(keys: seq<string>, r: Range, limit: nat)
    requires SortedBy(keys, Less)
    ensures ScanOf(ScanRange(keys, r, limit), Elems(keys), r.after, r.prefix, r.end, limit)
  {
    var all, out := Filter(keys, InRange(r)), ScanRange(keys, r, limit);
    FilterElems(keys, InRange(r));
    FilterSorted(keys, InRange(r));
    forall k | k in out ensures k in Elems(keys) && Between(k, r.after, r.prefix, r.end) { assert k in Elems(all); }
    forall k | k in Elems(keys) && Between(k, r.after, r.prefix, r.end) && k !in out
      ensures |out| == limit && (out != [] ==> Less(out[|out| - 1], k))
    {
      assert k in Elems(all);
      var i :| 0 <= i < |all| && all[i] == k;
      assert all[..|out|] == out;
    }
  }

  // ---------------------------------------------------------------- the cursor

  /** Where the cursor starts: the tighter of the page cursor (exclusive) and the prefix (inclusive). */
  datatype Bound = Unbounded | Excluded(k: string) | Included(k: string)

  function LowerBound(r: Range): Bound {
    match (r.after, r.prefix)
    case (Some(a), Some(p)) => if Less(a, p) then Included(p) else Excluded(a)
    case (Some(a), None) => Excluded(a)
    case (None, Some(p)) => Included(p)
    case (None, None) => Unbounded
  }

  predicate Reaches(k: string, b: Bound) {
    match b
    case Unbounded => true
    case Excluded(a) => Less(a, k)
    case Included(p) => !Less(k, p)
  }

  /** What the bound leaves out cannot match; what it lets in is above the cursor and the prefix. */
  lemma {:induction false} BoundIsTight(k: string, r: Range)
    ensures !Reaches(k, LowerBound(r)) ==> !Matches(k, r)
    ensures Reaches(k, LowerBound(r)) ==> Above(k, r.after) && (r.prefix.Some? ==> !Less(k, r.prefix.value))
  {
    if r.prefix.Some? {
      var p := r.prefix.value;
      if p <= k { PrefixNotAbove(p, k); }
      if r.after.Some? {
        var a := r.after.value;
        LessTotal(a, p);
        LessTotal(p, k);
        if Less(a, p) && Less(p, k) { LessTransitive(a, p, k); }
        if Less(p, a) && Less(a, k) { LessTransitive(p, a, k); }
        if Less(p, k) { LessAsymmetric(p, k); }
      }
    }
  }

  lemma {:induction false} BoundIsUpward(k: string, k': string, r: Range)
    requires Reaches(k, LowerBound(r)) && Less(k, k')
    ensures Reaches(k', LowerBound(r))
  {
    match LowerBound(r)
    case Unbounded =>
    case Excluded(a) => LessTransitive(a, k, k');
    case Included(p) =>
      if Less(k', p) { LessTransitive(k, k', p); }
  }

  /** Where the cursor breaks off: at or past the end bound, or at a key without the prefix. */
  predicate Past(k: string, r: Range) {
    (r.end.Some? && !Less(k, r.end.value)) || (r.prefix.Some? && !(r.prefix.value <= k))
  }

  /** Past the end bound, or past the keys with the prefix, nothing matches any more. */
  lemma {:induction false} NothingFurther(k: string, k': string, r: Range)
    requires Reaches(k, LowerBound(r)) && (k' == k || Less(k, k')) && Past(k, r)
    ensures !Matches(k', r)
  {
    BoundIsTight(k, r);
    if k' != k {
      if r.end.Some? && !Less(k, r.end.value) && Less(k', r.end.value) {
        LessTransitive(k, k', r.end.value);
      }
      if r.prefix.Some? && !(r.prefix.value <= k) && r.prefix.value <= k' {
        PrefixContiguous(r.prefix.value, k, k');
      }
    }
  }

  /** The first position the lower bound lets in. */
  method Seek(cursor: seq<string>, r: Range) returns (i: nat)
    requires SortedBy(cursor, Less)
    ensures i <= |cursor| && (forall j :: 0 <= j < i ==> !Matches(cursor[j], r))
    ensures forall j :: i <= j < |cursor| ==> Reaches(cursor[j], LowerBound(r))
  {
    i := 0;
    while i < |cursor| && !Reaches(cursor[i], LowerBound(r))
      invariant i <= |cursor| && forall j :: 0 <= j < i ==> !Matches(cursor[j], r)
    {
      BoundIsTight(cursor[i], r);
      i := i + 1;
    }
    forall j | i <= j < |cursor| ensures Reaches(cursor[j], LowerBound(r)) {
      if i < j { BoundIsUpward(cursor[i], cursor[j], r); }
    }
  }

  /** The limit is met at position `i`: the rest does not matter. */
  lemma {:induction false} FullAt(s: seq<string>, i: nat, n: nat, keep: string -> bool)
    requires i <= |s| && |Kept(s, i, keep)| == n
    ensures Take(Filter(s, keep), n) == Kept(s, i, keep)
  {
    KeptGrows(s, i, |s|, keep);
  }

  /** Walks forward from `start`; ends at the limit or at the first key past the bounds. */
  method Walk(cursor: seq<string>, start: nat, past: string -> bool, limit: nat, live: string -> bool,
              ghost keep: string -> bool)
    returns (out: seq<string>)
    requires start <= |cursor| && Kept(cursor, start, keep) == []
    requires forall j :: start <= j < |cursor| && !past(cursor[j]) ==> (keep(cursor[j]) <==> live(cursor[j]))
    requires forall i, j :: start <= i <= j < |cursor| && past(cursor[i]) ==> !keep(cursor[j])
    ensures out == Take(Filter(cursor, keep), limit)
  {
    out := [];
    for i := start to |cursor|
      invariant out == Kept(cursor, i, keep) && |out| <= limit
    {
      var k := cursor[i];
      if |out| >= limit {
        FullAt(cursor, i, limit, keep);
        return;
      }
      if past(k) {
        KeptNoMore(cursor, i, |cursor|, keep);
        return;
      }
      if live(k) { out := out + [k]; }
    }
  }

  /**
   * The cursor scan: seek to the lower bound, then walk until the end bound or the first key without
   * the prefix. `cursor` lists the keys of the collection, expired ones included, in key order.
   */
  method CursorScan(cursor: seq<string>, r: Range, limit: nat, live: string -> bool) returns (out: seq<string>)
    requires SortedBy(cursor, Less)
    ensures out == ScanRange(Filter(cursor, live), r, limit)
    ensures ScanOf(out, (set k | k in cursor && live(k)), r.after, r.prefix, r.end, limit)
  {
    ghost var keep := (k: string) => live(k) && Matches(k, r);
    FilterTwice(cursor, live, InRange(r), keep);
    var start := Seek(cursor, r);
    KeptNoMore(cursor, 0, start, keep);
    forall j | start <= j < |cursor| && !Past(cursor[j], r) ensures keep(cursor[j]) <==> live(cursor[j]) {
      BoundIsTight(cursor[j], r);
    }
    forall i, j | start <= i <= j < |cursor| && Past(cursor[i], r) ensures !keep(cursor[j]) {
      NothingFurther(cursor[i], cursor[j], r);
    }
    out := Walk(cursor, start, k => Past(k, r), limit, live, keep);
    FilteredScan(cursor, r, limit, live);
  }

  lemma {:induction false} FilteredScan(cursor: seq<string>, r: Range, limit: nat, live: string -> bool)
    requires SortedBy(cursor, Less)
    ensures ScanOf(ScanRange(Filter(cursor, live), r, limit), (set k | k in cursor && live(k)), r.after, r.prefix,
                   r.end, limit)
  {
    FilterElems(cursor, live);
    FilterSorted(cursor, live);
    ScanIsDirect(Filter(cursor, live), r, limit);
    assert Elems(Filter(cursor, live)) == set k | k in cursor && live(k);
  }

  /** Keeping the live keys of an ascending listing gives the listing of the live keys. */
  lemma {:induction false} FilteredListing(cursor: seq<string>, live: string -> bool, ks: set<string>)
    requires SortedBy(cursor, Less) && ks == set k | k in cursor && live(k)
    ensures Filter(cursor, live) == Listing(ks)
  {
    FilterSorted(cursor, live);
    FilterElems(cursor, live);
    ListingUnique(Filter(cursor, live), Listing(ks));
  }

  /** The default scan sorts whatever order the keys come in. */
  method DefaultScan(entries: seq<string>, r: Range, limit: nat) returns (out: seq<string>)
    ensures out == ScanRange(Listing(Elems(entries)), r, limit)
    ensures ScanOf(out, Elems(entries), r.after, r.prefix, r.end, limit)
  {
    ScanIsDirect(Listing(Elems(entries)), r, limit);
    SortedFacts(entries);
    ListingUnique(Sorted(entries), Listing(Elems(entries)));
    out := ScanRange(Sorted(entries), r, limit);
  }
}
