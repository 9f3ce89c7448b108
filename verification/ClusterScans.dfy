/** The paged scan over all shards, on shards that do not change while it runs. */
module ClusterScans {
  import opened Seqs
  import opened KeyOrder
  import opened Scans
  import opened PagedScans

  /** The keys of all shards. */
  function Union(shards: seq<seq<string>>): set<string> {
    if shards == [] then {} else Union(shards[..|shards| - 1]) + Elems(shards[|shards| - 1])
  }

  lemma {:induction false} InUnion(shards: seq<seq<string>>, k: string)
    ensures k in Union(shards) <==> exists i :: 0 <= i < |shards| && k in shards[i]
  {
    if shards != [] {
      var n := |shards| - 1;
      InUnion(shards[..n], k);
      if i :| 0 <= i < |shards| && k in shards[i] {
        if i < n { assert k in shards[..n][i]; }
      }
    }
  }

  ghost predicate AllSorted(shards: seq<seq<string>>) {
    forall i :: 0 <= i < |shards| ==> SortedBy(shards[i], Less)
  }

  // ---------------------------------------------------------------- the first few of a union

  /** In a sparser listing a key stands no later than in a denser one. */
  lemma {:induction false} StandsNoLater(a: seq<string>, b: seq<string>, i: nat, j: nat)
    requires SortedBy(a, Less) && SortedBy(b, Less) && Elems(a) <= Elems(b)
    requires i < |a| && j < |b| && a[i] == b[j]
    ensures i <= j
  {
    var front := a[..i];
    forall x | x in Elems(front) ensures x in Elems(b[..j]) {
      assert Less(x, a[i]) && x in Elems(a);
      var p :| 0 <= p < |b| && b[p] == x;
      if p > j { LessAsymmetric(b[j], b[p]); }
      if p == j { LessAsymmetric(x, a[i]); }
      assert x == b[..j][p];
    }
    SortedNoDup(a);
    NoDupCard(front);
    ElemsCard(b[..j]);
    SubsetCard(Elems(front), Elems(b[..j]));
  }

  /** A listing that has the first few of another, and nothing beyond it, starts with them. */
  lemma {:induction false} StartsAlike(m: seq<string>, u: seq<string>, n: nat)
    requires SortedBy(m, Less) && SortedBy(u, Less)
    requires Elems(Take(u, n)) <= Elems(m) <= Elems(u)
    ensures Take(m, n) == Take(u, n)
  {
    var tm, tu := Take(m, n), Take(u, n);
    SortedNoDup(m);
    SortedNoDup(u);
    forall x | x in Elems(tu) ensures x in Elems(tm) {
      var j :| 0 <= j < |tu| && tu[j] == x;
      assert x in Elems(m);
      var i :| 0 <= i < |m| && m[i] == x;
      StandsNoLater(m, u, i, j);
      assert tm[i] == x;
    }
    NoDupCard(m);
    NoDupCard(u);
    SubsetCard(Elems(m), Elems(u));
    NoDupCard(tm);
    NoDupCard(tu);
    SubsetCard(Elems(tu), Elems(tm));
    ListingUnique(tm, tu);
  }

  /** What each shard contributes to a page. */
  function Contributions(shards: seq<seq<string>>, r: Range, limit: nat): seq<seq<string>> {
    seq(|shards|, i requires 0 <= i < |shards| => ScanRange(shards[i], r, limit))
  }

  lemma {:induction false} ContributionsMatch(shards: seq<seq<string>>, r: Range, limit: nat, k: string)
    requires k in Union(Contributions(shards, r, limit))
    ensures k in Union(shards) && Matches(k, r)
  {
    InUnion(Contributions(shards, r, limit), k);
    InUnion(shards, k);
    var i :| 0 <= i < |shards| && k in ScanRange(shards[i], r, limit);
    FilterElems(shards[i], InRange(r));
    assert k in Elems(Filter(shards[i], InRange(r)));
  }

  lemma {:induction false} FirstFewContributed(shards: seq<seq<string>>, r: Range, limit: nat, k: string)
    requires AllSorted(shards) && k in ScanRange(Listing(Union(shards)), r, limit)
    ensures k in Union(Contributions(shards, r, limit))
  {
    var all := Listing(Union(shards));
    var u := Filter(all, InRange(r));
    FilterElems(all, InRange(r));
    FilterSorted(all, InRange(r));
    var j :| 0 <= j < |Take(u, limit)| && Take(u, limit)[j] == k;
    assert k in Elems(u);
    InUnion(shards, k);
    var s :| 0 <= s < |shards| && k in shards[s];
    var f := Filter(shards[s], InRange(r));
    FilterElems(shards[s], InRange(r));
    FilterSorted(shards[s], InRange(r));
    forall x | x in Elems(f) ensures x in Elems(u) { InUnion(shards, x); }
    assert k in Elems(f);
    var i :| 0 <= i < |f| && f[i] == k;
    StandsNoLater(f, u, i, j);
    assert k == Take(f, limit)[i] && Contributions(shards, r, limit)[s] == Take(f, limit);
    InUnion(Contributions(shards, r, limit), k);
  }

  /** Merging the first `limit` matches of every shard gives the first `limit` matches of them all. */
  lemma {:induction false} MergeIsExact(shards: seq<seq<string>>, r: Range, limit: nat)
    requires AllSorted(shards)
    ensures Take(Listing(Union(Contributions(shards, r, limit))), limit) == ScanRange(Listing(Union(shards)), r, limit)
  {
    var m := Listing(Union(Contributions(shards, r, limit)));
    var u := Filter(Listing(Union(shards)), InRange(r));
    FilterSorted(Listing(Union(shards)), InRange(r));
    FilterElems(Listing(Union(shards)), InRange(r));
    forall k | k in Elems(Take(u, limit)) ensures k in Elems(m) { FirstFewContributed(shards, r, limit, k); }
    forall k | k in Elems(m) ensures k in Elems(u) {
      ContributionsMatch(shards, r, limit, k);
      assert k in Elems(Listing(Union(shards)));
    }
    StartsAlike(m, u, limit);
  }

  // ---------------------------------------------------------------- one page, and all pages

  /** The most keys that a shard behind HTTP returns for one call, whatever the limit. */
  const SCAN_CAP: nat := 10_000

  /** One page from shards that return at most `cap` keys a call. */
  ghost function Page(shards: seq<seq<string>>, r: Range, limit: nat, cap: nat): seq<string> {
    Take(Listing(Union(Contributions(shards, r, Min(limit, cap)))), limit)
  }

  function CursorOf(page: seq<string>, limit: nat): Option<string> {
    if |page| >= limit && page != [] then Some(page[|page| - 1]) else None
  }

  /** One page: every shard's part goes into an ordered set, whose first `limit` keys are the page. */
  method ScanPage(shards: seq<seq<string>>, r: Range, limit: nat, cap: nat)
    returns (page: seq<string>, cursor: Option<string>)
    ensures page == Page(shards, r, limit, cap) && cursor == CursorOf(page, limit)
    ensures AllSorted(shards) && limit <= cap ==> page == ScanRange(Listing(Union(shards)), r, limit)
    ensures AllSorted(shards) && limit <= cap ==> ScanOf(page, Union(shards), r.after, r.prefix, r.end, limit)
  {
    ghost var parts := Contributions(shards, r, Min(limit, cap));
    var merged := [];
    for i := 0 to |shards|
      invariant SortedBy(merged, Less) && Elems(merged) == Union(parts[..i])
    {
      var keys := ScanRange(shards[i], r, Min(limit, cap));
      InsertAllFacts(merged, keys);
      merged := InsertAll(merged, keys);
      assert parts[..i + 1][..i] == parts[..i] && parts[..i + 1][i] == keys;
    }
    assert parts[..|shards|] == parts;
    ListingUnique(merged, Listing(Union(parts)));
    if AllSorted(shards) { MergeIsExact(shards, r, limit); }
    ScanIsDirect(Listing(Union(shards)), r, limit);
    page := Take(merged, limit);
    cursor := CursorOf(page, limit);
  }

  /** How many keys are still above the cursor. */
  ghost function Left(shards: seq<seq<string>>, after: Option<string>): nat {
    |set k | k in Union(shards) && Above(k, after)|
  }

  lemma {:induction false} PageAdvances(shards: seq<seq<string>>, r: Range, limit: nat, cap: nat)
    requires Page(shards, r, limit, cap) != []
    ensures var page := Page(shards, r, limit, cap); Left(shards, Some(page[|page| - 1])) < Left(shards, r.after)
  {
    var page := Page(shards, r, limit, cap);
    var last := page[|page| - 1];
    var parts := Contributions(shards, r, Min(limit, cap));
    assert last in Elems(Listing(Union(parts)));
    ContributionsMatch(shards, r, Min(limit, cap), last);
    var now := set k | k in Union(shards) && Above(k, Some(last));
    var before := set k | k in Union(shards) && Above(k, r.after);
    forall k | k in now ensures k in before {
      if r.after.Some? { LessTransitive(r.after.value, last, k); }
    }
    if last in now { LessAsymmetric(last, last); }
    assert now <= before - {last};
    SubsetCard(now, before - {last});
  }

  /** The pages from a cursor on, one after the other. */
  ghost function AllPages(shards: seq<seq<string>>, r: Range, limit: nat, cap: nat): seq<string>
    decreases Left(shards, r.after)
  {
    var page := Page(shards, r, limit, cap);
    if CursorOf(page, limit).None? then page
    else
      PageAdvances(shards, r, limit, cap);
      page + AllPages(shards, r.(after := CursorOf(page, limit)), limit, cap)
  }

  /** The keys with the prefix and below the end, over all shards. */
  ghost function Wanted(shards: seq<seq<string>>, prefix: Option<string>, end: Option<string>): seq<string> {
    Filter(Listing(Union(shards)), InRange(Range(None, prefix, end)))
  }

  /** Some shard has the key. */
  ghost predicate OnSome(shards: seq<seq<string>>, k: string) {
    exists i :: 0 <= i < |shards| && k in shards[i]
  }

  lemma {:induction false} WantedIsDirect(shards: seq<seq<string>>, prefix: Option<string>, end: Option<string>)
    ensures var want := Wanted(shards, prefix, end);
            SortedBy(want, Less) && forall k :: k in want <==> OnSome(shards, k) && Between(k, None, prefix, end)
  {
    var all, r := Listing(Union(shards)), Range(None, prefix, end);
    var want := Wanted(shards, prefix, end);
    FilterSorted(all, InRange(r));
    FilterElems(all, InRange(r));
    forall k ensures k in want <==> OnSome(shards, k) && Between(k, None, prefix, end) {
      InUnion(shards, k);
      assert k in want <==> k in Elems(want);
      assert k in all <==> k in Elems(all);
    }
  }

  lemma {:induction false} TailPage(want: seq<string>, j: nat, after: Option<string>, above: string -> bool, limit: nat)
    requires SortedBy(want, Less) && j <= |want| && after == if j == 0 then None else Some(want[j - 1])
    requires forall k :: above(k) <==> Above(k, after)
    ensures Take(Filter(want, above), limit) == want[j..Min(|want|, j + limit)]
  {
    if j > 0 { AboveLast(want, j); }
    FilterTail(want, j, |want|, above);
  }

  /** The page after a position of the wanted keys is the next stretch of them. */
  lemma {:induction false} NextPage(all: seq<string>, p: string -> bool, r: Range, want: seq<string>, j: nat,
                                    limit: nat)
    requires SortedBy(all, Less) && want == Filter(all, p) && j <= |want|
    requires r.after == if j == 0 then None else Some(want[j - 1])
    requires forall k :: p(k) <==> Matches(k, Range(None, r.prefix, r.end))
    ensures ScanRange(all, r, limit) == want[j..Min(|want|, j + limit)]
  {
    var above := (k: string) => Above(k, r.after);
    FilterTwice(all, p, above, InRange(r));
    FilterSorted(all, p);
    TailPage(want, j, r.after, above, limit);
  }

  /** How far the pages read so far have come. */
  ghost predicate ReadUpTo(want: seq<string>, out: seq<string>, after: Option<string>, limit: nat) {
    && |out| <= |want| && out == want[..|out|]
    && after == (if out == [] then None else Some(want[|out| - 1]))
    && (limit == 0 ==> out == [])
  }

  lemma {:induction false} PageReads(want: seq<string>, out: seq<string>, after: Option<string>, page: seq<string>,
                                     limit: nat)
    requires ReadUpTo(want, out, after, limit) && page == want[|out|..Min(|want|, |out| + limit)]
    ensures page != [] ==> ReadUpTo(want, out + page, Some(page[|page| - 1]), limit)
    ensures |page| < limit ==> out + page == want
    ensures |page| <= limit
  {}

  /** Where no shard cuts a page short, a page is the next stretch of the wanted keys. */
  lemma {:induction false} PageIsNext(shards: seq<seq<string>>, r: Range, limit: nat, cap: nat, want: seq<string>,
                                      out: seq<string>)
    requires AllSorted(shards) && limit <= cap && want == Wanted(shards, r.prefix, r.end)
    requires ReadUpTo(want, out, r.after, limit)
    ensures Page(shards, r, limit, cap) == want[|out|..Min(|want|, |out| + limit)]
  {
    NextPage(Listing(Union(shards)), InRange(Range(None, r.prefix, r.end)), r, want, |out|, limit);
    MergeIsExact(shards, r, limit);
  }

  /** One page after the other. */
  lemma {:induction false} PagesGoOn(shards: seq<seq<string>>, r: Range, limit: nat, cap: nat, page: seq<string>)
    requires page == Page(shards, r, limit, cap)
    ensures CursorOf(page, limit).None? ==> AllPages(shards, r, limit, cap) == page
    ensures var more := r.(after := CursorOf(page, limit));
            CursorOf(page, limit).Some? ==>
              && Left(shards, more.after) < Left(shards, r.after)
              && AllPages(shards, r, limit, cap) == page + AllPages(shards, more, limit, cap)
  {
    if page != [] { PageAdvances(shards, r, limit, cap); }
  }

  /** The pages from a range on, as a function of the range. */
  ghost function PagesFrom(shards: seq<seq<string>>, limit: nat, cap: nat): Range -> seq<string> {
    (r: Range) => AllPages(shards, r, limit, cap)
  }

  lemma {:induction false} PageMoves(want: seq<string>, out: seq<string>, after: Option<string>, page: seq<string>,
                                     limit: nat)
    requires ReadUpTo(want, out, after, limit) && page == want[|out|..Min(|want|, |out| + limit)] && limit >= 1
    ensures var cursor := CursorOf(page, limit);
            && (cursor.None? ==> want[|out|..] == page)
            && (cursor.Some? ==>
                  ReadUpTo(want, out + page, cursor, limit) && want[|out|..] == page + want[|out + page|..])
  {
    PageReads(want, out, after, page, limit);
  }

  lemma {:induction false} FromGoesOn(shards: seq<seq<string>>, r: Range, limit: nat, cap: nat, page: seq<string>,
                                      from: Range -> seq<string>)
    requires page == Page(shards, r, limit, cap) && from == PagesFrom(shards, limit, cap)
    ensures var cursor := CursorOf(page, limit);
            && (cursor.None? ==> from(r) == page)
            && (cursor.Some? ==>
                  Left(shards, cursor) < Left(shards, r.after) && from(r) == page + from(r.(after := cursor)))
  {
    PagesGoOn(shards, r, limit, cap, page);
  }

  /** So the pages from a cursor on are the keys that are still wanted. */
  lemma {:induction false} PagesRead(shards: seq<seq<string>>, r: Range, limit: nat, cap: nat, want: seq<string>,
                                     out: seq<string>, from: Range -> seq<string>)
    requires AllSorted(shards) && 1 <= limit <= cap && want == Wanted(shards, r.prefix, r.end)
    requires ReadUpTo(want, out, r.after, limit) && from == PagesFrom(shards, limit, cap)
    ensures from(r) == want[|out|..]
    decreases Left(shards, r.after)
  {
    var page := Page(shards, r, limit, cap);
    PageIsNext(shards, r, limit, cap, want, out);
    FromGoesOn(shards, r, limit, cap, page, from);
    PageMoves(want, out, r.after, page, limit);
    var cursor := CursorOf(page, limit);
    if cursor.Some? { PagesRead(shards, r.(after := cursor), limit, cap, want, out + page, from); }
  }

  /** Read from the start, that is all of them. */
  lemma {:induction false} AllPagesRead(shards: seq<seq<string>>, prefix: Option<string>, end: Option<string>,
                                        limit: nat, cap: nat)
    requires AllSorted(shards) && 1 <= limit <= cap
    ensures AllPages(shards, Range(None, prefix, end), limit, cap) == Wanted(shards, prefix, end)
  {
    PagesRead(shards, Range(None, prefix, end), limit, cap, Wanted(shards, prefix, end), [],
              PagesFrom(shards, limit, cap));
  }

  ghost function PageAt(shards: seq<seq<string>>, limit: nat, cap: nat): Range -> seq<string> {
    (r: Range) => Page(shards, r, limit, cap)
  }

  ghost function LeftAt(shards: seq<seq<string>>): Range -> nat { (r: Range) => Left(shards, r.after) }

  /** Every page is followed by the pages from its cursor on, which are fewer. */
  ghost predicate Unrolls(from: Range -> seq<string>, page: Range -> seq<string>, left: Range -> nat, limit: nat) {
    forall r {:trigger page(r)} ::
      var cursor := CursorOf(page(r), limit);
      && (cursor.None? ==> from(r) == page(r))
      && (cursor.Some? ==>
            left(r.(after := cursor)) < left(r) && from(r) == page(r) + from(r.(after := cursor)))
  }

  lemma {:induction false} PagesUnroll(shards: seq<seq<string>>, limit: nat, cap: nat)
    ensures Unrolls(PagesFrom(shards, limit, cap), PageAt(shards, limit, cap), LeftAt(shards), limit)
  {
    var from, page, left := PagesFrom(shards, limit, cap), PageAt(shards, limit, cap), LeftAt(shards);
    forall r
      ensures var cursor := CursorOf(page(r), limit);
              && (cursor.None? ==> from(r) == page(r))
              && (cursor.Some? ==>
                    left(r.(after := cursor)) < left(r) && from(r) == page(r) + from(r.(after := cursor)))
    {
      FromGoesOn(shards, r, limit, cap, Page(shards, r, limit, cap), from);
    }
  }

  /** The loop over the pages. */
  method ReadAll(shards: seq<seq<string>>, start: Range, limit: nat, cap: nat, ghost from: Range -> seq<string>,
                 ghost page: Range -> seq<string>, ghost left: Range -> nat)
    returns (out: seq<string>)
    requires Unrolls(from, page, left, limit) && page == PageAt(shards, limit, cap)
    ensures out == from(start) && (limit == 0 ==> out == [])
  {
    out := [];
    var r := start;
    while true
      invariant (limit == 0 ==> out == []) && out + from(r) == from(start)
      decreases left(r)
    {
      var keys, cursor := ScanPage(shards, r, limit, cap);
      assert keys == page(r);
      out := out + keys;
      if cursor.None? { break; }
      r := r.(after := cursor);
    }
  }

  /**
   * Following the cursor page after page ends. Where no shard cuts a page short it reads every
   * wanted key exactly once, in ascending order. A limit of 0 never gets a cursor and reads nothing.
   */
  method ScanAll(shards: seq<seq<string>>, prefix: Option<string>, end: Option<string>, limit: nat, cap: nat)
    returns (out: seq<string>)
    ensures out == AllPages(shards, Range(None, prefix, end), limit, cap)
    ensures AllSorted(shards) && 1 <= limit <= cap ==> out == Wanted(shards, prefix, end)
    ensures AllSorted(shards) && 1 <= limit <= cap ==>
              SortedBy(out, Less) && forall k :: k in out <==> OnSome(shards, k) && Between(k, None, prefix, end)
    ensures limit == 0 ==> out == []
  {
    WantedIsDirect(shards, prefix, end);
    PagesUnroll(shards, limit, cap);
    out := ReadAll(shards, Range(None, prefix, end), limit, cap, PagesFrom(shards, limit, cap),
                   PageAt(shards, limit, cap), LeftAt(shards));
    if AllSorted(shards) && 1 <= limit <= cap { AllPagesRead(shards, prefix, end, limit, cap); }
  }

  // ---------------------------------------------------------------- a limit beyond the cap

  /** `n` ascending keys. */
  function Ladder(n: nat): seq<string> {
    if n == 0 then [] else Ladder(n - 1) + [Rung(n)]
  }

  function Rung(n: nat): string { seq(n, _ => 'a') }

  lemma {:induction false} LadderAscends(n: nat)
    ensures |Ladder(n)| == n && SortedBy(Ladder(n), Less) && forall i :: 0 <= i < n ==> Ladder(n)[i] == Rung(i + 1)
  {
    if n > 0 {
      LadderAscends(n - 1);
      forall i | 0 <= i < n - 1 ensures Less(Ladder(n)[i], Ladder(n)[n - 1]) { RungsAscend(i + 1, n); }
    }
  }

  lemma {:induction false} RungsAscend(m: nat, n: nat)
    requires m < n
    ensures Less(Rung(m), Rung(n))
  {
    if m > 0 {
      RungsAscend(m - 1, n - 1);
      assert Rung(m)[1..] == Rung(m - 1) && Rung(n)[1..] == Rung(n - 1);
    }
  }

  /** The keys of a single shard, and the first few of them. */
  lemma {:induction false} SoleShard(keys: seq<string>, n: nat)
    requires SortedBy(keys, Less) && n <= |keys|
    ensures Listing(Union([keys])) == keys && Contributions([keys], Range(None, None, None), n) == [keys[..n]]
    ensures Filter(keys, InRange(Range(None, None, None))) == keys
  {
    var shards, r := [keys], Range(None, None, None);
    assert Union(shards[..0]) == {} && Union(shards) == Elems(keys);
    ListingUnique(keys, Listing(Union(shards)));
    FilterTail(keys, 0, |keys|, InRange(r));
    assert Contributions(shards, r, n)[0] == keys[..n];
  }

  /** One shard with one key more than it returns at once: the page is not full, so the scan ends there. */
  lemma {:induction false} CapEndsTheScan(keys: seq<string>, limit: nat, cap: nat)
    requires SortedBy(keys, Less) && |keys| == cap + 1 && limit > cap
    ensures AllPages([keys], Range(None, None, None), limit, cap) == keys[..cap] && Wanted([keys], None, None) == keys
  {
    SoleShard(keys, cap);
    SoleShard(keys[..cap], 0);
    PagesGoOn([keys], Range(None, None, None), limit, cap, keys[..cap]);
  }

  /** Every content of the shards is read completely if and only if the limit is within the cap. */
  lemma {:induction false} CompleteIffWithinCap(limit: nat, cap: nat)
    requires limit >= 1
    ensures limit <= cap <==>
            forall shards, prefix, end :: AllSorted(shards) ==>
              AllPages(shards, Range(None, prefix, end), limit, cap) == Wanted(shards, prefix, end)
  {
    if limit <= cap {
      forall shards, prefix, end | AllSorted(shards)
        ensures AllPages(shards, Range(None, prefix, end), limit, cap) == Wanted(shards, prefix, end)
      {
        AllPagesRead(shards, prefix, end, limit, cap);
      }
    } else {
      LadderAscends(cap + 1);
      assert AllSorted([Ladder(cap + 1)]);
      CapEndsTheScan(Ladder(cap + 1), limit, cap);
    }
  }

  /** A shard behind HTTP with any 10001 keys, scanned at a limit of 10001, gives all keys but the last. */
  lemma {:induction false} LastKeyNotScanned(keys: seq<string>)
    requires SortedBy(keys, Less) && |keys| == 10_001
    ensures AllPages([keys], Range(None, None, None), 10_001, SCAN_CAP) == keys[..10_000]
    ensures Wanted([keys], None, None) == keys
  {
    CapEndsTheScan(keys, 10_001, SCAN_CAP);
  }

  // ---------------------------------------------------------------- which scans beyond the cap are complete

  function InStretch(t: seq<string>): string -> bool { k => k in t }

  /** Every key of the stretch is among the first `cap` keys of the stretch on some shard. */
  ghost predicate Covered(shards: seq<seq<string>>, t: seq<string>, cap: nat) {
    forall k :: k in t ==> exists i :: 0 <= i < |shards| && Offers(shards, i, t, cap, k)
  }

  ghost predicate Offers(shards: seq<seq<string>>, i: nat, t: seq<string>, cap: nat, k: string)
    requires i < |shards|
  {
    k in Take(Filter(shards[i], InStretch(t)), cap)
  }

  /** What stands before a key of the first matches, among a shard's matches, is among the first matches too. */
  lemma {:induction false} BeforeIsFirst(f: seq<string>, u: seq<string>, limit: nat, b: nat, y: string)
    requires SortedBy(f, Less) && SortedBy(u, Less) && Elems(f) <= Elems(u)
    requires b < |f| && f[b] in Take(u, limit) && y in f[..b + 1]
    ensures y in Take(u, limit)
  {
    var j :| 0 <= j <= b && f[j] == y;
    var q :| 0 <= q < |Take(u, limit)| && Take(u, limit)[q] == f[b];
    assert y in Elems(u);
    var p :| 0 <= p < |u| && u[p] == y;
    if p > q {
      assert Less(u[q], u[p]);
      if j < b { LessAsymmetric(f[j], f[b]); } else { LessAsymmetric(y, y); }
    }
    assert y == Take(u, limit)[p];
  }

  /** A key of the first matches stands at the same place among a shard's matches and among its first matches. */
  lemma {:induction false} SamePlace(f: seq<string>, g: seq<string>, u: seq<string>, limit: nat, a: nat, b: nat)
    requires SortedBy(f, Less) && SortedBy(g, Less) && SortedBy(u, Less) && Elems(f) <= Elems(u)
    requires Elems(g) == set k | k in f && k in Take(u, limit)
    requires a < |g| && b < |f| && g[a] == f[b]
    ensures a == b && a < limit
  {
    StandsNoLater(g, f, a, b);
    var front := f[..b + 1];
    assert g[a] in Elems(g);
    forall y | y in Elems(front) ensures y in Elems(g) { BeforeIsFirst(f, u, limit, b, y); }
    StandsNoLater(front, g, b, a);
    SortedNoDup(g);
    NoDupCard(g);
    SubsetCard(Elems(g), Elems(Take(u, limit)));
    ElemsCard(Take(u, limit));
  }

  /** A shard contributes a key of the page exactly when it offers it. */
  lemma {:induction false} ContributedIff(shards: seq<seq<string>>, r: Range, limit: nat, cap: nat, u: seq<string>,
                                          i: nat, k: string)
    requires AllSorted(shards) && i < |shards| && u == Filter(Listing(Union(shards)), InRange(r)) && k in Take(u, limit)
    ensures k in ScanRange(shards[i], r, Min(limit, cap)) <==> Offers(shards, i, Take(u, limit), cap, k)
  {
    var f, g := Filter(shards[i], InRange(r)), Filter(shards[i], InStretch(Take(u, limit)));
    FilterElems(shards[i], InRange(r));
    FilterElems(shards[i], InStretch(Take(u, limit)));
    FilterSorted(shards[i], InRange(r));
    FilterSorted(shards[i], InStretch(Take(u, limit)));
    FilterElems(Listing(Union(shards)), InRange(r));
    FilterSorted(Listing(Union(shards)), InRange(r));
    forall x | x in Elems(f) ensures x in Elems(u) { InUnion(shards, x); }
    forall x | x in Take(u, limit) ensures Matches(x, r) { assert x in Elems(u); }
    assert forall x :: x in f <==> x in Elems(f);
    assert Elems(g) == set x | x in f && x in Take(u, limit);
    PlacedAlike(f, g, u, limit, cap, k);
  }

  lemma {:induction false} PlacedAlike(f: seq<string>, g: seq<string>, u: seq<string>, limit: nat, cap: nat, k: string)
    requires SortedBy(f, Less) && SortedBy(g, Less) && SortedBy(u, Less) && Elems(f) <= Elems(u)
    requires Elems(g) == (set x | x in f && x in Take(u, limit)) && k in Take(u, limit)
    ensures k in Take(f, Min(limit, cap)) <==> k in Take(g, cap)
  {
    if k in f {
      assert k in Elems(g);
      var a, b :| 0 <= a < |g| && g[a] == k && 0 <= b < |f| && f[b] == k;
      SamePlace(f, g, u, limit, a, b);
      SortedNoDup(f);
      SortedNoDup(g);
      assert a < cap ==> Take(g, cap)[a] == k && Take(f, Min(limit, cap))[b] == k;
    } else {
      assert k !in Elems(g);
    }
  }

  /** A page is what it should be exactly when its stretch is covered. */
  lemma {:induction false} PageExactIff(shards: seq<seq<string>>, r: Range, limit: nat, cap: nat, t: seq<string>)
    requires AllSorted(shards) && t == ScanRange(Listing(Union(shards)), r, limit)
    ensures Page(shards, r, limit, cap) == t <==> Covered(shards, t, cap)
  {
    var parts, u := Contributions(shards, r, Min(limit, cap)), Filter(Listing(Union(shards)), InRange(r));
    var m := Listing(Union(parts));
    if Covered(shards, t, cap) {
      forall k | k in Elems(Take(u, limit)) ensures k in Elems(m) {
        var i :| 0 <= i < |shards| && Offers(shards, i, t, cap, k);
        ContributedIff(shards, r, limit, cap, u, i, k);
        assert k in parts[i];
        InUnion(parts, k);
      }
      AllMatch(shards, r, Min(limit, cap));
      FilterSorted(Listing(Union(shards)), InRange(r));
      StartsAlike(m, u, limit);
    }
    if Page(shards, r, limit, cap) == t {
      forall k | k in t ensures exists i :: 0 <= i < |shards| && Offers(shards, i, t, cap, k) {
        assert k in Elems(m);
        InUnion(parts, k);
        var i :| 0 <= i < |parts| && k in parts[i];
        ContributedIff(shards, r, limit, cap, u, i, k);
      }
    }
  }

  lemma {:induction false} AllMatch(shards: seq<seq<string>>, r: Range, limit: nat)
    ensures Elems(Listing(Union(Contributions(shards, r, limit)))) <= Elems(Filter(Listing(Union(shards)), InRange(r)))
  {
    FilterElems(Listing(Union(shards)), InRange(r));
    forall k | k in Elems(Listing(Union(Contributions(shards, r, limit))))
      ensures k in Elems(Filter(Listing(Union(shards)), InRange(r)))
    {
      ContributionsMatch(shards, r, limit, k);
      assert k in Elems(Listing(Union(shards)));
    }
  }

  /** The stretch of the wanted keys that a page should give. */
  function Stretch(want: seq<string>, j: nat, limit: nat): seq<string>
    requires j <= |want|
  {
    want[j..Min(|want|, j + limit)]
  }

  /** Every page's stretch, from a position on. */
  ghost predicate AllCovered(shards: seq<seq<string>>, want: seq<string>, j: nat, limit: nat, cap: nat)
    requires limit >= 1
    decreases |want| - j
  {
    j < |want| ==> Covered(shards, Stretch(want, j, limit), cap) && AllCovered(shards, want, j + limit, limit, cap)
  }

  ghost function CoveredFrom(shards: seq<seq<string>>, want: seq<string>, limit: nat, cap: nat): nat -> bool {
    (j: nat) => limit >= 1 && AllCovered(shards, want, j, limit, cap)
  }

  ghost function CoveredBy(shards: seq<seq<string>>, cap: nat): seq<string> -> bool {
    (t: seq<string>) => Covered(shards, t, cap)
  }

  lemma {:induction false} CoveredOn(shards: seq<seq<string>>, want: seq<string>, limit: nat, cap: nat, j: nat,
                                     covered: nat -> bool, exact: seq<string> -> bool)
    requires limit >= 1 && j <= |want|
    requires covered == CoveredFrom(shards, want, limit, cap) && exact == CoveredBy(shards, cap)
    ensures covered(j) <==> exact(Stretch(want, j, limit)) && (|want| - j >= limit ==> covered(j + limit))
  {
    if j == |want| { assert Stretch(want, j, limit) == []; }
    if |want| - j < limit { assert AllCovered(shards, want, j + limit, limit, cap); }
  }

  /** Pages that add up to the wanted keys start with the first stretch of them. */
  lemma {:induction false} FirstStretch(want: seq<string>, j: nat, limit: nat, page: seq<string>, rest: seq<string>)
    requires j <= |want| && |page| <= limit && page + rest == want[j..] && (|page| < limit ==> rest == [])
    ensures page == Stretch(want, j, limit)
  {
    assert page == want[j..][..|page|];
  }

  /** A page and what follows it add up exactly when the page is the next stretch and the rest adds up. */
  lemma {:induction false} PageAddsUp(want: seq<string>, j: nat, limit: nat, page: seq<string>, all: seq<string>,
                                      rest: seq<string>)
    requires j <= |want| && limit >= 1 && |page| <= limit
    requires if CursorOf(page, limit).None? then all == page else all == page + rest
    ensures all == want[j..] <==>
            && page == Stretch(want, j, limit)
            && (CursorOf(page, limit).Some? ==> j + limit <= |want| && rest == want[j + limit..])
  {
    var tail := if CursorOf(page, limit).None? then [] else rest;
    assert all == page + tail;
    if all == want[j..] {
      FirstStretch(want, j, limit, page, tail);
      if CursorOf(page, limit).Some? { assert want[j + limit..] == want[j..][limit..]; }
    }
    if page == Stretch(want, j, limit) && CursorOf(page, limit).Some? {
      assert want[j..] == page + want[j + limit..];
      if all == want[j..] { assert all[limit..] == rest; }
    }
  }

  /** One page's part of the equivalence, given that of the pages after it. */
  lemma {:induction false} PageIff(want: seq<string>, j: nat, limit: nat, page: seq<string>, all: seq<string>,
                                   rest: seq<string>, covered: nat -> bool)
    requires j <= |want| && limit >= 1 && |page| <= limit
    requires if CursorOf(page, limit).None? then all == page else all == page + rest
    requires covered(j) <==> page == Stretch(want, j, limit) && (|want| - j >= limit ==> covered(j + limit))
    requires page == Stretch(want, j, limit) && CursorOf(page, limit).Some? ==>
               |want| - j >= limit && (rest == want[j + limit..] <==> covered(j + limit))
    ensures all == want[j..] <==> covered(j)
  {
    PageAddsUp(want, j, limit, page, all, rest);
  }

  /** The pages so far have come to a place from which a range goes on. */
  ghost function Ready(shards: seq<seq<string>>, limit: nat, want: seq<string>): (Range, seq<string>) -> bool {
    (r: Range, out: seq<string>) => want == Wanted(shards, r.prefix, r.end) && ReadUpTo(want, out, r.after, limit)
  }

  lemma {:induction false} StretchExact(shards: seq<seq<string>>, r: Range, limit: nat, cap: nat, want: seq<string>,
                                        out: seq<string>, covered: seq<string> -> bool)
    requires AllSorted(shards) && Ready(shards, limit, want)(r, out) && covered == CoveredBy(shards, cap)
    ensures |out| <= |want| && |Page(shards, r, limit, cap)| <= limit
    ensures Page(shards, r, limit, cap) == Stretch(want, |out|, limit) <==> covered(Stretch(want, |out|, limit))
  {
    NextPage(Listing(Union(shards)), InRange(Range(None, r.prefix, r.end)), r, want, |out|, limit);
    PageExactIff(shards, r, limit, cap, Stretch(want, |out|, limit));
  }

  /** What a page says about the pages from it on, where the reading has come to. */
  ghost function TracksAt(want: seq<string>, limit: nat, p: seq<string>, covered: nat -> bool,
                          ready: (Range, seq<string>) -> bool): (Range, seq<string>) -> bool {
    (r: Range, out: seq<string>) =>
      && |out| <= |want| && |p| <= limit
      && (covered(|out|) <==> p == Stretch(want, |out|, limit) && (|want| - |out| >= limit ==> covered(|out| + limit)))
      && (p == Stretch(want, |out|, limit) && CursorOf(p, limit).Some? ==>
            ready(r.(after := CursorOf(p, limit)), out + p) && |out| + limit <= |want|)
  }

  ghost predicate Tracks(want: seq<string>, limit: nat, page: Range -> seq<string>, covered: nat -> bool,
                         ready: (Range, seq<string>) -> bool) {
    forall r, out {:trigger page(r), ready(r, out)} :: ready(r, out) ==>
      TracksAt(want, limit, page(r), covered, ready)(r, out)
  }

  lemma {:induction false} TrackAt(shards: seq<seq<string>>, r: Range, limit: nat, cap: nat, want: seq<string>,
                                   out: seq<string>, p: seq<string>, covered: nat -> bool,
                                   ready: (Range, seq<string>) -> bool)
    requires AllSorted(shards) && limit >= 1 && p == Page(shards, r, limit, cap)
    requires covered == CoveredFrom(shards, want, limit, cap) && ready == Ready(shards, limit, want) && ready(r, out)
    ensures TracksAt(want, limit, p, covered, ready)(r, out)
  {
    StretchExact(shards, r, limit, cap, want, out, CoveredBy(shards, cap));
    CoveredOn(shards, want, limit, cap, |out|, covered, CoveredBy(shards, cap));
    ReadyOn(shards, r, limit, want, out, p, ready);
  }

  lemma {:induction false} PagesTrack(shards: seq<seq<string>>, limit: nat, cap: nat, want: seq<string>)
    requires AllSorted(shards) && limit >= 1
    ensures Tracks(want, limit, PageAt(shards, limit, cap), CoveredFrom(shards, want, limit, cap),
                   Ready(shards, limit, want))
  {
    var page, covered := PageAt(shards, limit, cap), CoveredFrom(shards, want, limit, cap);
    var ready := Ready(shards, limit, want);
    forall r, out | ready(r, out) ensures TracksAt(want, limit, page(r), covered, ready)(r, out) {
      TrackAt(shards, r, limit, cap, want, out, page(r), covered, ready);
    }
  }

  lemma {:induction false} ReadyOn(shards: seq<seq<string>>, r: Range, limit: nat, want: seq<string>,
                                   out: seq<string>, page: seq<string>, ready: (Range, seq<string>) -> bool)
    requires ready == Ready(shards, limit, want) && ready(r, out) && |out| <= |want| && limit >= 1
    ensures page == Stretch(want, |out|, limit) && CursorOf(page, limit).Some? ==>
              ready(r.(after := CursorOf(page, limit)), out + page) && |out| + limit <= |want|
  {
    if page == Stretch(want, |out|, limit) { PageMoves(want, out, r.after, page, limit); }
  }

  lemma {:induction false} PagesIff(want: seq<string>, limit: nat, r: Range, out: seq<string>,
                                    from: Range -> seq<string>, page: Range -> seq<string>, left: Range -> nat,
                                    covered: nat -> bool, ready: (Range, seq<string>) -> bool)
    requires limit >= 1 && Unrolls(from, page, left, limit) && Tracks(want, limit, page, covered, ready)
    requires ready(r, out) && |out| <= |want|
    ensures from(r) == want[|out|..] <==> covered(|out|)
    decreases left(r)
  {
    var p, cursor := page(r), CursorOf(page(r), limit);
    if p == Stretch(want, |out|, limit) && cursor.Some? {
      PagesIff(want, limit, r.(after := cursor), out + p, from, page, left, covered, ready);
    }
    PageIff(want, |out|, limit, p, from(r), if cursor.None? then [] else from(r.(after := cursor)), covered);
  }

  /**
   * Given shards are read completely, at a given limit and cap, if and only if every page's stretch
   * of the wanted keys is covered by the first `cap` keys of it on the shards.
   */
  lemma {:induction false} CompleteIffCovered(shards: seq<seq<string>>, prefix: Option<string>, end: Option<string>,
                                              limit: nat, cap: nat)
    requires AllSorted(shards) && limit >= 1
    ensures AllPages(shards, Range(None, prefix, end), limit, cap) == Wanted(shards, prefix, end)
            <==> AllCovered(shards, Wanted(shards, prefix, end), 0, limit, cap)
  {
    var want := Wanted(shards, prefix, end);
    PagesUnroll(shards, limit, cap);
    PagesTrack(shards, limit, cap, want);
    PagesIff(want, limit, Range(None, prefix, end), [], PagesFrom(shards, limit, cap), PageAt(shards, limit, cap),
             LeftAt(shards), CoveredFrom(shards, want, limit, cap), Ready(shards, limit, want));
  }
}
