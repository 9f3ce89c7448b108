/** Scans in pages: the per-shard bucket scan. */
module PagedScans {
  import opened Seqs
  import opened KeyOrder
  import opened Scans

  const CHUNK: nat := 1024

  function FromCursor(after: Option<string>): Range { Range(after, None, None) }

  /** When the first `j` are dropped and the rest is kept, filtering cuts off the front. */
  lemma {:induction false} FilterTail(s: seq<string>, j: nat, n: nat, keep: string -> bool)
    requires j <= n <= |s| && forall i :: 0 <= i < n ==> (keep(s[i]) <==> j <= i)
    ensures Kept(s, n, keep) == s[j..n]
  {
    if j == n {
      KeptNoMore(s, 0, n, keep);
    } else {
      FilterTail(s, j, n - 1, keep);
    }
  }

  /** The keys above a cursor are a tail of the ascending keys. */
  lemma {:induction false} AboveIsTail(keys: seq<string>, after: Option<string>) returns (j: nat)
    requires SortedBy(keys, Less)
    ensures j <= |keys| && forall i :: 0 <= i < |keys| ==> (Above(keys[i], after) <==> j <= i)
  {
    j := 0;
    while j < |keys| && !Above(keys[j], after)
      invariant j <= |keys| && forall i :: 0 <= i < j ==> !Above(keys[i], after)
    {
      j := j + 1;
    }
    forall i | j <= i < |keys| ensures Above(keys[i], after) {
      if j < i && after.Some? { LessTransitive(after.value, keys[j], keys[i]); }
    }
  }

  lemma {:induction false} AboveLast(keys: seq<string>, j: nat)
    requires SortedBy(keys, Less) && 0 < j <= |keys|
    ensures forall i :: 0 <= i < |keys| ==> (Above(keys[i], Some(keys[j - 1])) <==> j <= i)
  {
    forall i | 0 <= i < |keys| ensures Above(keys[i], Some(keys[j - 1])) <==> j <= i {
      if i < j - 1 { LessAsymmetric(keys[i], keys[j - 1]); }
      if i == j - 1 && Less(keys[i], keys[i]) { LessAsymmetric(keys[i], keys[i]); }
    }
  }

  lemma {:induction false} PageIsSlice(keys: seq<string>, after: Option<string>, j: nat, limit: nat)
    requires j <= |keys| && forall i :: 0 <= i < |keys| ==> (Above(keys[i], after) <==> j <= i)
    ensures ScanRange(keys, FromCursor(after), limit) == keys[j..Min(|keys|, j + limit)]
  {
    FilterTail(keys, j, |keys|, InRange(FromCursor(after)));
  }

  // ---------------------------------------------------------------- scan_buckets

  lemma {:induction false} KeptNext(keys: seq<string>, m: nat, keep: string -> bool, out: seq<string>)
    requires m < |keys| && out == Kept(keys, m, keep)
    ensures Kept(keys, m + 1, keep) == if keep(keys[m]) then out + [keys[m]] else out
  {}

  /** One page's keys: those of the wanted buckets are appended until the limit is met. */
  method TakeFromPage(ghost keys: seq<string>, ghost j: nat, page: seq<string>, out0: seq<string>, limit: nat,
                      bucketOf: string -> nat, want: set<nat>, ghost keep: string -> bool)
    returns (out: seq<string>, full: bool)
    requires j + |page| <= |keys| && forall i :: 0 <= i < |page| ==> page[i] == keys[j + i]
    requires forall i :: j <= i < |keys| ==> (keep(keys[i]) <==> bucketOf(keys[i]) in want)
    requires out0 == Kept(keys, j, keep) && (out0 == [] || |out0| < limit)
    ensures full ==> out == Take(Filter(keys, keep), if limit == 0 then 1 else limit)
    ensures !full ==> out == Kept(keys, j + |page|, keep) && (out == [] || |out| < limit)
  {
    out := out0;
    for i := 0 to |page|
      invariant out == Kept(keys, j + i, keep) && (out == [] || |out| < limit)
    {
      KeptNext(keys, j + i, keep, out);
      if bucketOf(page[i]) in want {
        out := out + [page[i]];
        if |out| >= limit {
          FullAt(keys, j + i + 1, |out|, keep);
          return out, true;
        }
      }
    }
    full := false;
  }

  lemma {:induction false} AllTaken(keys: seq<string>, keep: string -> bool, out: seq<string>, limit: nat)
    requires out == Kept(keys, |keys|, keep) && (out == [] || |out| < limit)
    ensures out == Take(Filter(keys, keep), if limit == 0 then 1 else limit)
  {}

  /** The keys above a cursor are those from a position on. */
  ghost function StartsAt(keys: seq<string>, cursor: Option<string>): nat -> bool {
    (j: nat) => j <= |keys| && forall i :: 0 <= i < |keys| ==> (Above(keys[i], cursor) <==> j <= i)
  }

  /** One page from a position, as a slice. */
  method NextChunk(keys: seq<string>, cursor: Option<string>, ghost j: nat) returns (page: seq<string>)
    requires SortedBy(keys, Less) && StartsAt(keys, cursor)(j)
    ensures j + |page| <= |keys| && page == keys[j..j + |page|] && (|page| != CHUNK ==> j + |page| == |keys|)
    ensures page != [] ==> StartsAt(keys, Some(page[|page| - 1]))(j + |page|)
  {
    page := ScanRange(keys, FromCursor(cursor), CHUNK);
    PageIsSlice(keys, cursor, j, CHUNK);
    if page != [] { AboveLast(keys, j + |page|); }
  }

  /** From a position on, what is kept are the keys of the wanted buckets. */
  ghost function KeepsFrom(keys: seq<string>, keep: string -> bool, bucketOf: string -> nat, want: set<nat>)
    : nat -> bool
  {
    (j: nat) => forall i :: j <= i < |keys| ==> (keep(keys[i]) <==> bucketOf(keys[i]) in want)
  }

  ghost function KeptUpTo(keys: seq<string>, keep: string -> bool): nat -> seq<string> {
    (n: nat) => if n <= |keys| then Kept(keys, n, keep) else []
  }

  /** One page read and filtered. */
  method ReadChunk(keys: seq<string>, cursor: Option<string>, ghost j: nat, sofar: seq<string>, limit: nat,
                   bucketOf: string -> nat, want: set<nat>, ghost keep: string -> bool, ghost kept: nat -> seq<string>)
    returns (page: seq<string>, out: seq<string>, full: bool)
    requires SortedBy(keys, Less) && StartsAt(keys, cursor)(j) && KeepsFrom(keys, keep, bucketOf, want)(j)
    requires kept == KeptUpTo(keys, keep) && sofar == kept(j) && (sofar == [] || |sofar| < limit)
    ensures j + |page| <= |keys| && (|page| != CHUNK ==> j + |page| == |keys|)
    ensures page != [] ==>
              && StartsAt(keys, Some(page[|page| - 1]))(j + |page|) && KeepsFrom(keys, keep, bucketOf, want)(j + |page|)
    ensures full ==> out == Take(Filter(keys, keep), if limit == 0 then 1 else limit)
    ensures !full ==> out == kept(j + |page|) && (out == [] || |out| < limit)
  {
    page := NextChunk(keys, cursor, j);
    out, full := TakeFromPage(keys, j, page, sofar, limit, bucketOf, want, keep);
  }

  /** Page after page of the ascending keys from a cursor on. */
  method PageThrough(keys: seq<string>, bucketOf: string -> nat, want: set<nat>, after: Option<string>, limit: nat,
                     ghost keep: string -> bool)
    returns (out: seq<string>)
    requires SortedBy(keys, Less) && forall k :: keep(k) <==> Above(k, after) && bucketOf(k) in want
    ensures out == Take(Filter(keys, keep), if limit == 0 then 1 else limit)
  {
    ghost var j := AboveIsTail(keys, after);
    ghost var kept := KeptUpTo(keys, keep);
    KeptNoMore(keys, 0, j, keep);
    assert StartsAt(keys, after)(j) && KeepsFrom(keys, keep, bucketOf, want)(j) && kept(j) == [];
    out := PagesFrom(keys, bucketOf, want, after, limit, j, keep, kept);
  }

  /** The loop over the pages. */
  method PagesFrom(keys: seq<string>, bucketOf: string -> nat, want: set<nat>, after: Option<string>, limit: nat,
                   ghost first: nat, ghost keep: string -> bool, ghost kept: nat -> seq<string>)
    returns (out: seq<string>)
    requires SortedBy(keys, Less) && StartsAt(keys, after)(first) && KeepsFrom(keys, keep, bucketOf, want)(first)
    requires kept == KeptUpTo(keys, keep) && kept(first) == []
    ensures out == Take(Filter(keys, keep), if limit == 0 then 1 else limit)
  {
    out := [];
    var cursor := after;
    ghost var j := first;
    while true
      invariant StartsAt(keys, cursor)(j) && KeepsFrom(keys, keep, bucketOf, want)(j)
      invariant out == kept(j) && (out == [] || |out| < limit)
      decreases |keys| - j
    {
      var page, more, full := ReadChunk(keys, cursor, j, out, limit, bucketOf, want, keep, kept);
      out := more;
      if full { return; }
      j := j + |page|;
      if page == [] || |page| != CHUNK { break; }
      cursor := Some(page[|page| - 1]);
    }
    AllTaken(keys, keep, out, limit);
  }

  /**
   * The keys of the wanted buckets above a cursor, in order. The limit is looked at after a key is
   * added, so a limit of 0 acts as 1.
   */
  method ScanBuckets(keys: seq<string>, bucketOf: string -> nat, buckets: seq<nat>, after: Option<string>, limit: nat)
    returns (out: seq<string>)
    requires SortedBy(keys, Less)
    ensures out == Take(Filter(keys, k => Above(k, after) && bucketOf(k) in buckets), if limit == 0 then 1 else limit)
  {
    ghost var keep := k => Above(k, after) && bucketOf(k) in buckets;
    out := PageThrough(keys, bucketOf, Elems(buckets), after, limit, keep);
  }
}
