/**
 * The durable ingest queue as a transition system: accepting a write, draining it into a sink that
 * may fail, advancing the durable cursor, trimming the log, crashing at any point and reopening.
 */
module Ingest {
  import opened Seqs
  import opened Values
  import opened IngestWrites

  datatype Entry = Entry(no: nat, w: Write)

  /** Where the process is; `k` counts the entries of the batch the sink has accepted. */
  datatype Phase =
    | Down
    | Idle
    | Applying(batch: seq<Entry>, k: nat)
    | Failed(batch: seq<Entry>, k: nat)
    | Trimming

  /** `queue` and `cursor` are on disk; `next` and `committed` are lost in a crash. */
  datatype State = State(queue: seq<Entry>, cursor: nat, next: nat, committed: nat, phase: Phase, store: Store)

  datatype Step =
    | Enqueue(w: Write)
    | Read(limit: nat)
    | Accept
    | Refuse(effect: bool)
    | Persist
    | GiveUp
    | Compact
    | Crash
    | Reopen

  function Create(init: Store): State { State([], 0, 1, 0, Idle, init) }

  function LastNo(q: seq<Entry>): nat { if q == [] then 0 else q[|q| - 1].no }

  /** The entries numbered above `from` among the first `n`. */
  function NewerIn(q: seq<Entry>, n: nat, from: nat): (r: seq<Entry>)
    requires n <= |q|
    ensures |r| <= n
  {
    if n == 0 then []
    else if q[n - 1].no > from then NewerIn(q, n - 1, from) + [q[n - 1]]
    else NewerIn(q, n - 1, from)
  }

  function Newer(q: seq<Entry>, from: nat): seq<Entry> { NewerIn(q, |q|, from) }

  /** A batch: the limit is looked at after each push, so a limit of 0 acts as 1. */
  function FirstFew(q: seq<Entry>, limit: nat): seq<Entry> { q[..Min(|q|, if limit == 0 then 1 else limit)] }

  function LatestNo(s: State): nat { if s.next == 0 then 0 else s.next - 1 }

  function Pending(s: State): nat {
    if LatestNo(s) >= s.committed then LatestNo(s) - s.committed else 0
  }

  predicate AtEnd(p: Phase) { (p.Applying? && p.k == |p.batch|) || p.Failed? }

  predicate Enabled(s: State, e: Step) {
    match e
    case Enqueue(_) => !s.phase.Down?
    case Read(_) => s.phase.Idle?
    case Accept => s.phase.Applying? && s.phase.k < |s.phase.batch|
    case Refuse(_) => s.phase.Applying? && s.phase.k < |s.phase.batch|
    case Persist => AtEnd(s.phase) && 0 < s.phase.k <= |s.phase.batch|
    case GiveUp => AtEnd(s.phase) && s.phase.k == 0
    case Compact => !s.phase.Down?
    case Crash => !s.phase.Down?
    case Reopen => s.phase.Down?
  }

  function After(s: State, e: Step): State
    requires Enabled(s, e)
  {
    match e
    case Enqueue(w) => s.(queue := s.queue + [Entry(s.next, w)], next := s.next + 1)
    case Read(limit) => s.(phase := Applying(FirstFew(Newer(s.queue, s.committed), limit), 0))
    case Accept =>
      var p := s.phase;
      s.(store := Do(p.batch[p.k].w, s.store), phase := Applying(p.batch, p.k + 1))
    case Refuse(effect) =>
      var p := s.phase;
      s.(store := if effect then Do(p.batch[p.k].w, s.store) else s.store, phase := Failed(p.batch, p.k))
    case Persist =>
      var no := s.phase.batch[s.phase.k - 1].no;
      s.(cursor := no, committed := no, phase := Trimming)
    case GiveUp => s.(phase := Idle)
    case Compact =>
      s.(queue := Newer(s.queue, s.committed), phase := if s.phase.Trimming? then Idle else s.phase)
    case Crash => s.(phase := Down)
    case Reopen => s.(next := LastNo(s.queue) + 1, committed := s.cursor, phase := Idle)
  }

  predicate CanRun(s: State, es: seq<Step>)
    decreases |es|, 0
  {
    es == [] || (CanRun(s, es[..|es| - 1]) && Enabled(Ran(s, es[..|es| - 1]), es[|es| - 1]))
  }

  function Ran(s: State, es: seq<Step>): State
    requires CanRun(s, es)
    decreases |es|, 1
  {
    if es == [] then s else After(Ran(s, es[..|es| - 1]), es[|es| - 1])
  }

  function Logged(log: seq<Write>, e: Step): seq<Write> { if e.Enqueue? then log + [e.w] else log }

  /** The writes acknowledged in a run. */
  function Accepted(es: seq<Step>): seq<Write> {
    if es == [] then []
    else Logged(Accepted(es[..|es| - 1]), es[|es| - 1])
  }

  /** The condition under which reopening finds its numbering again. */
  predicate ReopensWell(s: State) { s.queue != [] || s.cursor == 0 }

  predicate GoodRun(s: State, es: seq<Step>) {
    CanRun(s, es)
    && (es == [] || (GoodRun(s, es[..|es| - 1]) && (es[|es| - 1].Reopen? ==> ReopensWell(Ran(s, es[..|es| - 1])))))
  }

  // ---------------------------------------------------------------- the invariant

  /** `q` holds the accepted writes from number `|log| - |q| + 1` on. */
  ghost predicate Numbered(q: seq<Entry>, log: seq<Write>, first: nat) {
    first + |q| <= |log| && forall i :: 0 <= i < |q| ==> q[i] == Entry(first + i + 1, log[first + i])
  }

  /** Doing the writes from `a` up to `hi` brings the store to what the first `hi` writes make of it. */
  ghost predicate Covers(log: seq<Write>, a: nat, hi: nat, store: Store, init: Store)
    requires a <= hi <= |log|
  {
    Same(DoAll(log[a..hi], store), DoAll(log[..hi], init))
  }

  predicate Busy(p: Phase) { p.Applying? || p.Failed? }

  /** The writes up to here are done in this drain. */
  function Position(s: State): nat { s.cursor + if Busy(s.phase) then s.phase.k else 0 }

  /** How the disk and the process agree with the log; `hi` is how far the sink has ever been taken. */
  ghost predicate Records(s: State, log: seq<Write>, hi: nat) {
    && |s.queue| <= |log| && Numbered(s.queue, log, |log| - |s.queue|)
    && |log| - |s.queue| <= s.cursor <= Position(s) <= hi <= |log|
    && (!s.phase.Down? ==> s.next == |log| + 1 && s.committed == s.cursor)
    && (Busy(s.phase) ==> Numbered(s.phase.batch, log, s.cursor) && s.phase.k <= |s.phase.batch|)
  }

  ghost predicate Inv(s: State, init: Store, log: seq<Write>, hi: nat) {
    && Records(s, log, hi)
    && Coverage(log, init)(s.cursor, hi, s.store) && Coverage(log, init)(Position(s), hi, s.store)
  }

  ghost function Coverage(log: seq<Write>, init: Store): (nat, nat, Store) -> bool {
    (a: nat, hi: nat, store: Store) => a <= hi <= |log| && Covers(log, a, hi, store, init)
  }

  predicate Applies(e: Step) { e.Accept? || (e.Refuse? && e.effect) }

  /** How far the sink has been taken after a step. */
  function Reached(s: State, hi: nat, e: Step): nat {
    if Applies(e) && Position(s) == hi then hi + 1 else hi
  }

  /** When the entries up to `j` are old and the others newer, the others are the newer ones. */
  lemma {:induction false} NewerSplit(q: seq<Entry>, j: nat, n: nat, from: nat)
    requires j <= n <= |q|
    requires (forall i :: 0 <= i < j ==> q[i].no <= from) && (forall i :: j <= i < n ==> q[i].no > from)
    ensures NewerIn(q, n, from) == q[j..n]
  {
    if j < n {
      NewerSplit(q, j, n - 1, from);
    } else if n > 0 {
      NewerSplit(q, n - 1, n - 1, from);
    }
  }

  lemma {:induction false} NewerNumbered(q: seq<Entry>, log: seq<Write>, first: nat, from: nat, limit: nat)
    requires Numbered(q, log, first) && first <= from <= first + |q|
    ensures |Newer(q, from)| == first + |q| - from
    ensures Numbered(Newer(q, from), log, from) && Numbered(FirstFew(Newer(q, from), limit), log, from)
  {
    var j := from - first;
    NewerSplit(q, j, |q|, from);
    forall i | 0 <= i < |q| - j
      ensures q[j..][i] == Entry(from + i + 1, log[from + i])
    {
      assert q[j..][i] == q[j + i];
    }
  }

  // ---------------------------------------------------------------- applying one write

  /** A write of the stretch still to be done can be done early. */
  lemma {:induction false} CoversAfterCopy(log: seq<Write>, a: nat, p: nat, hi: nat, store: Store, init: Store)
    requires a <= p < hi <= |log| && Covers(log, a, hi, store, init)
    ensures Covers(log, a, hi, Do(log[p], store), init)
  {
    var stretch := log[a..hi];
    assert stretch[p - a] == log[a + (p - a)];
    AbsorbOne(stretch, p - a, store);
  }

  lemma {:induction false} CoversNext(log: seq<Write>, p: nat, hi: nat, store: Store, init: Store)
    requires p < hi <= |log| && Covers(log, p, hi, store, init)
    ensures Covers(log, p + 1, hi, Do(log[p], store), init)
  {
    assert log[p..hi] == [log[p]] + log[p + 1..hi];
    DoAllConcat([log[p]], log[p + 1..hi], store);
    DoAllSnoc([], log[p], store);
    assert [] + [log[p]] == [log[p]];
  }

  /** Doing for the first time the write at the end of what was ever done. */
  lemma {:induction false} CoversMore(log: seq<Write>, a: nat, hi: nat, store: Store, init: Store)
    requires a <= hi < |log| && Covers(log, a, hi, store, init) && Covers(log, hi, hi, store, init)
    ensures Covers(log, a, hi + 1, Do(log[hi], store), init)
  {
    var x := log[hi];
    SliceSnoc(log, a, hi);
    DoAllSnoc(log[a..hi], x, Do(x, store));
    DoAllSnoc(log[..hi], x, init);
    EarlierCopyInvisible(x, log[a..hi], store);
    DoSame(x, DoAll(log[a..hi], store), DoAll(log[..hi], init));
  }

  lemma {:induction false} CoversEnd(log: seq<Write>, hi: nat, store: Store, init: Store)
    requires hi < |log| && Covers(log, hi, hi, store, init)
    ensures Covers(log, hi + 1, hi + 1, Do(log[hi], store), init)
  {
    var x := log[hi];
    SliceSnoc(log, hi, hi);
    assert log[hi + 1..hi + 1] == [] && log[hi..hi] == [];
    DoAllSnoc(log[..hi], x, init);
    DoSame(x, store, DoAll(log[..hi], init));
  }

  /** Doing the write at position `p`, whether for the first time or again. */
  lemma {:induction false} DoKeeps(log: seq<Write>, c: nat, p: nat, hi: nat, store: Store, init: Store)
    requires c <= p <= hi <= |log| && p < |log|
    requires Covers(log, c, hi, store, init) && Covers(log, p, hi, store, init)
    ensures var hi' := if p == hi then hi + 1 else hi;
            && Covers(log, c, hi', Do(log[p], store), init)
            && Covers(log, p, hi', Do(log[p], store), init)
            && Covers(log, p + 1, hi', Do(log[p], store), init)
  {
    if p == hi {
      CoversMore(log, c, hi, store, init);
      CoversMore(log, p, hi, store, init);
      CoversEnd(log, hi, store, init);
    } else {
      CoversAfterCopy(log, c, p, hi, store, init);
      CoversAfterCopy(log, p, p, hi, store, init);
      CoversNext(log, p, hi, store, init);
    }
  }

  lemma {:induction false} DoKeepsCoverage(log: seq<Write>, init: Store, cov: (nat, nat, Store) -> bool,
                                           c: nat, p: nat, hi: nat, store: Store)
    requires cov == Coverage(log, init) && c <= p && p < |log| && cov(c, hi, store) && cov(p, hi, store)
    ensures var h, st := if p == hi then hi + 1 else hi, Do(log[p], store);
            cov(c, h, st) && cov(p, h, st) && cov(p + 1, h, st)
  {
    DoKeeps(log, c, p, hi, store, init);
  }

  lemma {:induction false} CoversLonger(log: seq<Write>, w: Write, a: nat, hi: nat, store: Store, init: Store)
    requires Coverage(log, init)(a, hi, store)
    ensures Coverage(log + [w], init)(a, hi, store)
  {
    assert (log + [w])[a..hi] == log[a..hi] && (log + [w])[..hi] == log[..hi];
  }

  // ---------------------------------------------------------------- every step keeps the invariant

  lemma {:induction false} NumberedLonger(q: seq<Entry>, log: seq<Write>, first: nat, w: Write)
    requires Numbered(q, log, first)
    ensures Numbered(q, log + [w], first)
    ensures first + |q| == |log| ==> Numbered(q + [Entry(|log| + 1, w)], log + [w], first)
  {}

  lemma {:induction false} EnqueueRecords(s: State, log: seq<Write>, hi: nat, w: Write)
    requires Records(s, log, hi) && Enabled(s, Enqueue(w))
    ensures Records(After(s, Enqueue(w)), log + [w], hi)
  {
    NumberedLonger(s.queue, log, |log| - |s.queue|, w);
    if Busy(s.phase) { NumberedLonger(s.phase.batch, log, s.cursor, w); }
  }

  lemma {:induction false} FetchRecords(s: State, log: seq<Write>, hi: nat, e: Step)
    requires Records(s, log, hi) && Enabled(s, e) && (e.Read? || e.Compact?)
    ensures Records(After(s, e), log, hi)
  {
    NewerNumbered(s.queue, log, |log| - |s.queue|, s.committed, if e.Read? then e.limit else 0);
  }

  lemma {:induction false} PersistRecords(s: State, log: seq<Write>, hi: nat)
    requires Records(s, log, hi) && Enabled(s, Persist)
    ensures Records(After(s, Persist), log, hi)
  {
    assert s.phase.batch[s.phase.k - 1].no == s.cursor + s.phase.k;
  }

  lemma {:induction false} RecordsKeep(s: State, log: seq<Write>, hi: nat, e: Step)
    requires Records(s, log, hi) && Enabled(s, e) && (e.Reopen? ==> ReopensWell(s))
    ensures Records(After(s, e), Logged(log, e), Reached(s, hi, e))
  {
    match e
    case Enqueue(w) => EnqueueRecords(s, log, hi, w);
    case Read(_) => FetchRecords(s, log, hi, e);
    case Compact => FetchRecords(s, log, hi, e);
    case Persist => PersistRecords(s, log, hi);
    case _ =>
  }

  /** What a step does to the cursor, the position and the store. */
  lemma {:induction false} StepMoves(s: State, log: seq<Write>, hi: nat, e: Step)
    requires Records(s, log, hi) && Enabled(s, e)
    ensures var s' := After(s, e);
            if Applies(e) then
              && Position(s) < |log| && s'.cursor == s.cursor && s'.store == Do(log[Position(s)], s.store)
              && Position(s') == Position(s) + (if e.Accept? then 1 else 0)
            else
              && s'.store == s.store
              && (s'.cursor == s.cursor || s'.cursor == Position(s))
              && (Position(s') == s.cursor || Position(s') == Position(s))
  {
    if e.Persist? { assert s.phase.batch[s.phase.k - 1].no == s.cursor + s.phase.k; }
  }

  lemma {:induction false} EnqueueKeeps(s: State, init: Store, log: seq<Write>, hi: nat, w: Write)
    requires Inv(s, init, log, hi) && Enabled(s, Enqueue(w))
    ensures Inv(After(s, Enqueue(w)), init, log + [w], hi)
  {
    EnqueueRecords(s, log, hi, w);
    CoversLonger(log, w, s.cursor, hi, s.store, init);
    CoversLonger(log, w, Position(s), hi, s.store, init);
  }

  /** Doing the write at a covered position, for the first time or again, keeps what is covered. */
  ghost predicate KeepsAt(cov: (nat, nat, Store) -> bool, log: seq<Write>, c: nat, p: nat, hi: nat, store: Store) {
    c <= p < |log| && cov(c, hi, store) && cov(p, hi, store) ==>
      var h, st := if p == hi then hi + 1 else hi, Do(log[p], store);
      cov(c, h, st) && cov(p, h, st) && cov(p + 1, h, st)
  }

  lemma {:induction false} CoverageKeeps(log: seq<Write>, init: Store, c: nat, p: nat, hi: nat, store: Store)
    ensures KeepsAt(Coverage(log, init), log, c, p, hi, store)
  {
    var cov := Coverage(log, init);
    if c <= p < |log| && cov(c, hi, store) && cov(p, hi, store) {
      DoKeepsCoverage(log, init, cov, c, p, hi, store);
    }
  }

  lemma {:induction false} ApplyMoves(s: State, log: seq<Write>, hi: nat, e: Step, cov: (nat, nat, Store) -> bool)
    requires Records(s, log, hi) && Enabled(s, e) && Applies(e)
    requires KeepsAt(cov, log, s.cursor, Position(s), hi, s.store)
    requires cov(s.cursor, hi, s.store) && cov(Position(s), hi, s.store)
    ensures var h, s' := Reached(s, hi, e), After(s, e); cov(s'.cursor, h, s'.store) && cov(Position(s'), h, s'.store)
  {
    StepMoves(s, log, hi, e);
  }

  lemma {:induction false} ApplyKeeps(s: State, init: Store, log: seq<Write>, hi: nat, e: Step)
    requires Inv(s, init, log, hi) && Enabled(s, e) && Applies(e)
    ensures Inv(After(s, e), init, log, Reached(s, hi, e))
  {
    RecordsKeep(s, log, hi, e);
    CoverageKeeps(log, init, s.cursor, Position(s), hi, s.store);
    ApplyMoves(s, log, hi, e, Coverage(log, init));
  }

  lemma {:induction false} QuietKeeps(s: State, init: Store, log: seq<Write>, hi: nat, e: Step)
    requires Inv(s, init, log, hi) && Enabled(s, e) && (e.Reopen? ==> ReopensWell(s))
    requires !e.Enqueue? && !Applies(e)
    ensures Inv(After(s, e), init, log, hi)
  {
    RecordsKeep(s, log, hi, e);
    StepMoves(s, log, hi, e);
  }

  lemma {:induction false} StepKeeps(s: State, init: Store, log: seq<Write>, hi: nat, e: Step)
    requires Inv(s, init, log, hi) && Enabled(s, e) && (e.Reopen? ==> ReopensWell(s))
    ensures Inv(After(s, e), init, Logged(log, e), Reached(s, hi, e))
  {
    if e.Enqueue? {
      EnqueueKeeps(s, init, log, hi, e.w);
    } else if Applies(e) {
      ApplyKeeps(s, init, log, hi, e);
    } else {
      QuietKeeps(s, init, log, hi, e);
    }
  }

  lemma {:induction false} CreateHolds(init: Store)
    ensures Inv(Create(init), init, [], 0)
  {}

  lemma {:induction false} RunKeeps(init: Store, es: seq<Step>) returns (hi: nat)
    requires GoodRun(Create(init), es)
    ensures Inv(Ran(Create(init), es), init, Accepted(es), hi)
  {
    if es == [] {
      CreateHolds(init);
      hi := 0;
    } else {
      var n := |es| - 1;
      var h := RunKeeps(init, es[..n]);
      StepKeeps(Ran(Create(init), es[..n]), init, Accepted(es[..n]), h, es[n]);
      hi := Reached(Ran(Create(init), es[..n]), h, es[n]);
    }
  }

  /**
   * However often the process crashed, the sink refused and the log was replayed: when nothing is
   * pending the store is what the accepted writes make of it, once each, in order.
   */
  lemma {:induction false} DrainedMeansAppliedOnce(init: Store, es: seq<Step>)
    requires GoodRun(Create(init), es)
    requires var s := Ran(Create(init), es); !s.phase.Down? && Pending(s) == 0
    ensures Same(Ran(Create(init), es).store, DoAll(Accepted(es), init))
  {
    var hi := RunKeeps(init, es);
    var s, log := Ran(Create(init), es), Accepted(es);
    assert s.cursor == |log| == hi;
    assert log[s.cursor..hi] == [] && log[..hi] == log;
  }

  lemma {:induction false} TailQueued(s: State, log: seq<Write>, hi: nat, i: nat)
    requires Records(s, log, hi) && s.cursor <= i < |log|
    ensures Entry(i + 1, log[i]) in s.queue
  {
    var first := |log| - |s.queue|;
    assert s.queue[i - first] == Entry(first + (i - first) + 1, log[first + (i - first)]);
  }

  /** An accepted write is on disk until the cursor has passed it: the log never loses the tail. */
  lemma {:induction false} TailIsOnDisk(init: Store, es: seq<Step>, i: nat)
    requires GoodRun(Create(init), es)
    requires Ran(Create(init), es).cursor <= i < |Accepted(es)|
    ensures Entry(i + 1, Accepted(es)[i]) in Ran(Create(init), es).queue
  {
    var hi := RunKeeps(init, es);
    TailQueued(Ran(Create(init), es), Accepted(es), hi, i);
  }

  lemma {:induction false} BatchFollowsCursor(s: State, log: seq<Write>, hi: nat, limit: nat)
    requires Records(s, log, hi) && s.phase.Idle?
    ensures var batch := After(s, Read(limit)).phase.batch;
            |batch| == Min(Pending(s), if limit == 0 then 1 else limit) && Numbered(batch, log, s.committed)
  {
    NewerNumbered(s.queue, log, |log| - |s.queue|, s.committed, limit);
  }

  /** A drain reads the oldest pending writes, in order and without a gap. */
  lemma {:induction false} BatchIsOldestPending(init: Store, es: seq<Step>, limit: nat)
    requires GoodRun(Create(init), es) && Ran(Create(init), es).phase.Idle?
    ensures var s := Ran(Create(init), es);
            var batch := After(s, Read(limit)).phase.batch;
            |batch| == Min(Pending(s), if limit == 0 then 1 else limit) && Numbered(batch, Accepted(es), s.committed)
  {
    var hi := RunKeeps(init, es);
    BatchFollowsCursor(Ran(Create(init), es), Accepted(es), hi, limit);
  }

  // ---------------------------------------------------------------- reopening on an emptied log

  /** Reopening continues the numbering exactly when the log has an entry or the cursor never moved. */
  lemma {:induction false} ReopenContinuesNumbering(init: Store, es: seq<Step>)
    requires GoodRun(Create(init), es) && Ran(Create(init), es).phase.Down?
    ensures After(Ran(Create(init), es), Reopen).next == |Accepted(es)| + 1 <==> ReopensWell(Ran(Create(init), es))
  {
    var hi := RunKeeps(init, es);
  }

  function Enqueued(s: State, ws: seq<Write>): State
    requires !s.phase.Down?
    ensures Enqueued(s, ws).phase == s.phase
  {
    if ws == [] then s else After(Enqueued(s, ws[..|ws| - 1]), Enqueue(ws[|ws| - 1]))
  }

  lemma {:induction false} EnqueuedNumbers(s: State, ws: seq<Write>)
    requires s.phase.Idle? && s.queue == [] && s.next == 1
    ensures var t := Enqueued(s, ws);
            && |t.queue| == |ws| && (forall i :: 0 <= i < |ws| ==> t.queue[i].no == i + 1)
            && t.next == |ws| + 1 && t.committed == s.committed && t.store == s.store && t.phase.Idle?
  {
    if ws != [] { EnqueuedNumbers(s, ws[..|ws| - 1]); }
  }

  /**
   * After a reopen that finds the log empty and the cursor moved, as many writes as the cursor
   * counts are accepted, reported as not pending, and passed over by every drain.
   */
  lemma {:induction false} BadReopenSkipsWrites(s: State, ws: seq<Write>, limit: nat)
    requires s.phase.Down? && !ReopensWell(s) && |ws| <= s.cursor
    ensures var t := Enqueued(After(s, Reopen), ws);
            Pending(t) == 0 && After(t, Read(limit)).phase == Applying([], 0) && t.store == s.store
  {
    var t := Enqueued(After(s, Reopen), ws);
    EnqueuedNumbers(After(s, Reopen), ws);
    NewerSplit(t.queue, |t.queue|, |t.queue|, t.committed);
  }

  /** So the condition on reopens cannot be dropped: without it some accepted write is lost. */
  lemma {:induction false} BadReopenLosesAWrite(init: Store, es: seq<Step>) returns (w: Write)
    requires GoodRun(Create(init), es)
    requires Ran(Create(init), es).phase.Down? && !ReopensWell(Ran(Create(init), es))
    ensures var es' := es + [Reopen] + [Enqueue(w)];
            && CanRun(Create(init), es') && Pending(Ran(Create(init), es')) == 0
            && !Same(Ran(Create(init), es').store, DoAll(Accepted(es'), init))
  {
    var s := Ran(Create(init), es);
    var k := Key("c", "k");
    w := Clash(k, s.store);
    RanSnoc(Create(init), es, Reopen);
    RanSnoc(Create(init), es + [Reopen], Enqueue(w));
    AcceptedSnoc(es, Reopen);
    AcceptedSnoc(es + [Reopen], Enqueue(w));
    DoAllSnoc(Accepted(es), w, init);
    ClashShows(k, s.store, DoAll(Accepted(es), init));
  }

  /** A write that leaves at `k` something other than what `s` has there. */
  function Clash(k: Key, s: Store): Write {
    PutValue(k, if Lookup(s, k) == Some(Int(0)) then Int(1) else Int(0))
  }

  lemma {:induction false} ClashShows(k: Key, s: Store, t: Store)
    ensures !Same(s, Do(Clash(k, s), t))
  {
    DoLooks(Clash(k, s), t, k);
    assert ShapeOf(Lookup(Do(Clash(k, s), t), k)) != ShapeOf(Lookup(s, k));
  }

  ghost predicate GoodlyLeads(s: State, es: seq<Step>, t: State) { GoodRun(s, es) && Ran(s, es) == t }

  lemma {:induction false} GoodSnoc(s: State, es: seq<Step>, t: State, e: Step)
    requires GoodlyLeads(s, es, t) && Enabled(t, e) && (e.Reopen? ==> ReopensWell(t))
    ensures GoodlyLeads(s, es + [e], After(t, e))
  {
    assert (es + [e])[..|es|] == es;
    RanSnoc(s, es, e);
  }

  lemma {:induction false} OneWriteAccepted(init: Store, w: Write)
    ensures var q := [Entry(1, w)];
            GoodlyLeads(Create(init), [] + [Enqueue(w)] + [Read(1)] + [Accept],
                        State(q, 0, 2, 0, Applying(q, 1), Do(w, init)))
  {
    var s, q := Create(init), [Entry(1, w)];
    assert GoodlyLeads(s, [], s) && [] + q == q;
    GoodSnoc(s, [], s, Enqueue(w));
    var s1 := State(q, 0, 2, 0, Idle, init);
    NewerSplit(q, 0, 1, 0);
    GoodSnoc(s, [] + [Enqueue(w)], s1, Read(1));
    GoodSnoc(s, [] + [Enqueue(w)] + [Read(1)], State(q, 0, 2, 0, Applying(q, 0), init), Accept);
  }

  lemma {:induction false} OneWriteTrimmed(s: State, es: seq<Step>, init: Store, w: Write)
    requires var q := [Entry(1, w)]; GoodlyLeads(s, es, State(q, 0, 2, 0, Applying(q, 1), Do(w, init)))
    ensures GoodlyLeads(s, es + [Persist] + [Compact] + [Crash], State([], 1, 2, 1, Down, Do(w, init)))
  {
    var q := [Entry(1, w)];
    GoodSnoc(s, es, State(q, 0, 2, 0, Applying(q, 1), Do(w, init)), Persist);
    NewerSplit(q, 1, 1, 1);
    GoodSnoc(s, es + [Persist], State(q, 1, 2, 1, Trimming, Do(w, init)), Compact);
    GoodSnoc(s, es + [Persist] + [Compact], State([], 1, 2, 1, Idle, Do(w, init)), Crash);
  }

  /** The state before a bad reopen is an ordinary one: one write, accepted, drained and trimmed, then a crash. */
  lemma {:induction false} BadReopenIsReached(init: Store, w: Write)
    ensures var es := [Enqueue(w), Read(1), Accept, Persist, Compact, Crash];
            && GoodRun(Create(init), es)
            && Ran(Create(init), es).phase.Down? && !ReopensWell(Ran(Create(init), es))
  {
    var begun := [] + [Enqueue(w)] + [Read(1)] + [Accept];
    OneWriteAccepted(init, w);
    OneWriteTrimmed(Create(init), begun, init, w);
    assert begun + [Persist] + [Compact] + [Crash] == [Enqueue(w), Read(1), Accept, Persist, Compact, Crash];
  }

  lemma {:induction false} AcceptedSnoc(es: seq<Step>, e: Step)
    ensures Accepted(es + [e]) == Logged(Accepted(es), e)
  {
    assert (es + [e])[..|es|] == es;
  }

  lemma {:induction false} RanSnoc(s: State, es: seq<Step>, e: Step)
    requires CanRun(s, es) && Enabled(Ran(s, es), e)
    ensures CanRun(s, es + [e]) && Ran(s, es + [e]) == After(Ran(s, es), e)
  {
    assert (es + [e])[..|es|] == es;
  }
}
