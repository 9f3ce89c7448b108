/** The queue object, whose methods take the steps of the ingest transition system. */
module IngestObject {
  import opened Seqs
  import opened IngestWrites
  import opened Ingest

  datatype Outcome = Ok | ErrAfterWrite | ErrBeforeWrite

  /** Where drained writes go; `script` says how the n-th call turns out. */
  class Sink {
    const script: nat -> Outcome
    var calls: nat
    var store: Store

    constructor (script: nat -> Outcome, store: Store)
      ensures this.script == script && this.store == store && calls == 0
    {
      this.script, this.store, this.calls := script, store, 0;
    }

    method Apply(w: Write) returns (ok: bool)
      modifies this
      ensures calls == old(calls) + 1 && ok == script(old(calls)).Ok?
      ensures store == if script(old(calls)).ErrBeforeWrite? then old(store) else Do(w, old(store))
    {
      var outcome := script(calls);
      calls := calls + 1;
      if !outcome.ErrBeforeWrite? { store := Do(w, store); }
      ok := outcome.Ok?;
    }
  }

  /** How many calls from the `from`-th on succeed before one fails, out of `n`. */
  function Successes(script: nat -> Outcome, from: nat, n: nat): (k: nat)
    ensures k <= n
    decreases n
  {
    if n == 0 || !script(from).Ok? then 0 else 1 + Successes(script, from + 1, n - 1)
  }

  /** The steps take `s` to `t` and accept no new write. */
  ghost predicate Leads(s: State, es: seq<Step>, t: State) {
    CanRun(s, es) && Ran(s, es) == t && Accepted(es) == []
  }

  lemma {:induction false} LeadsStart(s: State, e: Step)
    requires Enabled(s, e) && !e.Enqueue?
    ensures Leads(s, [e], After(s, e))
  {
    assert CanRun(s, []) && Ran(s, []) == s && [] + [e] == [e];
    RanSnoc(s, [], e);
    AcceptedSnoc([], e);
  }

  lemma {:induction false} LeadsOn(s: State, es: seq<Step>, t: State, e: Step)
    requires Leads(s, es, t) && Enabled(t, e) && !e.Enqueue?
    ensures Leads(s, es + [e], After(t, e))
  {
    RanSnoc(s, es, e);
    AcceptedSnoc(es, e);
  }

  predicate Ascending(q: seq<Entry>) { forall i, j :: 0 <= i < j < |q| ==> q[i].no < q[j].no }

  /** What is on disk: entries in ascending order of their numbers, and the cursor. */
  class IngestQueue {
    var queue: seq<Entry>
    var cursor: nat
    var next: nat
    var committed: nat

    ghost predicate Valid()
      reads this
    {
      Ascending(queue) && committed == cursor && 0 < next && forall e :: e in queue ==> 0 < e.no < next
    }

    /** The object and its sink as a state of the transition system. */
    ghost function View(sink: Sink, phase: Phase): State
      reads this, sink
    {
      State(queue, cursor, next, committed, phase, sink.store)
    }

    /** Opens the disk a crash has left behind. */
    constructor Open(queue: seq<Entry>, cursor: nat, ghost down: State)
      requires Ascending(queue) && forall e :: e in queue ==> 0 < e.no
      requires down.phase == Down && down.queue == queue && down.cursor == cursor
      ensures Valid()
      ensures State(this.queue, this.cursor, next, this.committed, Idle, down.store) == After(down, Reopen)
    {
      this.queue, this.cursor := queue, cursor;
      next := (if queue == [] then 0 else queue[|queue| - 1].no) + 1;
      committed := cursor;
    }

    method Enqueue(w: Write, ghost sink: Sink) returns (no: nat)
      requires Valid()
      modifies this`queue, this`next
      ensures Valid() && no == old(next)
      ensures View(sink, Idle) == After(old(View(sink, Idle)), Step.Enqueue(w))
    {
      no := next;
      queue := queue + [Entry(no, w)];
      next := no + 1;
    }

    method LatestSeq() returns (n: nat)
      ensures n == next - 1 || n == next == 0
    {
      n := if next == 0 then 0 else next - 1;
    }

    method Unapplied(ghost sink: Sink) returns (n: nat)
      ensures n == Pending(View(sink, Idle))
    {
      var latest := LatestSeq();
      n := if latest >= committed then latest - committed else 0;
    }

    method ReadUncommitted(from: nat, limit: nat) returns (out: seq<Entry>)
      ensures out == FirstFew(Newer(queue, from), limit)
    {
      out := [];
      for i := 0 to |queue|
        invariant out == NewerIn(queue, i, from) && (out == [] || |out| < limit)
      {
        if queue[i].no > from {
          out := out + [queue[i]];
          if |out| >= limit {
            NewerGrows(queue, i + 1, |queue|, from);
            return;
          }
        }
      }
    }

    method PersistCommitted(no: nat)
      modifies this`cursor, this`committed
      ensures cursor == committed == no
    {
      cursor := no;
      committed := no;
    }

    /** How many leading entries are numbered no higher than the committed cursor. */
    method AppliedPrefix() returns (n: nat)
      requires Ascending(queue)
      ensures n <= |queue| && queue[n..] == Newer(queue, committed)
    {
      n := 0;
      while n < |queue| && queue[n].no <= committed
        invariant n <= |queue| && forall i :: 0 <= i < n ==> queue[i].no <= committed
      {
        n := n + 1;
      }
      NewerSplit(queue, n, |queue|, committed);
    }

    method Compact() returns (removed: nat)
      requires Valid()
      modifies this`queue
      ensures Valid() && queue == Newer(old(queue), committed) && removed == |old(queue)| - |queue|
    {
      removed := 0;
      if committed == 0 {
        NewerSplit(queue, 0, |queue|, 0);
        return;
      }
      var n := AppliedPrefix();
      while removed < n
        invariant removed <= n && queue == old(queue)[removed..]
      {
        queue := queue[1..];
        removed := removed + 1;
      }
    }

    /** Hands the `k`-th entry of a batch to the sink: one step of the transition system. */
    method ApplyNext(sink: Sink, ops: seq<Entry>, k: nat, ghost s: State, ghost begun: seq<Step>)
      returns (ok: bool, ghost steps: seq<Step>)
      requires k < |ops| && Leads(s, begun, View(sink, Applying(ops, k)))
      modifies sink
      ensures sink.calls == old(sink.calls) + 1 && ok == sink.script(old(sink.calls)).Ok?
      ensures Leads(s, steps, View(sink, if ok then Applying(ops, k + 1) else Failed(ops, k)))
    {
      ok := sink.Apply(ops[k].w);
      ghost var e := if ok then Accept else Refuse(sink.script(sink.calls - 1).ErrAfterWrite?);
      LeadsOn(s, begun, old(View(sink, Applying(ops, k))), e);
      steps := begun + [e];
    }

    /** Hands a batch to the sink until it refuses an entry. */
    method ApplyBatch(sink: Sink, ops: seq<Entry>, ghost s: State, ghost begun: seq<Step>)
      returns (applied: nat, lastOk: nat, ghost steps: seq<Step>)
      requires Leads(s, begun, View(sink, Applying(ops, 0)))
      modifies sink
      ensures applied == Successes(sink.script, old(sink.calls), |ops|)
      ensures lastOk == if applied == 0 then committed else ops[applied - 1].no
      ensures applied <= |ops|
      ensures Leads(s, steps, View(sink, if applied < |ops| then Failed(ops, applied) else Applying(ops, applied)))
    {
      steps, applied, lastOk := begun, 0, committed;
      while applied < |ops|
        invariant applied <= |ops| && sink.calls == old(sink.calls) + applied
        invariant Successes(sink.script, old(sink.calls), |ops|)
                  == applied + Successes(sink.script, sink.calls, |ops| - applied)
        invariant lastOk == if applied == 0 then committed else ops[applied - 1].no
        invariant Leads(s, steps, View(sink, Applying(ops, applied)))
      {
        var ok;
        ok, steps := ApplyNext(sink, ops, applied, s, steps);
        if !ok { break; }
        lastOk := ops[applied].no;
        applied := applied + 1;
      }
    }

    /**
     * Drains one batch. The result is a run of the transition system, and applies exactly the
     * writes before the first one the sink refuses.
     */
    method Drain(sink: Sink, limit: nat) returns (applied: nat, ghost steps: seq<Step>)
      requires Valid()
      modifies this, sink
      ensures Valid()
      ensures Leads(old(View(sink, Idle)), steps, View(sink, Idle))
      ensures var batch := old(FirstFew(Newer(queue, committed), limit));
              && applied == Successes(sink.script, old(sink.calls), |batch|)
              && committed == if applied == 0 then old(committed) else batch[applied - 1].no
    {
      ghost var s := View(sink, Idle);
      var ops := ReadUncommitted(committed, limit);
      var lastOk;
      LeadsStart(s, Read(limit));
      applied, lastOk, steps := ApplyBatch(sink, ops, s, [Read(limit)]);
      NewerAbove(queue, |queue|, committed);
      steps := Finish(sink, ops, applied, lastOk, s, steps);
    }

    /** Advances the cursor past what was accepted and trims the log, if anything was. */
    method Finish(ghost sink: Sink, ghost ops: seq<Entry>, ghost applied: nat, lastOk: nat, ghost s: State,
                  ghost begun: seq<Step>)
      returns (ghost steps: seq<Step>)
      requires Valid() && applied <= |ops| && (applied == 0 <==> lastOk == committed) && lastOk >= committed
      requires applied > 0 ==> ops[applied - 1].no == lastOk
      requires Leads(s, begun, View(sink, if applied < |ops| then Failed(ops, applied) else Applying(ops, applied)))
      modifies this
      ensures Valid() && committed == lastOk && Leads(s, steps, View(sink, Idle))
    {
      ghost var t := View(sink, if applied < |ops| then Failed(ops, applied) else Applying(ops, applied));
      if lastOk > committed {
        LeadsOn(s, begun, t, Persist);
        PersistCommitted(lastOk);
        LeadsOn(s, begun + [Persist], View(sink, Trimming), Step.Compact);
        var removed := Compact();
        steps := begun + [Persist] + [Step.Compact];
      } else {
        LeadsOn(s, begun, t, GiveUp);
        steps := begun + [GiveUp];
      }
    }
  }

  lemma {:induction false} NewerAbove(q: seq<Entry>, n: nat, from: nat)
    requires n <= |q|
    ensures forall i :: 0 <= i < |NewerIn(q, n, from)| ==> NewerIn(q, n, from)[i].no > from
  {
    if n > 0 { NewerAbove(q, n - 1, from); }
  }

  lemma {:induction false} NewerGrows(q: seq<Entry>, i: nat, n: nat, from: nat)
    requires i <= n <= |q|
    ensures NewerIn(q, i, from) <= NewerIn(q, n, from)
  {
    if i < n { NewerGrows(q, i, n - 1, from); }
  }
}
