/** A migration ends: every step of it that is not an interruption brings it closer to its commit. */
module MigrationProgress {
  import opened Seqs
  import opened Replication
  import opened Values
  import opened Gates
  import opened Migration
  import opened MigrationInvariant
  import opened MigrationClients
  import opened MigrationTheorems

  ghost predicate UnderWay(s: State) { !s.task.Idle? || s.overlay.Some? }

  /** The members a migration is on its way to. */
  function Target(s: State): seq<Node> {
    if s.overlay.Some? then s.overlay.value.next else if s.task.Committing? then s.task.next else s.nodes
  }

  /** The buckets that are done once the current chunk is. */
  function Covered(s: State): set<nat> {
    match s.task
    case Idle => if s.journal.Some? then s.journal.value.done else {}
    case Between(done) => done
    case Draining(done, chunk) => done + chunk
    case Copying(done, chunk, _, _) => done + chunk
    case Dropping(done, chunk, _) => done + chunk
    case Unfrozen(done, chunk) => done + chunk
    case Committing(_, _) => {}
  }

  /** Which buckets move between two memberships. */
  type Movers = (seq<Node>, seq<Node>) -> set<nat>

  ghost function MoversOf(c: Conf): Movers { (prev: seq<Node>, next: seq<Node>) => Moving(c, prev, next) }

  function BucketsLeft(moving: Movers, s: State): nat {
    if s.overlay.None? || s.task.Committing? then 0
    else |moving(s.overlay.value.prev, s.overlay.value.next) - Covered(s)|
  }

  function PhasesLeft(s: State): nat {
    match s.task
    case Idle => 6
    case Draining(_, _) => 5
    case Copying(_, _, _, _) => 4
    case Dropping(_, _, _) => 3
    case Unfrozen(_, _) => 2
    case Between(_) => 1
    case Committing(_, _) => 0
  }

  function JobsLeft(s: State): nat {
    match s.task
    case Copying(_, _, jobs, held) => 2 * |jobs| + (if held.Some? then 1 else 0)
    case Dropping(_, _, drops) => |drops|
    case Committing(stage, _) => if stage < 5 then 5 - stage else 0
    case _ => 0
  }

  /** Fewer buckets, or as many and a later phase, or the same phase and fewer jobs. */
  predicate Closer(moving: Movers, s': State, s: State) {
    || BucketsLeft(moving, s') < BucketsLeft(moving, s)
    || (BucketsLeft(moving, s') == BucketsLeft(moving, s)
        && (PhasesLeft(s') < PhasesLeft(s) || (PhasesLeft(s') == PhasesLeft(s) && JobsLeft(s') < JobsLeft(s))))
  }

  /** A step of the migration itself. */
  ghost predicate OfMigration(c: Conf, s: State, e: Step) {
    TaskGuard(c, s, e) && !e.Abort? && !e.AddClient?
  }

  lemma {:induction false} FewerLeft(moving: set<nat>, done: set<nat>, chunk: set<nat>)
    requires chunk != {} && chunk <= moving - done
    ensures |moving - (done + chunk)| < |moving - done|
  {
    assert moving - done == (moving - (done + chunk)) + chunk;
  }

  lemma {:induction false} OneFewer<T>(xs: set<T>, x: T)
    requires x in xs
    ensures |xs - {x}| == |xs| - 1
  {}

  /** The steps that do one of the jobs at hand. */
  ghost predicate OneJob(e: Step) { e.ExportJob? || e.ImportHeld? || e.DropOne? || e.Commit? }

  /** Fewer jobs in the same phase of the same chunk. */
  lemma {:induction false} FewerJobs(moving: Movers, s': State, s: State)
    requires s'.overlay == s.overlay && Covered(s') == Covered(s) && PhasesLeft(s') == PhasesLeft(s)
    requires s'.task.Committing? == s.task.Committing? && JobsLeft(s') < JobsLeft(s)
    ensures Closer(moving, s', s)
  {}

  lemma {:induction false} ExportHasFewerJobs(c: Conf, s: State, job: CopyJob)
    requires TaskGuard(c, s, ExportJob(job))
    ensures JobsLeft(TaskStep(c, s, ExportJob(job))) < JobsLeft(s)
  {
    OneFewer(s.task.jobs, job);
    var s' := TaskStep(c, s, ExportJob(job));
    assert s'.task.jobs == s.task.jobs - {job};
  }

  lemma {:induction false} DropHasFewerJobs(c: Conf, s: State, drop: DropJob)
    requires TaskGuard(c, s, DropOne(drop))
    ensures JobsLeft(TaskStep(c, s, DropOne(drop))) < JobsLeft(s)
  {
    OneFewer(s.task.drops, drop);
    var s' := TaskStep(c, s, DropOne(drop));
    assert s'.task.drops == s.task.drops - {drop};
  }

  lemma {:induction false} CommitIsCloser(moving: Movers, c: Conf, s: State)
    requires s.task.Committing? && UnderWay(CommitStep(c, s))
    ensures Closer(moving, CommitStep(c, s), s)
  {}

  lemma {:induction false} ImportIsCloser(moving: Movers, c: Conf, s: State)
    requires TaskGuard(c, s, ImportHeld)
    ensures Closer(moving, TaskStep(c, s, ImportHeld), s)
  {
    FewerJobs(moving, TaskStep(c, s, ImportHeld), s);
  }

  lemma {:induction false} JobIsCloser(moving: Movers, c: Conf, s: State, e: Step)
    requires OfMigration(c, s, e) && OneJob(e) && UnderWay(TaskStep(c, s, e))
    ensures Closer(moving, TaskStep(c, s, e), s)
  {
    match e
    case ExportJob(job) => ExportHasFewerJobs(c, s, job); FewerJobs(moving, TaskStep(c, s, e), s);
    case ImportHeld => ImportIsCloser(moving, c, s);
    case DropOne(drop) => DropHasFewerJobs(c, s, drop); FewerJobs(moving, TaskStep(c, s, e), s);
    case Commit => CommitIsCloser(moving, c, s);
  }

  lemma {:induction false} FreezeIsCloser(moving: Movers, c: Conf, s: State, chunk: set<nat>)
    requires OfMigration(c, s, Step.Freeze(chunk))
    requires moving(s.overlay.value.prev, s.overlay.value.next) == Moving(c, s.overlay.value.prev, s.overlay.value.next)
    ensures Closer(moving, TaskStep(c, s, Step.Freeze(chunk)), s)
  {
    FewerLeft(moving(s.overlay.value.prev, s.overlay.value.next), s.task.done, chunk);
  }

  lemma {:induction false} PhaseIsCloser(moving: Movers, c: Conf, s: State, e: Step)
    requires UnderWay(s) && OfMigration(c, s, e) && !OneJob(e) && !e.Freeze?
    requires e.Resume? ==> Recorded(s, s.overlay.value, s.journal.value.done)
    ensures Closer(moving, TaskStep(c, s, e), s)
  {
    var s' := TaskStep(c, s, e);
    assert PhasesLeft(s') < PhasesLeft(s);
    if !e.FinishChunks? { assert Covered(s') == Covered(s) && BucketsLeft(moving, s') == BucketsLeft(moving, s); }
  }

  lemma {:induction false} StepIsCloser(moving: Movers, c: Conf, s: State, g: Ghost, e: Step)
    requires moving == MoversOf(c)
    requires TaskOk(c, s, g) && UnderWay(s) && OfMigration(c, s, e) && UnderWay(TaskStep(c, s, e))
    ensures Closer(moving, TaskStep(c, s, e), s)
  {
    if OneJob(e) {
      JobIsCloser(moving, c, s, e);
    } else if e.Freeze? {
      FreezeIsCloser(moving, c, s, e.chunk);
    } else {
      PhaseIsCloser(moving, c, s, e);
    }
  }

  lemma {:induction false} ResumeKeepsTarget(c: Conf, s: State, g: Ghost)
    requires TaskOk(c, s, g) && TaskGuard(c, s, Resume)
    ensures Target(TaskStep(c, s, Resume)) == Target(s)
  {}

  lemma {:induction false} LastStageReaches(c: Conf, s: State, g: Ghost)
    requires TaskOk(c, s, g) && s.task.Committing?
    ensures Target(s) == s.task.next
    ensures !UnderWay(CommitStep(c, s)) ==> Elems(s.nodes) == Elems(s.task.next)
  {}

  lemma {:induction false} StepKeepsTarget(c: Conf, s: State, g: Ghost, e: Step)
    requires TaskOk(c, s, g) && UnderWay(s) && OfMigration(c, s, e)
    ensures var s' := TaskStep(c, s, e);
            && s'.ops == s.ops && (UnderWay(s') ==> Target(s') == Target(s))
            && (!UnderWay(s') ==> Elems(s'.nodes) == Elems(Target(s)))
  {
    match e
    case Resume => ResumeKeepsTarget(c, s, g);
    case Commit => LastStageReaches(c, s, g);
    case _ =>
  }

  lemma {:induction false} LongerRun(c: Conf, ss: seq<State>, es: seq<Step>, e: Step, s': State)
    requires Run(c, ss, es) && Next(c, ss[|es|], e, s')
    ensures Run(c, ss + [s'], es + [e])
  {
    var more, steps := ss + [s'], es + [e];
    forall i | 0 <= i < |steps| ensures Next(c, more[i], steps[i], more[i + 1]) {
      if i < |es| { assert Next(c, ss[i], es[i], ss[i + 1]); }
    }
  }

  /** What is to be shown of a continuation. */
  ghost predicate EndsAt(c: Conf, ss: seq<State>, es: seq<Step>, members: seq<Node>) {
    && Run(c, ss, es) && Quiescent(c, ss[|es|]) && ss[|es|].gate == Open
    && Elems(ss[|es|].nodes) == Elems(members)
  }

  /** One step further. */
  lemma {:induction false} MigrationGoesOn(c: Conf, ss: seq<State>, es: seq<Step>) returns (e: Step, s': State)
    requires Lawful(c) && Run(c, ss, es) && ss[|es|].ops == map[] && UnderWay(ss[|es|])
    ensures Run(c, ss + [s'], es + [e]) && s'.ops == map[]
    ensures UnderWay(s') ==> Target(s') == Target(ss[|es|]) && Closer(MoversOf(c), s', ss[|es|])
    ensures !UnderWay(s') ==> Quiescent(c, s') && Elems(s'.nodes) == Elems(Target(ss[|es|]))
  {
    var s := ss[|es|];
    var g := RunHolds(c, ss, es, |es|);
    forall b: nat ensures LiveOn(c, s.ops, b) == {} {}
    e := NextTaskStep(c, s, g);
    s' := TaskStep(c, s, e);
    LongerRun(c, ss, es, e, s');
    StepKeepsTarget(c, s, g, e);
    if UnderWay(s') { StepIsCloser(MoversOf(c), c, s, g, e); }
  }

  /**
   * From every reachable state with no operation in flight, also inside an interrupted chunk, the
   * migration under way can be carried to its end: nothing in flight, nothing frozen, no overlay,
   * the new members.
   */
  lemma {:induction false} MigrationEnds(c: Conf, ss: seq<State>, es: seq<Step>)
    returns (ss': seq<State>, es': seq<Step>)
    requires Lawful(c) && Run(c, ss, es) && ss[|es|].ops == map[] && UnderWay(ss[|es|])
    ensures EndsAt(c, ss', es', Target(ss[|es|])) && ss <= ss' && es <= es'
    decreases BucketsLeft(MoversOf(c), ss[|es|]), PhasesLeft(ss[|es|]), JobsLeft(ss[|es|])
  {
    var e, s' := MigrationGoesOn(c, ss, es);
    ss', es' := ss + [s'], es + [e];
    if UnderWay(s') {
      ss', es' := MigrationEnds(c, ss', es');
    } else {
      QuiescentIsOpen(c, ss', es', |es'|);
    }
  }
}
