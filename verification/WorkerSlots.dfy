/** The worker's main loop and its tasks: permits, the join set and cancellation, interleaved. */
module WorkerSlots {

  type Job = nat

  /**
   * Where the loop stands; from `Dequeuing` to `Spawning` it holds a permit. In each of the three selects
   * `polled` says that this poll has already found the cancellation missing.
   */
  datatype Phase =
    | Acquiring(polled: bool)
    | Dequeuing(polled: bool)
    | Spawning(job: Job)
    | Reaping
    | Pausing(polled: bool)
    | Draining
    | Stopped
  {
    predicate HoldsPermit() {
      Dequeuing? || Spawning?
    }

    predicate Selecting() {
      Acquiring? || Dequeuing? || Pausing?
    }

    predicate Polled() {
      Selecting() && polled
    }
  }

  /** Task `i` is the one spawned for the `i`-th dequeued job. */
  datatype State = State(
    phase: Phase,
    free: nat,
    cancelled: bool,
    dequeued: seq<Job>,
    spawned: seq<Job>,
    running: set<nat>,
    joinSet: set<nat>
  )

  function Init(concurrency: nat): State {
    State(Acquiring(false), concurrency, false, [], [], {}, {})
  }

  datatype Label =
    | Cancel
    | Poll
    | Pending
    | Acquire
    | Dequeue(job: Job)
    | DequeueFails
    | Spawn
    | Reap(task: nat)
    | ReapDone
    | PauseOver
    | Leave
    | Finish(task: nat)
    | Join(task: nat)
    | Stop

  /**
   * The selects are biased: each poll asks for the cancellation first and only then for the other future,
   * which may be pending. A cancellation between the two is seen by the next poll.
   */
  predicate Enabled(s: State, l: Label) {
    match l
    case Cancel => true
    case Poll => s.phase.Selecting() && !s.phase.polled && !s.cancelled
    case Pending => s.phase.Polled()
    case Acquire => s.phase.Acquiring? && s.phase.polled && s.free > 0
    case Dequeue(_) => s.phase.Dequeuing? && s.phase.polled
    case DequeueFails => s.phase.Dequeuing? && s.phase.polled
    case Spawn => s.phase.Spawning?
    case Reap(t) => s.phase.Reaping? && t in s.joinSet && t !in s.running
    case ReapDone => s.phase.Reaping? && s.joinSet <= s.running
    case PauseOver => s.phase.Pausing? && s.phase.polled
    case Leave => s.cancelled && s.phase.Selecting() && !s.phase.polled
    case Finish(t) => t in s.running
    case Join(t) => s.phase.Draining? && t in s.joinSet && t !in s.running
    case Stop => s.phase.Draining? && s.joinSet == {}
  }

  function Next(s: State, l: Label): State
    requires Enabled(s, l)
  {
    match l
    case Cancel => s.(cancelled := true)
    case Poll => s.(phase := s.phase.(polled := true))
    case Pending => s.(phase := s.phase.(polled := false))
    case Acquire => s.(phase := Dequeuing(false), free := s.free - 1)
    case Dequeue(job) => s.(phase := Spawning(job), dequeued := s.dequeued + [job])
    case DequeueFails => s.(phase := Pausing(false), free := s.free + 1)
    case Spawn =>
      var t := |s.spawned|;
      s.(phase := Reaping, spawned := s.spawned + [s.phase.job], running := s.running + {t}, joinSet := s.joinSet + {t})
    case Reap(t) => s.(joinSet := s.joinSet - {t})
    case ReapDone => s.(phase := Acquiring(false))
    case PauseOver => s.(phase := Acquiring(false))
    case Leave => s.(phase := Draining, free := if s.phase.HoldsPermit() then s.free + 1 else s.free)
    case Finish(t) => s.(running := s.running - {t}, free := s.free + 1)
    case Join(t) => s.(joinSet := s.joinSet - {t})
    case Stop => s.(phase := Stopped)
  }

  ghost predicate IsRun(n: nat, states: seq<State>, labels: seq<Label>) {
    && |states| == |labels| + 1
    && states[0] == Init(n)
    && forall i :: 0 <= i < |labels| ==> Enabled(states[i], labels[i]) && states[i + 1] == Next(states[i], labels[i])
  }

  /** Every permit is free, with the loop or with exactly one running task. */
  predicate PermitsConserved(s: State, n: nat) {
    s.free + (if s.phase.HoldsPermit() then 1 else 0) + |s.running| == n
  }

  /** Every dequeued job has its task, in order; the latest may still be on its way. */
  predicate JobsConserved(s: State) {
    && s.dequeued == (if s.phase.Spawning? then s.spawned + [s.phase.job] else s.spawned)
    && s.running <= s.joinSet
    && (forall t :: t in s.joinSet ==> t < |s.spawned|)
    && (s.phase.Stopped? ==> s.running == {})
    && (s.phase.Draining? || s.phase.Stopped? ==> s.cancelled)
  }

  lemma SlotsStep(s: State, l: Label, n: nat)
    requires PermitsConserved(s, n) && JobsConserved(s) && Enabled(s, l)
    ensures PermitsConserved(Next(s, l), n) && JobsConserved(Next(s, l))
  {
  }

  /**
   * At every step permits are conserved, at most `n` tasks run, every job taken from the queue has exactly
   * one task even if cancellation strikes in between, and the worker stops only when no task is running.
   */
  lemma {:induction false} SlotsConserved(n: nat, states: seq<State>, labels: seq<Label>, i: nat)
    requires IsRun(n, states, labels) && i < |states|
    ensures PermitsConserved(states[i], n) && JobsConserved(states[i]) && |states[i].running| <= n
    ensures states[i].phase.Stopped? ==> states[i].running == {} && states[i].free == n
                                         && states[i].spawned == states[i].dequeued
  {
    if i > 0 {
      SlotsConserved(n, states, labels, i - 1);
      SlotsStep(states[i - 1], labels[i - 1], n);
    }
  }

  // ---------------------------------------------------------------------------
  // Shutting down
  // ---------------------------------------------------------------------------

  /** What may still be dequeued after a cancellation that strikes in `s`: one job, if a poll is past its check. */
  predicate TakenSince(s: State, s': State) {
    || s'.dequeued == s.dequeued
    || (s.phase == Dequeuing(true) && |s'.dequeued| == |s.dequeued| + 1 && s.dequeued <= s'.dequeued
        && s'.phase != Dequeuing(true))
  }

  lemma {:induction false} LastJobTaken(n: nat, states: seq<State>, labels: seq<Label>, i: nat, j: nat)
    requires IsRun(n, states, labels) && i <= j < |states| && states[i].cancelled
    ensures states[j].cancelled && TakenSince(states[i], states[j])
    ensures states[j].phase == Dequeuing(true) ==> states[i].phase == Dequeuing(true)
    ensures states[j].phase == Dequeuing(true) ==> states[j].dequeued == states[i].dequeued
    decreases j
  {
    if i < j {
      LastJobTaken(n, states, labels, i, j - 1);
      var s, l := states[j - 1], labels[j - 1];
      assert states[j] == Next(s, l) && Enabled(s, l);
    }
  }

  /** How many steps a cancelled worker has left at most. */
  function Rank(s: State): nat {
    |s.running| + |s.joinSet|
    + match s.phase
      case Dequeuing(true) => 7
      case Spawning(_) => 6
      case Acquiring(true) => 3
      case Pausing(true) => 3
      case Reaping => 3
      case Acquiring(false) => 2
      case Dequeuing(false) => 2
      case Pausing(false) => 2
      case Draining => 1
      case Stopped => 0
  }

  lemma RankFalls(s: State, l: Label)
    requires JobsConserved(s) && s.cancelled && Enabled(s, l) && !l.Cancel?
    ensures Rank(Next(s, l)) < Rank(s)
  {
    if l.Spawn? {
      assert |s.spawned| !in s.joinSet;
    }
  }

  /** A cancelled worker is never stuck as long as its running tasks finish. */
  lemma CancelledMoves(s: State)
    requires JobsConserved(s) && s.cancelled && !s.phase.Stopped?
    ensures exists l: Label :: !l.Cancel? && Enabled(s, l)
  {
    if s.phase.Selecting() {
      assert Enabled(s, if s.phase.polled then Pending else Leave);
    } else if s.phase.Spawning? {
      assert Enabled(s, Spawn);
    } else if s.running != {} {
      var t :| t in s.running;
      assert Enabled(s, Finish(t));
    } else if s.joinSet != {} {
      var t :| t in s.joinSet;
      assert Enabled(s, if s.phase.Reaping? then Reap(t) else Join(t));
    } else {
      assert Enabled(s, if s.phase.Reaping? then ReapDone else Stop);
    }
  }

  lemma StuckIsStopped(s: State)
    requires JobsConserved(s) && s.cancelled
    ensures (forall l: Label :: Enabled(s, l) ==> l.Cancel?) <==> s.phase.Stopped?
  {
    if !s.phase.Stopped? {
      CancelledMoves(s);
    }
  }

  lemma {:induction false} RankFallsAlong(n: nat, states: seq<State>, labels: seq<Label>, i: nat, j: nat)
    requires IsRun(n, states, labels) && i <= j < |states| && states[i].cancelled
    requires forall x :: i <= x < j ==> !labels[x].Cancel?
    ensures j - i + Rank(states[j]) <= Rank(states[i])
    decreases j
  {
    if i < j {
      RankFallsAlong(n, states, labels, i, j - 1);
      LastJobTaken(n, states, labels, i, j - 1);
      SlotsConserved(n, states, labels, j - 1);
      RankFalls(states[j - 1], labels[j - 1]);
    }
  }

  /**
   * A cancelled worker takes no further job, except one if the cancellation strikes between the two polls of
   * the dequeuing select. It makes only boundedly many further steps, and where it can make none it has
   * stopped: every job dequeued has had its task, and all permits are free.
   */
  lemma StopsAfterCancel(n: nat, states: seq<State>, labels: seq<Label>, i: nat, j: nat)
    requires IsRun(n, states, labels) && i <= j < |states| && states[i].cancelled
    requires forall x :: i <= x < j ==> !labels[x].Cancel?
    ensures TakenSince(states[i], states[j])
    ensures j - i + Rank(states[j]) <= Rank(states[i])
    ensures (forall l: Label :: Enabled(states[j], l) ==> l.Cancel?) <==> states[j].phase.Stopped?
    ensures states[j].phase.Stopped? ==>
      states[j].spawned == states[j].dequeued && states[j].running == {} && states[j].free == n
  {
    RankFallsAlong(n, states, labels, i, j);
    LastJobTaken(n, states, labels, i, j);
    SlotsConserved(n, states, labels, j);
    StuckIsStopped(states[j]);
  }

  /** That one job can come: a worker with a permit to spare, cancelled between the two polls. */
  lemma OneJobAfterCancel(n: nat, job: Job) returns (states: seq<State>, labels: seq<Label>)
    requires n >= 1
    ensures IsRun(n, states, labels) && labels == [Poll, Acquire, Poll, Cancel, Dequeue(job)]
    ensures states[4].cancelled && states[4].dequeued == [] && states[5].dequeued == [job]
  {
    var s0 := Init(n);
    var s1 := Next(s0, Poll);
    var s2 := Next(s1, Acquire);
    var s3 := Next(s2, Poll);
    var s4 := Next(s3, Cancel);
    labels := [Poll, Acquire, Poll, Cancel, Dequeue(job)];
    states := [s0, s1, s2, s3, s4, Next(s4, Dequeue(job))];
  }
}
