/**
 * No blob a queued email needs is ever deleted: not by a submission's compensation, not by a worker's
 * cleanup and not by the sweeper, exactly when the grace period covers the two delays in `Brisk`.
 */
module AttachmentSafety {
  import opened Core
  import opened LeaseTable
  import opened WorkerTask
  import opened BlobAge
  import opened Pipeline
  import opened PipelineInvariant

  predicate InQueue(s: State, m: EmailId) {
    m in s.ids.entryOf && s.ids.entryOf[m] in s.db.rows
  }

  /** `k` is needed by a queued email or may still be by a submission under way. */
  predicate Needed(s: State, k: Key) {
    k in s.ids.keys
    && var m := s.ids.keys[k].owner;
       || (InQueue(s, m) && m in s.db.emails && k in s.db.emails[m])
       || (m in s.submits && s.submits[m].Ongoing() && k in s.submits[m].written)
  }

  ghost predicate NeededKept(s: State) {
    forall k :: Needed(s, k) ==> k in s.db.blobs
  }

  /** A task whose entry is still queued works with the references of its email row. */
  predicate TaskRefs(s: State) {
    forall t :: t in s.tasks && s.tasks[t].entry in s.db.rows ==>
      s.tasks[t].email in s.db.emails && s.db.emails[s.tasks[t].email] == s.tasks[t].refs
  }

  /** What the sweeper may rely on once it has read the references, and once it has listed the store. */
  predicate SweepSound(s: State, d: nat) {
    match s.sweep
    case Idle => true
    case Snapshotted(live, at) =>
      at <= s.now
      && forall k :: k in s.ids.keys && k !in live && s.ids.keys[k].at + d < at ==> !Needed(s, k)
    case Deleting(live, todo) =>
      forall k :: k in todo && k !in live ==> k in s.ids.keys && !Needed(s, k)
  }

  // ---------------------------------------------------------------------------
  // One step
  // ---------------------------------------------------------------------------

  /** A key that nobody needs is never needed again. */
  predicate NoRevival(s: State, s': State) {
    && (forall k :: k in s.ids.keys ==> k in s'.ids.keys && s'.ids.keys[k] == s.ids.keys[k])
    && (forall k :: k in s.ids.keys && Needed(s', k) ==> Needed(s, k))
  }

  lemma NoRevivalCall(s: State, t: TaskId, call: Call)
    requires Links(s) && t in s.tasks && Awaits(s.tasks[t], call)
    ensures NoRevival(s, DoCall(s, t, call))
  {
  }

  lemma NoRevivalPut(s: State, m: EmailId, k: Key)
    requires Links(s) && InPc(s, m, Storing) && k !in s.ids.keys
    ensures NoRevival(s, DoPut(s, m, k))
  {
  }

  lemma NoRevivalPutLost(s: State, m: EmailId, k: Key)
    requires Links(s) && InPc(s, m, Storing) && k !in s.ids.keys
    ensures NoRevival(s, DoPutLost(s, m, k))
  {
  }

  lemma NoRevivalRefs(s: State, m: EmailId)
    requires Links(s) && InPc(s, m, Referencing)
    ensures m in s.db.emails && NoRevival(s, DoSetRefs(s, m)) && NoRevival(s, DoRollback(s, m))
  {
  }

  lemma NoRevivalEnqueue(s: State, m: EmailId, e: EntryId)
    requires Links(s) && InPc(s, m, Enqueueing) && e !in s.ids.entryOf.Values
    ensures NoRevival(s, DoEnqueue(s, m, e)) && NoRevival(s, DoRollback(s, m))
  {
  }

  lemma NoRevivalOther(c: Config, s: State, l: Label, s': State)
    requires Links(s) && Enabled(c, s, l) && s' == Next(c, s, l)
    requires !l.TaskCall? && !l.Put? && !l.PutLost? && !l.SetRefs? && !l.Enqueue?
    ensures NoRevival(s, s')
  {
  }

  lemma NoRevivalStep(c: Config, s: State, l: Label, s': State)
    requires Links(s) && Enabled(c, s, l) && s' == Next(c, s, l)
    ensures NoRevival(s, s')
  {
    if l.TaskCall? {
      NoRevivalCall(s, l.task, l.call);
    } else if l.Put? {
      NoRevivalPut(s, l.m, l.key);
    } else if l.PutLost? {
      NoRevivalPutLost(s, l.m, l.key);
    } else if l.SetRefs? {
      NoRevivalRefs(s, l.m);
    } else if l.Enqueue? {
      NoRevivalEnqueue(s, l.m, l.entry);
    } else {
      NoRevivalOther(c, s, l, s');
    }
  }

  /** Whatever a step deletes, nobody needs. */
  predicate DeletesUnneeded(s: State, s': State) {
    forall k :: k in s.db.blobs && k !in s'.db.blobs ==> !Needed(s, k)
  }

  lemma UndoDeletesUnneeded(s: State, m: EmailId, ok: bool)
    requires Links(s) && m in s.submits && s.submits[m].pc.Undoing? && s.submits[m].pc.todo != []
    ensures DeletesUnneeded(s, DoUndoBlob(s, m, ok))
  {
    assert SubmitOk(s, m);
    assert s.submits[m].pc.todo[0] in s.submits[m].pc.todo;
  }

  lemma CallDeletesUnneeded(s: State, t: TaskId, call: Call)
    requires Links(s) && t in s.tasks && Awaits(s.tasks[t], call)
    ensures DeletesUnneeded(s, DoCall(s, t, call))
  {
    var task := s.tasks[t];
    assert TaskOk(s, t);
    if call.DeleteBlobCall? {
      assert task.refs[task.pc.next] in task.refs;
      assert task.email in s.submits ==> SubmitOk(s, task.email);
    }
  }

  lemma DeletesUnneededStep(c: Config, s: State, l: Label, s': State, d: nat)
    requires Links(s) && SweepSound(s, d) && Enabled(c, s, l) && s' == Next(c, s, l)
    ensures DeletesUnneeded(s, s')
  {
    if l.UndoBlob? {
      UndoDeletesUnneeded(s, l.m, l.ok);
    } else if l.TaskCall? {
      CallDeletesUnneeded(s, l.task, l.call);
    } else if l.SweepDelete? {
      assert s'.db.blobs == s.db.blobs || s'.db.blobs == s.db.blobs - {l.key};
    } else {
      assert forall k :: k in s.db.blobs ==> k in s'.db.blobs;
    }
  }

  lemma KeptStep(c: Config, s: State, l: Label, s': State, d: nat)
    requires Links(s) && NeededKept(s) && SweepSound(s, d) && Enabled(c, s, l) && s' == Next(c, s, l)
    ensures NeededKept(s')
  {
    NoRevivalStep(c, s, l, s');
    DeletesUnneededStep(c, s, l, s', d);
    forall k | Needed(s', k) ensures k in s'.db.blobs {
      if k !in s.ids.keys {
        assert l.Put?;
      }
    }
  }

  /** The reference query answers in time: an unreferenced blob this old belongs to nobody. */
  lemma SnapshotSound(s: State, live: set<Key>, d: nat, g: nat, k: Key)
    requires Invariant(s) && Brisk(s, d, g) && IsSnapshot(s, live)
    requires k in s.ids.keys && k !in live && s.ids.keys[k].at + d < s.now
    ensures !Needed(s, k)
  {
  }

  lemma SweepStep(c: Config, s: State, l: Label, s': State, d: nat, g: nat)
    requires Invariant(s) && NeededKept(s) && SweepSound(s, d) && Brisk(s, d, g)
    requires c.Plausible() && d + g + Slack(c.store) < c.graceMs && c.bootMs <= s.now
    requires Enabled(c, s, l) && s' == Next(c, s, l)
    ensures SweepSound(s', d)
  {
    NoRevivalStep(c, s, l, s');
    match l
    case Snapshot(live) =>
      forall k | k in s.ids.keys && k !in live && s.ids.keys[k].at + d < s.now ensures !Needed(s', k) {
        SnapshotSound(s, live, d, g, k);
      }
    case ListOld(todo) =>
      forall k | k in todo && k !in s.sweep.live ensures k in s'.ids.keys && !Needed(s', k) {
        ListedIsOld(c.store, s.now, s.db.blobs[k], c.graceMs);
      }
    case Put(m, k) =>
      assert s'.sweep == s.sweep;
    case _ =>
  }

  /** Only references of an email whose entry is gone are cleared. */
  lemma CallSparesRefs(s: State, t: TaskId, call: Call, u: TaskId)
    requires Links(s) && t in s.tasks && Awaits(s.tasks[t], call) && u in s.tasks && s.tasks[u].entry in s.db.rows
    ensures s.tasks[u].email in s.db.emails ==>
      s.tasks[u].email in DoCall(s, t, call).db.emails
      && DoCall(s, t, call).db.emails[s.tasks[u].email] == s.db.emails[s.tasks[u].email]
  {
    assert TaskOk(s, t) && TaskOk(s, u);
  }

  lemma TaskRefsCall(s: State, t: TaskId, call: Call)
    requires Links(s) && TaskRefs(s) && t in s.tasks && Awaits(s.tasks[t], call)
    ensures TaskRefs(DoCall(s, t, call))
  {
    var s' := DoCall(s, t, call);
    CallShrinks(s.db, s.tasks[t], call, s.now);
    assert TaskOk(s, t);
    forall u | u in s'.tasks && s'.tasks[u].entry in s'.db.rows
      ensures s'.tasks[u].email in s'.db.emails && s'.db.emails[s'.tasks[u].email] == s'.tasks[u].refs
    {
      assert s'.tasks[u] == s.tasks[u].(pc := s'.tasks[u].pc, resolvedAt := s'.tasks[u].resolvedAt);
      CallSparesRefs(s, t, call, u);
    }
  }

  /** Outside the worker, the row of an accepted email is left alone. */
  lemma AcceptedRowSpared(c: Config, s: State, l: Label, s': State, m: EmailId)
    requires Enabled(c, s, l) && s' == Next(c, s, l) && !l.TaskCall?
    requires m in s.ids.known && m in s.db.emails && (m in s.submits ==> s.submits[m].pc.Announcing?)
    ensures m in s'.db.emails && s'.db.emails[m] == s.db.emails[m]
  {
  }

  lemma TaskRefsOther(c: Config, s: State, l: Label, s': State, u: TaskId)
    requires Links(s) && TaskRefs(s) && Enabled(c, s, l) && s' == Next(c, s, l) && !l.TaskCall? && !l.Claim?
    requires u in s.tasks && s.tasks[u].entry in s'.db.rows
    ensures s.tasks[u].email in s'.db.emails && s'.db.emails[s.tasks[u].email] == s.tasks[u].refs
  {
    assert TaskOk(s, u);
    if l.Enqueue? {
      assert SubmitOk(s, l.m) && l.m != s.tasks[u].email;
    }
    assert s.tasks[u].entry in s.db.rows;
    assert s.tasks[u].email in s.submits ==> SubmitOk(s, s.tasks[u].email);
    AcceptedRowSpared(c, s, l, s', s.tasks[u].email);
  }

  lemma TaskRefsStep(c: Config, s: State, l: Label, s': State)
    requires Links(s) && TaskRefs(s) && Enabled(c, s, l) && s' == Next(c, s, l)
    ensures TaskRefs(s')
  {
    if l.TaskCall? {
      TaskRefsCall(s, l.task, l.call);
    } else if l.Claim? {
      assert RowOk(s, l.entry);
    } else {
      forall u | u in s'.tasks && s'.tasks[u].entry in s'.db.rows
        ensures s'.tasks[u].email in s'.db.emails && s'.db.emails[s'.tasks[u].email] == s'.tasks[u].refs
      {
        assert s'.tasks[u] == s.tasks[u];
        TaskRefsOther(c, s, l, s', u);
      }
    }
  }

  // ---------------------------------------------------------------------------
  // All runs
  // ---------------------------------------------------------------------------

  ghost predicate BriskRun(c: Config, d: nat, g: nat, states: seq<State>, labels: seq<Label>) {
    IsRun(c, states, labels) && forall i :: 0 <= i < |states| ==> Brisk(states[i], d, g)
  }

  /** Every blob an email with an un-acked entry refers to exists, and so does every one its worker reads. */
  predicate BlobsPresent(s: State) {
    && (forall e :: e in s.db.rows ==>
          s.db.rows[e].email in s.db.emails
          && forall k :: k in s.db.emails[s.db.rows[e].email] ==> k in s.db.blobs)
    && (forall t :: t in s.tasks && s.tasks[t].entry in s.db.rows ==>
          forall k :: k in s.tasks[t].refs ==> k in s.db.blobs)
  }

  ghost predicate Guarded(s: State, d: nat) {
    NeededKept(s) && SweepSound(s, d) && TaskRefs(s)
  }

  lemma GuardedInit(c: Config, d: nat)
    ensures Guarded(Init(c), d)
  {
  }

  lemma BriskStep(c: Config, d: nat, g: nat, s: State, l: Label, s': State)
    requires c.Plausible() && d + g + Slack(c.store) < c.graceMs && c.bootMs <= s.now
    requires Brisk(s, d, g) && Enabled(c, s, l) && s' == Next(c, s, l)
    requires Invariant(s) && Guarded(s, d)
    ensures Guarded(s', d)
  {
    KeptStep(c, s, l, s', d);
    SweepStep(c, s, l, s', d, g);
    TaskRefsStep(c, s, l, s');
  }

  lemma {:induction false} BriskInvariant(
    c: Config, d: nat, g: nat, states: seq<State>, labels: seq<Label>, i: nat)
    requires BriskRun(c, d, g, states, labels) && i < |states|
    requires c.Plausible() && d + g + Slack(c.store) < c.graceMs
    ensures Guarded(states[i], d)
  {
    if i == 0 {
      GuardedInit(c, d);
    } else {
      var s, l, s' := states[i - 1], labels[i - 1], states[i];
      Reachable(c, states, labels, i - 1);
      BriskInvariant(c, d, g, states, labels, i - 1);
      assert Brisk(s, d, g) && Enabled(c, s, l) && s' == Next(c, s, l);
      BriskStep(c, d, g, s, l, s');
    }
  }

  lemma PresentFromKept(s: State)
    requires Links(s) && NeededKept(s) && TaskRefs(s)
    ensures BlobsPresent(s)
  {
  }

  /** Every run that meets the two delays keeps every needed blob. */
  ghost predicate SafeDeployment(c: Config, d: nat, g: nat) {
    forall states, labels, i :: BriskRun(c, d, g, states, labels) && 0 <= i < |states| ==>
      BlobsPresent(states[i])
  }

  lemma GraceSuffices(c: Config, d: nat, g: nat)
    requires c.Plausible() && d + g + Slack(c.store) < c.graceMs
    ensures SafeDeployment(c, d, g)
  {
    forall states, labels, i | BriskRun(c, d, g, states, labels) && 0 <= i < |states|
      ensures BlobsPresent(states[i])
    {
      Reachable(c, states, labels, i);
      BriskInvariant(c, d, g, states, labels, i);
      PresentFromKept(states[i]);
    }
  }

  // ---------------------------------------------------------------------------
  // The bound is exact
  // ---------------------------------------------------------------------------

  ghost predicate Reaches(c: Config, d: nat, g: nat, s: State) {
    exists states, labels :: BriskRun(c, d, g, states, labels) && states[|states| - 1] == s
  }

  lemma ReachesInit(c: Config, d: nat, g: nat)
    ensures Reaches(c, d, g, Init(c))
  {
    assert BriskRun(c, d, g, [Init(c)], []);
    assert [Init(c)][|[Init(c)]| - 1] == Init(c);
  }

  lemma ReachesNext(c: Config, d: nat, g: nat, s: State, l: Label, s': State)
    requires Reaches(c, d, g, s) && Enabled(c, s, l) && s' == Next(c, s, l) && Brisk(s', d, g)
    ensures Reaches(c, d, g, s')
  {
    var states, labels :| BriskRun(c, d, g, states, labels) && states[|states| - 1] == s;
    assert BriskRun(c, d, g, states + [s'], labels + [l]);
    assert (states + [s'])[|states + [s']| - 1] == s';
  }

  /** A submission has stored its one blob at time `p` and is still to reference it at time `p + d`. */
  function Stored(c: Config, d: nat, p: nat): State {
    State(p + d, Db(map[], map[0 := []], map[0 := p], []), map[], map[0 := Submit(Referencing, [0], 1)],
          Idle, Ids(map[], map[0 := KeyInfo(0, p)], {0}, 0), History([], [], {}))
  }

  lemma SavedReached(c: Config, d: nat, g: nat, p: nat) returns (s2: State)
    requires c.bootMs <= p
    ensures s2 == DoSave(Init(c).(now := p), 0, 1) && Reaches(c, d, g, s2)
  {
    ReachesInit(c, d, g);
    var s0 := Init(c);
    var s1 := s0.(now := p);
    ReachesNext(c, d, g, s0, Tick(p - c.bootMs), s1);
    s2 := DoSave(s1, 0, 1);
    ReachesNext(c, d, g, s1, Save(0, 1), s2);
  }

  lemma StoredReached(c: Config, d: nat, g: nat, p: nat)
    requires c.bootMs <= p
    ensures Reaches(c, d, g, Stored(c, d, p))
  {
    var s2 := SavedReached(c, d, g, p);
    var s3 := DoPut(s2, 0, 0);
    assert [] + [0] == [0];
    ReachesNext(c, d, g, s2, Put(0, 0), s3);
    ReachesNext(c, d, g, s3, Tick(d), Stored(c, d, p));
  }

  /** It is referenced and enqueued just after the references were read. */
  function Overlooked(c: Config, d: nat, p: nat, now: nat): State {
    State(now, Db(map[0 := Row(0, p + d, None, 0)], map[0 := [0]], map[0 := p], []), map[],
          map[0 := Submit(Announcing, [0], 1)], Snapshotted({}, p + d),
          Ids(map[0 := 0], map[0 := KeyInfo(0, p)], {0}, 0), History([], [], {0}))
  }

  lemma ReferencedReached(c: Config, d: nat, g: nat, p: nat) returns (s6: State)
    requires c.bootMs <= p
    ensures s6 == DoSetRefs(Stored(c, d, p).(sweep := Snapshotted({}, p + d)), 0)
    ensures Reaches(c, d, g, s6)
  {
    StoredReached(c, d, g, p);
    var s4 := Stored(c, d, p);
    var s5 := s4.(sweep := Snapshotted({}, p + d));
    ReachesNext(c, d, g, s4, Snapshot({}), s5);
    s6 := DoSetRefs(s5, 0);
    ReachesNext(c, d, g, s5, SetRefs(0, true), s6);
  }

  lemma OverlookedReached(c: Config, d: nat, g: nat, p: nat)
    requires c.bootMs <= p
    ensures Reaches(c, d, g, Overlooked(c, d, p, p + d + g))
  {
    var s6 := ReferencedReached(c, d, g, p);
    var s7 := Overlooked(c, d, p, p + d);
    assert s7 == DoEnqueue(s6, 0, 0);
    ReachesNext(c, d, g, s6, Enqueue(0, 0, true), s7);
    ReachesNext(c, d, g, s7, Tick(g), Overlooked(c, d, p, p + d + g));
  }

  /** The latest time before the epoch second changes, from the start of the run on. */
  function SecondEnd(bootMs: nat): (p: nat)
    ensures p >= bootMs && p % 1000 == 999
  {
    bootMs + (999 - bootMs % 1000)
  }

  lemma ListedTooEarly(store: Store, p: nat, d: nat, g: nat, graceMs: nat)
    requires p % 1000 == 999 && graceMs % 1000 == 0 && graceMs <= p
    requires d + g + Slack(store) >= graceMs
    ensures Lists(store, p + d + g, p, graceMs)
  {
  }

  lemma GraceNecessary(c: Config, d: nat, g: nat)
    requires c.Plausible() && d + g + Slack(c.store) >= c.graceMs
    ensures !SafeDeployment(c, d, g)
  {
    var p := SecondEnd(c.bootMs);
    var s := Overlooked(c, d, p, p + d + g);
    OverlookedReached(c, d, g, p);
    ListedTooEarly(c.store, p, d, g, c.graceMs);
    var s1 := s.(sweep := Deleting({}, {0}));
    ReachesNext(c, d, g, s, ListOld({0}), s1);
    var s2 := s1.(sweep := Deleting({}, {}), db := s1.db.(blobs := map[]));
    assert {0} - {0} == {} && s1.db.blobs - {0} == map[];
    assert s2 == Next(c, s1, SweepDelete(0, true));
    ReachesNext(c, d, g, s1, SweepDelete(0, true), s2);
    var states, labels :| BriskRun(c, d, g, states, labels) && states[|states| - 1] == s2;
    assert 0 in s2.db.rows && 0 in s2.db.emails[s2.db.rows[0].email] && 0 !in s2.db.blobs;
    assert !BlobsPresent(s2);
  }

  /**
   * The sweeper is safe next to any interleaving of submissions and workers if and only if the grace
   * period is longer than the two delays plus the store's rounding.
   */
  lemma SweeperSafety(c: Config, d: nat, g: nat)
    requires c.Plausible()
    ensures SafeDeployment(c, d, g) <==> d + g + Slack(c.store) < c.graceMs
  {
    if d + g + Slack(c.store) < c.graceMs {
      GraceSuffices(c, d, g);
    } else {
      GraceNecessary(c, d, g);
    }
  }
}
