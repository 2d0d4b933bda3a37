/**
 * The running system: submissions, worker tasks, the attachment sweeper and the clock, interleaved at
 * every awaited call. A label fixes every choice, so `Next` is a function and a run is a label sequence.
 */
module Pipeline {
  import opened Core
  import opened LeaseTable
  import opened WorkerTask
  import opened BlobAge

  /** Where one `SubmitEmailService::execute` stands. */
  datatype SubmitPc =
    | Storing
    | Referencing
    | Enqueueing
    | Announcing
    | Undoing(todo: seq<Key>)

  datatype Submit = Submit(pc: SubmitPc, written: seq<Key>, total: nat) {
    /** The submission may still reach the queue. */
    predicate Ongoing() {
      pc.Storing? || pc.Referencing? || pc.Enqueueing?
    }

    /** `k` is stored but no email row mentions it yet. */
    predicate Unreferenced(k: Key) {
      (pc.Storing? || pc.Referencing?) && k in written
    }
  }

  /** Where the attachment sweep stands; `at` is when the live references were read. */
  datatype Sweep =
    | Idle
    | Snapshotted(live: set<Key>, at: nat)
    | Deleting(live: set<Key>, todo: set<Key>)

  datatype KeyInfo = KeyInfo(owner: EmailId, at: nat)

  /** Why an entry was acked. */
  datatype Reason = Delivered | GaveUp(err: ProcessError, attempt: nat) | Orphaned

  /** What happened to queue entries, oldest first. */
  datatype Op =
    | ClaimOp(entry: EntryId, at: nat, attempt: nat)
    | NackOp(entry: EntryId, at: nat, delayMs: nat, attempt: nat)
    | AckOp(entry: EntryId, at: nat, why: Reason)

  /** A stored lifecycle event; `since` is when the publishing task settled its entry. */
  datatype Logged = Logged(event: Event, at: nat, since: nat)

  /** The two tables, the blob store and the event log. */
  datatype Db = Db(
    rows: Table,
    emails: map<EmailId, seq<Key>>,
    blobs: map<Key, nat>,
    events: seq<Logged>
  )

  /** Identifiers handed out so far; nothing reads them, they only stay fresh. */
  datatype Ids = Ids(
    entryOf: map<EmailId, EntryId>,
    keys: map<Key, KeyInfo>,
    known: set<EmailId>,
    nextTask: TaskId
  )

  /** What happened so far; nothing reads it. */
  datatype History = History(ops: seq<Op>, delivered: seq<EmailId>, accepted: set<EmailId>)

  datatype State = State(
    now: nat,
    db: Db,
    tasks: map<TaskId, Task>,
    submits: map<EmailId, Submit>,
    sweep: Sweep,
    ids: Ids,
    past: History
  )

  function Init(c: Config): State {
    State(c.bootMs, Db(map[], map[], map[], []), map[], map[], Idle, Ids(map[], map[], {}, 0), History([], [], {}))
  }

  datatype Label =
    | Tick(ms: nat)
    // submit
    | Save(m: EmailId, attachments: nat)
    | Put(m: EmailId, key: Key)
    | PutLost(m: EmailId, key: Key)
    | StoreFails(m: EmailId)
    | SetRefs(m: EmailId, ok: bool)
    | Enqueue(m: EmailId, entry: EntryId, ok: bool)
    | Announce(m: EmailId, ok: bool)
    | UndoBlob(m: EmailId, ok: bool)
    | UndoRow(m: EmailId, ok: bool)
    | SubmitCrash(m: EmailId)
    // worker
    | Claim(entry: EntryId, handedOut: bool)
    | Lookup(task: TaskId)
    | Orphan(entry: EntryId)
    | TaskCall(task: TaskId, call: Call)
    | TaskCrash(task: TaskId)
    // sweeper
    | Snapshot(live: set<Key>)
    | ListOld(todo: set<Key>)
    | SweepDelete(key: Key, ok: bool)
    | SweepEnd

  /**
   * Fixed facts of a deployment: the blob store in use, the grace period (configured in whole seconds)
   * and the epoch time at which the run starts, which is past one grace period.
   */
  datatype Config = Config(store: Store, graceMs: nat, bootMs: nat) {
    predicate Plausible() {
      graceMs % 1000 == 0 && graceMs <= bootMs
    }
  }

  predicate HasTerminal(events: seq<Logged>, m: EmailId) {
    exists i :: 0 <= i < |events| && events[i].event.IsTerminal() && events[i].event.id == m
  }

  /** `live` is a possible answer of the reference query: only terminal emails may be missing. */
  predicate IsSnapshot(s: State, live: set<Key>) {
    forall m, k :: m in s.db.emails && k in s.db.emails[m] && k !in live ==> HasTerminal(s.db.events, m)
  }

  function AfterStore(written: seq<Key>, total: nat): SubmitPc {
    if |written| < total then Storing else if total == 0 then Enqueueing else Referencing
  }

  predicate InPc(s: State, m: EmailId, pc: SubmitPc) {
    m in s.submits && s.submits[m].pc == pc
  }

  /**
   * A dequeue may take any claimable row: SQLite takes the oldest, Postgres the oldest that no other
   * transaction has locked. Postgres reads the email in the same transaction; SQLite reads it in a statement
   * of its own, `Lookup`, which replaces what the claim saw. `PutLost` is a put that reports an error although
   * the blob is stored.
   */
  predicate Enabled(c: Config, s: State, l: Label) {
    match l
    case Tick(_) => true
    case Save(m, _) => m !in s.ids.known
    case Put(m, k) => InPc(s, m, Storing) && k !in s.ids.keys
    case PutLost(m, k) => InPc(s, m, Storing) && k !in s.ids.keys
    case StoreFails(m) => InPc(s, m, Storing)
    case SetRefs(m, _) => InPc(s, m, Referencing)
    case Enqueue(m, e, _) => InPc(s, m, Enqueueing) && e !in s.ids.entryOf.Values
    case Announce(m, _) => InPc(s, m, Announcing)
    case UndoBlob(m, _) => m in s.submits && s.submits[m].pc.Undoing? && s.submits[m].pc.todo != []
    case UndoRow(m, _) => InPc(s, m, Undoing([]))
    case SubmitCrash(m) => m in s.submits
    case Claim(e, _) => e in Ready(s.db.rows, s.now) && s.db.rows[e].email in s.db.emails
    case Lookup(t) => t in s.tasks && s.tasks[t].pc.Starting? && s.tasks[t].email in s.db.emails
    case Orphan(e) => e in Ready(s.db.rows, s.now) && s.db.rows[e].email !in s.db.emails
    case TaskCall(t, call) => t in s.tasks && Awaits(s.tasks[t], call)
    case TaskCrash(t) => t in s.tasks
    case Snapshot(live) => s.sweep.Idle? && IsSnapshot(s, live)
    case ListOld(todo) =>
      s.sweep.Snapshotted?
      && forall k :: k in todo ==> k in s.db.blobs && Lists(c.store, s.now, s.db.blobs[k], c.graceMs)
    case SweepDelete(k, _) => s.sweep.Deleting? && k in s.sweep.todo && k !in s.sweep.live
    case SweepEnd => !s.sweep.Idle?
  }

  function Advance(s: State, m: EmailId, pc: SubmitPc): map<EmailId, Submit>
    requires m in s.submits
  {
    s.submits[m := s.submits[m].(pc := pc)]
  }

  function DoSave(s: State, m: EmailId, n: nat): State {
    s.(ids := s.ids.(known := s.ids.known + {m}),
       db := s.db.(emails := s.db.emails[m := []]),
       submits := s.submits[m := Submit(AfterStore([], n), [], n)])
  }

  function DoPut(s: State, m: EmailId, k: Key): State
    requires m in s.submits
  {
    var u := s.submits[m];
    var written := u.written + [k];
    s.(db := s.db.(blobs := s.db.blobs[k := s.now]),
       ids := s.ids.(keys := s.ids.keys[k := KeyInfo(m, s.now)]),
       submits := s.submits[m := Submit(AfterStore(written, u.total), written, u.total)])
  }

  /** Every failure of a submission starts the same compensation. */
  function DoRollback(s: State, m: EmailId): State
    requires m in s.submits
  {
    s.(submits := Advance(s, m, Undoing(s.submits[m].written)))
  }

  /** The blob stays although the submission is told of an error and rolls back. */
  function DoPutLost(s: State, m: EmailId, k: Key): State
    requires m in s.submits
  {
    DoRollback(s, m).(
      db := s.db.(blobs := s.db.blobs[k := s.now]),
      ids := s.ids.(keys := s.ids.keys[k := KeyInfo(m, s.now)]))
  }

  function DoSetRefs(s: State, m: EmailId): State
    requires m in s.submits
  {
    s.(db := s.db.(emails := s.db.emails[m := s.submits[m].written]), submits := Advance(s, m, Enqueueing))
  }

  function DoEnqueue(s: State, m: EmailId, e: EntryId): State
    requires m in s.submits
  {
    s.(db := s.db.(rows := Inserted(s.db.rows, e, m, s.now)),
       ids := s.ids.(entryOf := s.ids.entryOf[m := e]),
       past := s.past.(accepted := s.past.accepted + {m}),
       submits := Advance(s, m, Announcing))
  }

  function DoAnnounce(s: State, m: EmailId, ok: bool): State {
    s.(submits := s.submits - {m}, db := if ok then Publish(s.db, Queued(m), s.now, s.now) else s.db)
  }

  function DoUndoBlob(s: State, m: EmailId, ok: bool): State
    requires m in s.submits && s.submits[m].pc.Undoing? && s.submits[m].pc.todo != []
  {
    var todo := s.submits[m].pc.todo;
    s.(db := if ok then DeleteBlob(s.db, todo[0]) else s.db, submits := Advance(s, m, Undoing(todo[1..])))
  }

  function DoUndoRow(s: State, m: EmailId, ok: bool): State {
    s.(submits := s.submits - {m}, db := if ok then s.db.(emails := s.db.emails - {m}) else s.db)
  }

  function Publish(db: Db, ev: Event, now: nat, since: nat): Db {
    db.(events := db.events + [Logged(ev, now, since)])
  }

  function DeleteBlob(db: Db, k: Key): Db {
    db.(blobs := db.blobs - {k})
  }

  function DoClaim(s: State, e: EntryId, handedOut: bool): State
    requires e in s.db.rows && s.db.rows[e].email in s.db.emails
  {
    var row := s.db.rows[e];
    var task := FreshTask(e, row.email, s.db.emails[row.email], row.attempts + 1, s.now);
    s.(db := s.db.(rows := Claimed(s.db.rows, e, s.now)),
       past := s.past.(ops := s.past.ops + [ClaimOp(e, s.now, row.attempts + 1)]),
       tasks := if handedOut then s.tasks[s.ids.nextTask := task] else s.tasks,
       ids := s.ids.(nextTask := s.ids.nextTask + 1))
  }

  function DoLookup(s: State, t: TaskId): State
    requires t in s.tasks && s.tasks[t].email in s.db.emails
  {
    s.(tasks := s.tasks[t := s.tasks[t].(refs := s.db.emails[s.tasks[t].email])])
  }

  /** What a task's call does to the tables and the store. */
  function CallDb(db: Db, t: Task, call: Call, now: nat): Db {
    match call
    case PublishCall(ev, ok) => if ok then Publish(db, ev, now, t.resolvedAt) else db
    case ExecuteCall(_) => db
    case AckCall(ok) => if ok then db.(rows := Acked(db.rows, t.entry)) else db
    case NackCall(delay, ok) => if ok then db.(rows := Nacked(db.rows, t.entry, now, delay)) else db
    case ClearRefsCall(ok) => if ok && t.email in db.emails then db.(emails := db.emails[t.email := []]) else db
    case DeleteBlobCall(k, ok) => if ok then DeleteBlob(db, k) else db
  }

  function AckReason(t: Task): Reason {
    if t.pc.AckingFailed? then GaveUp(t.pc.err, t.attempt) else Delivered
  }

  /** What a task's call adds to the history. */
  function CallPast(past: History, t: Task, call: Call, now: nat): History {
    match call
    case ExecuteCall(Ok(_)) => past.(delivered := past.delivered + [t.email])
    case AckCall(true) => past.(ops := past.ops + [AckOp(t.entry, now, AckReason(t))])
    case NackCall(delay, true) => past.(ops := past.ops + [NackOp(t.entry, now, delay, t.attempt)])
    case _ => past
  }

  /** A finished task leaves the task set. */
  function Resumed(tasks: map<TaskId, Task>, t: TaskId, next: Task): map<TaskId, Task> {
    if next.pc.Done? then tasks - {t} else tasks[t := next]
  }

  function DoCall(s: State, t: TaskId, call: Call): State
    requires t in s.tasks && Awaits(s.tasks[t], call)
  {
    var task := s.tasks[t];
    s.(db := CallDb(s.db, task, call, s.now),
       past := CallPast(s.past, task, call, s.now),
       tasks := Resumed(s.tasks, t, After(task, call, s.now)))
  }

  function Next(c: Config, s: State, l: Label): State
    requires Enabled(c, s, l)
  {
    match l
    case Tick(ms) => s.(now := s.now + ms)
    case Save(m, n) => DoSave(s, m, n)
    case Put(m, k) => DoPut(s, m, k)
    case PutLost(m, k) => DoPutLost(s, m, k)
    case StoreFails(m) => DoRollback(s, m)
    case SetRefs(m, ok) => if ok && m in s.db.emails then DoSetRefs(s, m) else DoRollback(s, m)
    case Enqueue(m, e, ok) => if ok then DoEnqueue(s, m, e) else DoRollback(s, m)
    case Announce(m, ok) => DoAnnounce(s, m, ok)
    case UndoBlob(m, ok) => DoUndoBlob(s, m, ok)
    case UndoRow(m, ok) => DoUndoRow(s, m, ok)
    case SubmitCrash(m) => s.(submits := s.submits - {m})
    case Claim(e, handedOut) => DoClaim(s, e, handedOut)
    case Lookup(t) => DoLookup(s, t)
    case Orphan(e) =>
      s.(db := s.db.(rows := Acked(s.db.rows, e)),
         past := s.past.(ops := s.past.ops + [AckOp(e, s.now, Orphaned)]))
    case TaskCall(t, call) => DoCall(s, t, call)
    case TaskCrash(t) => s.(tasks := s.tasks - {t})
    case Snapshot(live) => s.(sweep := Snapshotted(live, s.now))
    case ListOld(todo) => s.(sweep := Deleting(s.sweep.live, todo))
    case SweepDelete(k, ok) =>
      s.(sweep := s.sweep.(todo := s.sweep.todo - {k}), db := if ok then DeleteBlob(s.db, k) else s.db)
    case SweepEnd => s.(sweep := Idle)
  }

  /** The states a label sequence passes through, provided each label is enabled in turn. */
  ghost predicate IsRun(c: Config, states: seq<State>, labels: seq<Label>) {
    && |states| == |labels| + 1
    && states[0] == Init(c)
    && forall i :: 0 <= i < |labels| ==>
      Enabled(c, states[i], labels[i]) && states[i + 1] == Next(c, states[i], labels[i])
  }

  /** The labels in order, each enabled in turn, take `s` to `t`. */
  ghost predicate Leads(c: Config, s: State, labels: seq<Label>, t: State)
    decreases |labels|
  {
    if labels == [] then s == t
    else Enabled(c, s, labels[0]) && Leads(c, Next(c, s, labels[0]), labels[1..], t)
  }

  lemma {:induction false} LeadsOneMore(c: Config, s: State, labels: seq<Label>, t: State, l: Label)
    requires Leads(c, s, labels, t) && Enabled(c, t, l)
    ensures Leads(c, s, labels + [l], Next(c, t, l))
    decreases |labels|
  {
    if labels == [] {
      assert (labels + [l])[1..] == [];
    } else {
      LeadsOneMore(c, Next(c, s, labels[0]), labels[1..], t, l);
      assert (labels + [l])[1..] == labels[1..] + [l];
    }
  }

  /** Every run can be continued along a path that leads on from its last state. */
  lemma {:induction false} Continue(c: Config, states: seq<State>, labels: seq<Label>, more: seq<Label>, t: State)
    returns (states': seq<State>)
    requires IsRun(c, states, labels) && Leads(c, states[|states| - 1], more, t)
    ensures IsRun(c, states', labels + more) && states <= states' && states'[|states'| - 1] == t
    decreases |more|
  {
    if more == [] {
      states' := states;
      assert labels + more == labels;
    } else {
      var s := Next(c, states[|states| - 1], more[0]);
      assert IsRun(c, states + [s], labels + [more[0]]);
      states' := Continue(c, states + [s], labels + [more[0]], more[1..], t);
      assert labels + [more[0]] + more[1..] == labels + more;
    }
  }

  // ---------------------------------------------------------------------------
  // Timing assumptions a deployment can check
  // ---------------------------------------------------------------------------

  /** No task holds its entry longer than `h` after claiming it. */
  predicate HeldWithin(s: State, h: nat) {
    forall t :: t in s.tasks && s.tasks[t].Holding() ==> s.now <= s.tasks[t].claimedAt + h
  }

  /** Every task that still holds its entry is within the lease it claimed. */
  predicate LeasesHeld(s: State) {
    HeldWithin(s, LEASE_MS)
  }

  /** No submission leaves a stored blob unreferenced longer than `d`; no sweep lists later than `g`. */
  predicate Brisk(s: State, d: nat, g: nat) {
    && (forall m, k :: m in s.submits && s.submits[m].Unreferenced(k) && k in s.ids.keys ==>
          s.now <= s.ids.keys[k].at + d)
    && (s.sweep.Snapshotted? ==> s.now <= s.sweep.at + g)
  }
}
