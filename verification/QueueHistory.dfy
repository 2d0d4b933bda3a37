/**
 * The lease queue over whole runs, with crashes, lost claims, failed acks and nacks and expired leases:
 * nothing accepted is lost, an ack is final, claims are spaced by leases and delays, retries are bounded.
 */
module QueueHistory {
  import opened Core
  import opened LeaseTable
  import opened WorkerTask
  import opened Pipeline
  import opened PipelineInvariant

  // ---------------------------------------------------------------------------
  // Reading the log of queue operations
  // ---------------------------------------------------------------------------

  /** The latest operation on `e`. */
  function LastOp(ops: seq<Op>, e: EntryId): Option<Op> {
    if ops == [] then None
    else if ops[|ops| - 1].entry == e then Some(ops[|ops| - 1])
    else LastOp(ops[..|ops| - 1], e)
  }

  lemma LastOpSnoc(ops: seq<Op>, op: Op, e: EntryId)
    ensures LastOp(ops + [op], e) == if op.entry == e then Some(op) else LastOp(ops, e)
  {
  }

  lemma {:induction false} LastOpIs(ops: seq<Op>, i: nat)
    requires i < |ops| && forall x :: i < x < |ops| ==> ops[x].entry != ops[i].entry
    ensures LastOp(ops, ops[i].entry) == Some(ops[i])
    decreases |ops|
  {
    if i < |ops| - 1 {
      LastOpIs(ops[..|ops| - 1], i);
    }
  }

  lemma {:induction false} LastOpNone(ops: seq<Op>, e: EntryId)
    requires forall x :: 0 <= x < |ops| ==> ops[x].entry != e
    ensures LastOp(ops, e) == None
  {
    if ops != [] {
      LastOpNone(ops[..|ops| - 1], e);
    }
  }

  /** The time after which an operation lets its entry be claimed again. */
  function Deadline(op: Op): nat {
    match op
    case ClaimOp(_, at, _) => at + LEASE_MS
    case NackOp(_, at, delay, _) => at + delay
    case AckOp(_, at, _) => at
  }

  /** A claim at `at` may come after `last`: the first, or later than what `last` allows and not after an ack. */
  predicate MayFollow(last: Option<Op>, at: nat) {
    last.Some? ==> !last.value.AckOp? && Deadline(last.value) < at
  }

  // ---------------------------------------------------------------------------
  // What every reachable state keeps
  // ---------------------------------------------------------------------------

  predicate ClaimsSpaced(ops: seq<Op>) {
    forall j :: 0 <= j < |ops| && ops[j].ClaimOp? ==> MayFollow(LastOp(ops[..j], ops[j].entry), ops[j].at)
  }

  predicate AttemptsIncrease(ops: seq<Op>) {
    forall i, j :: 0 <= i < j < |ops| && ops[i].ClaimOp? && ops[j].ClaimOp? && ops[i].entry == ops[j].entry ==>
      ops[i].attempt < ops[j].attempt
  }

  predicate NacksDistinct(ops: seq<Op>) {
    forall i, j :: 0 <= i < j < |ops| && ops[i].NackOp? && ops[j].NackOp? && ops[i].entry == ops[j].entry ==>
      ops[i].attempt != ops[j].attempt
  }

  /** Only the first two attempts are nacked, each with its own delay. */
  predicate NackOk(op: Op) {
    op.NackOp? ==> 1 <= op.attempt < MAX_ATTEMPTS && op.delayMs == RetryDelayMs(op.attempt)
  }

  /** An ack needs a delivery, or a failure that is final or came at the last attempt. */
  predicate AckOk(s: State, op: Op) {
    op.AckOp? ==>
      match op.why
      case Delivered => exists m :: m in s.past.delivered && m in s.ids.entryOf && s.ids.entryOf[m] == op.entry
      case GaveUp(err, attempt) => GivesUp(err, attempt)
      case Orphaned => false
  }

  predicate OpOk(s: State, op: Op) {
    && op.entry in s.ids.entryOf.Values
    && op.at <= s.now
    && (op.AckOp? ==> op.entry !in s.db.rows)
    && (!op.AckOp? && op.entry in s.db.rows ==> op.attempt <= s.db.rows[op.entry].attempts)
    && NackOk(op)
    && AckOk(s, op)
  }

  predicate OpsOk(s: State) {
    && (forall i :: 0 <= i < |s.past.ops| ==> OpOk(s, s.past.ops[i]))
    && (forall i, j :: 0 <= i <= j < |s.past.ops| ==> s.past.ops[i].at <= s.past.ops[j].at)
    && ClaimsSpaced(s.past.ops)
    && AttemptsIncrease(s.past.ops)
    && NacksDistinct(s.past.ops)
  }

  /** A row's lease is what the last operation on it left. */
  predicate RowsFollowOps(s: State) {
    forall e :: e in s.db.rows ==>
      s.db.rows[e].claimedUntil
      == match LastOp(s.past.ops, e) case None => None case Some(op) => Some(Deadline(op))
  }

  predicate NackLogged(ops: seq<Op>, e: EntryId, attempt: nat) {
    exists i :: 0 <= i < |ops| && ops[i].NackOp? && ops[i].entry == e && ops[i].attempt == attempt
  }

  predicate RetryLogged(events: seq<Logged>, m: EmailId, attempt: nat) {
    exists i :: 0 <= i < |events| && events[i].event.Retrying? && events[i].event.id == m
             && events[i].event.attempt == attempt
  }

  predicate WorkOk(s: State, t: Task) {
    && t.attempt >= 1
    && (t.entry in s.db.rows ==> t.attempt <= s.db.rows[t.entry].attempts)
    && (t.Holding() ==> !NackLogged(s.past.ops, t.entry, t.attempt))
    && (t.Holding() || (t.pc.Publishing? && t.pc.event.Retrying?) ==>
          !RetryLogged(s.db.events, t.email, t.attempt))
    && (t.pc.AckingSent? ==> t.email in s.past.delivered)
    && (t.pc.AckingFailed? ==> GivesUp(t.pc.err, t.attempt))
    && (t.pc.Publishing? ==> EventOk(t.pc.event))
    && (t.pc.Publishing? && t.pc.event.Retrying? ==> t.pc.event.attempt == t.attempt)
  }

  predicate WorksOk(s: State) {
    && (forall t :: t in s.tasks ==> WorkOk(s, s.tasks[t]))
    && (forall t, u :: t in s.tasks && u in s.tasks && t != u && s.tasks[t].entry == s.tasks[u].entry ==>
          s.tasks[t].attempt != s.tasks[u].attempt)
  }

  /** What the two failure events say about the attempt. */
  predicate EventOk(ev: Event) {
    match ev
    case Retrying(_, attempt, _, _) => 1 <= attempt < MAX_ATTEMPTS
    case Failed(_, attempt, class_, _) => attempt >= MAX_ATTEMPTS || class_ == Routing
    case _ => true
  }

  predicate SameRetry(a: Event, b: Event) {
    a.Retrying? && b.Retrying? && a.id == b.id
  }

  predicate RetriesDistinct(events: seq<Logged>) {
    forall i, j :: 0 <= i < j < |events| && SameRetry(events[i].event, events[j].event) ==>
      events[i].event.attempt != events[j].event.attempt
  }

  predicate EventsOk(s: State) {
    && (forall i :: 0 <= i < |s.db.events| ==>
          && EventOk(s.db.events[i].event)
          && (s.db.events[i].event.Retrying? ==>
                && s.db.events[i].event.id in s.ids.entryOf
                && (var e := s.ids.entryOf[s.db.events[i].event.id];
                    e in s.db.rows ==> s.db.events[i].event.attempt <= s.db.rows[e].attempts)))
    && RetriesDistinct(s.db.events)
  }

  /** An accepted email is still in the queue or has been acked. */
  predicate NothingLost(s: State) {
    forall m :: m in s.past.accepted ==>
      && m in s.ids.entryOf
      && (s.ids.entryOf[m] in s.db.rows
          || exists i :: 0 <= i < |s.past.ops| && s.past.ops[i].AckOp? && s.past.ops[i].entry == s.ids.entryOf[m])
  }

  predicate HistoryOk(s: State) {
    OpsOk(s) && RowsFollowOps(s) && WorksOk(s) && EventsOk(s) && NothingLost(s)
  }

  // ---------------------------------------------------------------------------
  // Preservation
  // ---------------------------------------------------------------------------

  /** Identifiers and deliveries are only added, entries return only if fresh, attempt counts never drop. */
  predicate Grows(s: State, s': State) {
    && s.now <= s'.now
    && (forall m :: m in s.ids.entryOf ==> m in s'.ids.entryOf && s'.ids.entryOf[m] == s.ids.entryOf[m])
    && (forall m :: m in s.past.delivered ==> m in s'.past.delivered)
    && (forall e :: e in s'.db.rows && e in s.db.rows ==> s.db.rows[e].attempts <= s'.db.rows[e].attempts)
    && (forall e :: e in s'.db.rows && e !in s.db.rows ==> e !in s.ids.entryOf.Values)
  }

  lemma OpOkGrows(s: State, s': State, op: Op)
    requires OpOk(s, op) && Grows(s, s')
    ensures OpOk(s', op)
  {
  }

  lemma OpsKept(s: State, s': State)
    requires OpsOk(s) && Grows(s, s') && s'.past.ops == s.past.ops
    ensures OpsOk(s')
  {
  }

  lemma SpacedSnoc(ops: seq<Op>, op: Op)
    requires ClaimsSpaced(ops) && (op.ClaimOp? ==> MayFollow(LastOp(ops, op.entry), op.at))
    ensures ClaimsSpaced(ops + [op])
  {
    var ops' := ops + [op];
    forall j | 0 <= j < |ops'| && ops'[j].ClaimOp?
      ensures MayFollow(LastOp(ops'[..j], ops'[j].entry), ops'[j].at)
    {
      assert ops'[..j] == ops[..j];
      assert j == |ops| ==> ops[..j] == ops;
    }
  }

  lemma AttemptsSnoc(s: State, op: Op)
    requires OpsOk(s)
    requires op.ClaimOp? ==> op.entry in s.db.rows && s.db.rows[op.entry].attempts < op.attempt
    ensures AttemptsIncrease(s.past.ops + [op])
  {
    var ops := s.past.ops;
    forall i | 0 <= i < |ops| && op.ClaimOp? && ops[i].ClaimOp? && ops[i].entry == op.entry
      ensures ops[i].attempt < op.attempt
    {
      assert OpOk(s, ops[i]);
    }
  }

  lemma NacksSnoc(ops: seq<Op>, op: Op)
    requires NacksDistinct(ops) && (op.NackOp? ==> !NackLogged(ops, op.entry, op.attempt))
    ensures NacksDistinct(ops + [op])
  {
  }

  lemma TimesSnoc(s: State, op: Op)
    requires OpsOk(s) && op.at == s.now
    ensures var ops := s.past.ops + [op]; forall i, j :: 0 <= i <= j < |ops| ==> ops[i].at <= ops[j].at
  {
    forall i | 0 <= i < |s.past.ops| ensures s.past.ops[i].at <= op.at {
      assert OpOk(s, s.past.ops[i]);
    }
  }

  lemma AllOpsOk(s: State, s': State, op: Op, i: nat)
    requires OpsOk(s) && Grows(s, s') && OpOk(s', op) && i <= |s.past.ops|
    ensures OpOk(s', (s.past.ops + [op])[i])
  {
    if i < |s.past.ops| {
      OpOkGrows(s, s', s.past.ops[i]);
    }
  }

  lemma OpsSnoc(s: State, s': State, op: Op)
    requires OpsOk(s) && Grows(s, s') && s'.past.ops == s.past.ops + [op]
    requires OpOk(s', op) && op.at == s.now
    requires op.ClaimOp? ==> MayFollow(LastOp(s.past.ops, op.entry), op.at)
    requires op.ClaimOp? ==> op.entry in s.db.rows && s.db.rows[op.entry].attempts < op.attempt
    requires op.NackOp? ==> !NackLogged(s.past.ops, op.entry, op.attempt)
    ensures OpsOk(s')
  {
    forall i | 0 <= i < |s'.past.ops| ensures OpOk(s', s'.past.ops[i]) {
      AllOpsOk(s, s', op, i);
    }
    SpacedSnoc(s.past.ops, op);
    AttemptsSnoc(s, op);
    NacksSnoc(s.past.ops, op);
    TimesSnoc(s, op);
  }

  lemma NackLoggedSnoc(ops: seq<Op>, op: Op)
    ensures forall e, a :: NackLogged(ops + [op], e, a) ==>
      NackLogged(ops, e, a) || (op.NackOp? && op.entry == e && op.attempt == a)
  {
  }

  lemma RetryLoggedSnoc(events: seq<Logged>, l: Logged)
    ensures forall m, a :: RetryLogged(events + [l], m, a) ==>
      RetryLogged(events, m, a) || (l.event.Retrying? && l.event.id == m && l.event.attempt == a)
  {
  }

  lemma RowsFollowSnoc(s: State, s': State, op: Op)
    requires RowsFollowOps(s) && s'.past.ops == s.past.ops + [op]
    requires forall e :: e in s'.db.rows && e != op.entry ==>
      e in s.db.rows && s'.db.rows[e].claimedUntil == s.db.rows[e].claimedUntil
    requires op.entry in s'.db.rows ==> s'.db.rows[op.entry].claimedUntil == Some(Deadline(op))
    ensures RowsFollowOps(s')
  {
  }

  // --- steps outside the worker -------------------------------------------------

  lemma EnqueueStep(s: State, m: EmailId, e: EntryId)
    requires Links(s) && HistoryOk(s) && InPc(s, m, Enqueueing) && e !in s.ids.entryOf.Values
    ensures HistoryOk(DoEnqueue(s, m, e))
  {
    var s' := DoEnqueue(s, m, e);
    assert SubmitOk(s, m);
    OpsKept(s, s');
    forall x | 0 <= x < |s.past.ops| ensures s.past.ops[x].entry != e {
      assert OpOk(s, s.past.ops[x]);
    }
    LastOpNone(s.past.ops, e);
    forall t | t in s'.tasks ensures WorkOk(s', s'.tasks[t]) {
      assert WorkOk(s, s.tasks[t]) && TaskOk(s, t);
    }
  }

  lemma ClaimMayFollow(s: State, e: EntryId)
    requires OpsOk(s) && RowsFollowOps(s) && e in Ready(s.db.rows, s.now)
    ensures MayFollow(LastOp(s.past.ops, e), s.now)
  {
    LastOpMember(s.past.ops, e);
    if LastOp(s.past.ops, e).Some? {
      var i :| 0 <= i < |s.past.ops| && s.past.ops[i] == LastOp(s.past.ops, e).value;
      assert OpOk(s, s.past.ops[i]);
    }
  }

  lemma ClaimOps(s: State, e: EntryId, handedOut: bool)
    requires Links(s) && HistoryOk(s) && e in Ready(s.db.rows, s.now) && s.db.rows[e].email in s.db.emails
    ensures OpsOk(DoClaim(s, e, handedOut)) && RowsFollowOps(DoClaim(s, e, handedOut))
  {
    var s' := DoClaim(s, e, handedOut);
    var row := s.db.rows[e];
    var op := ClaimOp(e, s.now, row.attempts + 1);
    assert RowOk(s, e);
    assert s.ids.entryOf[row.email] == e;
    ClaimMayFollow(s, e);
    OpsSnoc(s, s', op);
    RowsFollowSnoc(s, s', op);
  }

  lemma ClaimEvents(s: State, e: EntryId, handedOut: bool)
    requires EventsOk(s) && e in s.db.rows && s.db.rows[e].email in s.db.emails
    ensures EventsOk(DoClaim(s, e, handedOut))
  {
  }

  lemma ClaimStep(s: State, e: EntryId, handedOut: bool)
    requires Links(s) && HistoryOk(s) && e in Ready(s.db.rows, s.now) && s.db.rows[e].email in s.db.emails
    ensures HistoryOk(DoClaim(s, e, handedOut))
  {
    var s' := DoClaim(s, e, handedOut);
    ClaimOps(s, e, handedOut);
    ClaimWorks(s, e, handedOut);
    ClaimEvents(s, e, handedOut);
    LostSnoc(s, s', ClaimOp(e, s.now, s.db.rows[e].attempts + 1));
  }

  lemma {:induction false} LastOpMember(ops: seq<Op>, e: EntryId)
    ensures LastOp(ops, e).Some? ==> LastOp(ops, e).value in ops && LastOp(ops, e).value.entry == e
  {
    if ops != [] && ops[|ops| - 1].entry != e {
      LastOpMember(ops[..|ops| - 1], e);
    }
  }

  lemma ClaimWorks(s: State, e: EntryId, handedOut: bool)
    requires Links(s) && HistoryOk(s) && e in s.db.rows && s.db.rows[e].email in s.db.emails
    ensures WorksOk(DoClaim(s, e, handedOut))
  {
    var s' := DoClaim(s, e, handedOut);
    var ops, ops' := s.past.ops, s'.past.ops;
    assert RowOk(s, e);
    NackLoggedSnoc(ops, ClaimOp(e, s.now, s.db.rows[e].attempts + 1));
    var a := s.db.rows[e].attempts + 1;
    assert !NackLogged(ops, e, a) by {
      forall i | 0 <= i < |ops| ensures ops[i].NackOp? && ops[i].entry == e ==> ops[i].attempt != a {
        assert OpOk(s, ops[i]);
      }
    }
    forall t | t in s'.tasks ensures WorkOk(s', s'.tasks[t]) {
      if t in s.tasks {
        assert WorkOk(s, s.tasks[t]) && TaskOk(s, t);
      }
    }
    ClaimAttempts(s, e, handedOut);
  }

  lemma ClaimAttempts(s: State, e: EntryId, handedOut: bool)
    requires Links(s) && WorksOk(s) && e in s.db.rows && s.db.rows[e].email in s.db.emails
    ensures var tasks := DoClaim(s, e, handedOut).tasks;
            forall t, u :: t in tasks && u in tasks && t != u && tasks[t].entry == tasks[u].entry ==>
              tasks[t].attempt != tasks[u].attempt
  {
  }

  /** A logged operation keeps everything accounted for, provided an entry that leaves was acked by it. */
  lemma LostSnoc(s: State, s': State, op: Op)
    requires NothingLost(s) && s'.past.ops == s.past.ops + [op]
    requires s'.past.accepted == s.past.accepted && s'.ids.entryOf == s.ids.entryOf
    requires forall e :: e in s.db.rows && e !in s'.db.rows ==> op.AckOp? && op.entry == e
    ensures NothingLost(s')
  {
    var ops, ops' := s.past.ops, s'.past.ops;
    forall m | m in s'.past.accepted
      ensures m in s'.ids.entryOf
      ensures s'.ids.entryOf[m] in s'.db.rows
           || exists i :: 0 <= i < |ops'| && ops'[i].AckOp? && ops'[i].entry == s'.ids.entryOf[m]
    {
      var e := s.ids.entryOf[m];
      if e !in s'.db.rows {
        if e in s.db.rows {
          assert ops'[|ops|].AckOp? && ops'[|ops|].entry == e;
        } else {
          var i :| 0 <= i < |ops| && ops[i].AckOp? && ops[i].entry == e;
          assert ops'[i].AckOp? && ops'[i].entry == e;
        }
      }
    }
  }

  lemma EventsKept(s: State, s': State)
    requires EventsOk(s) && Grows(s, s') && s'.db.events == s.db.events
    ensures EventsOk(s')
  {
    forall i | 0 <= i < |s.db.events| && s.db.events[i].event.Retrying?
      ensures var e := s'.ids.entryOf[s.db.events[i].event.id];
              e in s'.db.rows ==> s.db.events[i].event.attempt <= s'.db.rows[e].attempts
    {
      var e := s.ids.entryOf[s.db.events[i].event.id];
      assert e in s.ids.entryOf.Values;
    }
  }

  lemma WorksQuiet(s: State, s': State)
    requires WorksOk(s) && s'.past == s.past && s'.db.rows == s.db.rows
    requires s'.tasks.Keys <= s.tasks.Keys
    requires forall t :: t in s'.tasks ==> s'.tasks[t] == s.tasks[t].(refs := s'.tasks[t].refs)
    requires forall m, a :: RetryLogged(s'.db.events, m, a) ==> RetryLogged(s.db.events, m, a)
    ensures WorksOk(s')
  {
    forall t | t in s'.tasks ensures WorkOk(s', s'.tasks[t]) {
      assert WorkOk(s, s.tasks[t]);
    }
  }

  /** Steps that leave queue and history alone and publish nothing but `Queued`. */
  lemma QuietStep(s: State, s': State)
    requires HistoryOk(s)
    requires s.now <= s'.now && s'.past == s.past && s'.ids.entryOf == s.ids.entryOf && s'.db.rows == s.db.rows
    requires s'.tasks.Keys <= s.tasks.Keys
    requires forall t :: t in s'.tasks ==> s'.tasks[t] == s.tasks[t].(refs := s'.tasks[t].refs)
    requires s'.db.events == s.db.events
          || exists ev :: s'.db.events == s.db.events + [ev]
                          && (ev.event.Queued? || ev.event.Sending? || ev.event.Sent?)
    ensures HistoryOk(s')
  {
    OpsKept(s, s');
    forall m, a | RetryLogged(s'.db.events, m, a) ensures RetryLogged(s.db.events, m, a) {
      var i :| 0 <= i < |s'.db.events| && s'.db.events[i].event.Retrying? && s'.db.events[i].event.id == m
            && s'.db.events[i].event.attempt == a;
      assert i < |s.db.events| && s.db.events[i] == s'.db.events[i];
    }
    WorksQuiet(s, s');
  }

  // --- steps of a worker task -----------------------------------------------------

  predicate Calling(s: State, t: TaskId, call: Call) {
    Links(s) && HistoryOk(s) && t in s.tasks && Awaits(s.tasks[t], call)
  }

  lemma BystanderWork(s: State, t: TaskId, u: TaskId, s': State)
    requires Links(s) && WorksOk(s) && t in s.tasks && u in s.tasks && u != t
    requires Grows(s, s') && forall e :: e in s'.db.rows ==> e in s.db.rows
    requires forall a, e :: NackLogged(s'.past.ops, e, a) ==>
      NackLogged(s.past.ops, e, a) || (e == s.tasks[t].entry && a == s.tasks[t].attempt)
    requires forall a, m :: RetryLogged(s'.db.events, m, a) ==>
      RetryLogged(s.db.events, m, a) || (m == s.tasks[t].email && a == s.tasks[t].attempt)
    ensures WorkOk(s', s.tasks[u])
  {
    assert WorkOk(s, s.tasks[u]) && TaskOk(s, u) && TaskOk(s, t);
  }

  /** The other tasks keep their good standing when only `t`'s own attempt is logged. */
  lemma OthersWork(s: State, t: TaskId, call: Call, s': State)
    requires Calling(s, t, call) && s' == DoCall(s, t, call)
    requires forall a, e :: NackLogged(s'.past.ops, e, a) ==>
      NackLogged(s.past.ops, e, a) || (e == s.tasks[t].entry && a == s.tasks[t].attempt)
    requires forall a, m :: RetryLogged(s'.db.events, m, a) ==>
      RetryLogged(s.db.events, m, a) || (m == s.tasks[t].email && a == s.tasks[t].attempt)
    requires t in s'.tasks ==> WorkOk(s', s'.tasks[t])
    ensures WorksOk(s')
  {
    CallGrows(s, t, call);
    assert TaskOk(s, t);
    forall u | u in s'.tasks ensures WorkOk(s', s'.tasks[u]) {
      if u != t {
        BystanderWork(s, t, u, s');
      }
    }
    assert t in s'.tasks ==> s'.tasks[t].entry == s.tasks[t].entry && s'.tasks[t].attempt == s.tasks[t].attempt;
  }

  lemma CallGrows(s: State, t: TaskId, call: Call)
    requires t in s.tasks && Awaits(s.tasks[t], call)
    ensures Grows(s, DoCall(s, t, call))
    ensures forall e :: e in DoCall(s, t, call).db.rows ==>
      e in s.db.rows && DoCall(s, t, call).db.rows[e].attempts == s.db.rows[e].attempts
  {
  }

  lemma PublishStep(s: State, t: TaskId, call: Call)
    requires Calling(s, t, call) && call.PublishCall?
    ensures HistoryOk(DoCall(s, t, call))
  {
    var s' := DoCall(s, t, call);
    var task := s.tasks[t];
    assert TaskOk(s, t) && WorkOk(s, task);
    OpsKept(s, s');
    RetryLoggedSnoc(s.db.events, Logged(call.event, s.now, task.resolvedAt));
    OthersWork(s, t, call, s');
    PublishedEvents(s, t, call, s');
  }

  lemma PublishedEvents(s: State, t: TaskId, call: Call, s': State)
    requires Calling(s, t, call) && call.PublishCall? && s' == DoCall(s, t, call)
    ensures EventsOk(s')
  {
    assert TaskOk(s, t) && WorkOk(s, s.tasks[t]);
    if call.ok {
      assert s'.db.events == s.db.events + [Logged(call.event, s.now, s.tasks[t].resolvedAt)];
      if call.event.Retrying? {
        forall i | 0 <= i < |s.db.events| && SameRetry(s.db.events[i].event, call.event)
          ensures s.db.events[i].event.attempt != call.event.attempt
        {
          assert !RetryLogged(s.db.events, s.tasks[t].email, s.tasks[t].attempt);
        }
      }
    }
  }

  lemma ExecuteStep(s: State, t: TaskId, call: Call)
    requires Calling(s, t, call) && call.ExecuteCall?
    ensures HistoryOk(DoCall(s, t, call))
  {
    var s' := DoCall(s, t, call);
    assert TaskOk(s, t) && WorkOk(s, s.tasks[t]);
    CallGrows(s, t, call);
    OpsKept(s, s');
    OthersWork(s, t, call, s');
  }

  lemma CleanupStep(s: State, t: TaskId, call: Call)
    requires Calling(s, t, call)
    requires call.ClearRefsCall? || call.DeleteBlobCall? || (call.AckCall? && !call.ok) || (call.NackCall? && !call.ok)
    ensures HistoryOk(DoCall(s, t, call))
  {
    var s' := DoCall(s, t, call);
    assert TaskOk(s, t) && WorkOk(s, s.tasks[t]);
    OpsKept(s, s');
    OthersWork(s, t, call, s');
  }

  lemma AckOps(s: State, t: TaskId, s': State)
    requires Calling(s, t, AckCall(true)) && s' == DoCall(s, t, AckCall(true))
    ensures OpsOk(s') && RowsFollowOps(s') && NothingLost(s')
  {
    var task := s.tasks[t];
    var op := AckOp(task.entry, s.now, AckReason(task));
    assert TaskOk(s, t) && WorkOk(s, task);
    CallGrows(s, t, AckCall(true));
    assert AckOk(s', op) && task.entry in s'.ids.entryOf.Values;
    OpsSnoc(s, s', op);
    RowsFollowSnoc(s, s', op);
    LostSnoc(s, s', op);
  }

  lemma AckEvents(s: State, t: TaskId, s': State)
    requires Calling(s, t, AckCall(true)) && s' == DoCall(s, t, AckCall(true))
    ensures EventsOk(s')
  {
    CallGrows(s, t, AckCall(true));
    EventsKept(s, s');
  }

  lemma AckedWork(s: State, t: TaskId, s': State)
    requires t in s.tasks && Awaits(s.tasks[t], AckCall(true)) && WorkOk(s, s.tasks[t])
    requires s' == DoCall(s, t, AckCall(true))
    ensures t in s'.tasks ==> WorkOk(s', s'.tasks[t])
  {
    CallGrows(s, t, AckCall(true));
  }

  lemma AckWorks(s: State, t: TaskId, s': State)
    requires Calling(s, t, AckCall(true)) && s' == DoCall(s, t, AckCall(true))
    ensures WorksOk(s')
  {
    assert WorkOk(s, s.tasks[t]);
    AckedWork(s, t, s');
    NackLoggedSnoc(s.past.ops, AckOp(s.tasks[t].entry, s.now, AckReason(s.tasks[t])));
    OthersWork(s, t, AckCall(true), s');
  }

  lemma AckStep(s: State, t: TaskId)
    requires Calling(s, t, AckCall(true))
    ensures HistoryOk(DoCall(s, t, AckCall(true)))
  {
    AckOps(s, t, DoCall(s, t, AckCall(true)));
    AckEvents(s, t, DoCall(s, t, AckCall(true)));
    AckWorks(s, t, DoCall(s, t, AckCall(true)));
  }

  lemma NackRows(s: State, t: TaskId, delay: nat, s': State)
    requires t in s.tasks && Awaits(s.tasks[t], NackCall(delay, true)) && s' == DoCall(s, t, NackCall(delay, true))
    requires RowsFollowOps(s) && NothingLost(s)
    ensures RowsFollowOps(s') && NothingLost(s')
  {
    var op := NackOp(s.tasks[t].entry, s.now, delay, s.tasks[t].attempt);
    RowsFollowSnoc(s, s', op);
    LostSnoc(s, s', op);
  }

  lemma NackOps(s: State, t: TaskId, delay: nat, s': State)
    requires Calling(s, t, NackCall(delay, true)) && s' == DoCall(s, t, NackCall(delay, true))
    ensures OpsOk(s')
  {
    var task := s.tasks[t];
    var op := NackOp(task.entry, s.now, delay, task.attempt);
    assert TaskOk(s, t) && WorkOk(s, task);
    CallGrows(s, t, NackCall(delay, true));
    assert task.entry in s'.ids.entryOf.Values;
    OpsSnoc(s, s', op);
  }

  lemma NackStep(s: State, t: TaskId, delay: nat)
    requires Calling(s, t, NackCall(delay, true))
    ensures HistoryOk(DoCall(s, t, NackCall(delay, true)))
  {
    var call := NackCall(delay, true);
    var s' := DoCall(s, t, call);
    var task := s.tasks[t];
    assert TaskOk(s, t) && WorkOk(s, task);
    NackOps(s, t, delay, s');
    NackRows(s, t, delay, s');
    NackLoggedSnoc(s.past.ops, NackOp(task.entry, s.now, delay, task.attempt));
    OthersWork(s, t, call, s');
  }

  lemma CallStep(s: State, t: TaskId, call: Call)
    requires Calling(s, t, call)
    ensures HistoryOk(DoCall(s, t, call))
  {
    if call.PublishCall? {
      PublishStep(s, t, call);
    } else if call.ExecuteCall? {
      ExecuteStep(s, t, call);
    } else if call == AckCall(true) {
      AckStep(s, t);
    } else if call.NackCall? && call.ok {
      NackStep(s, t, call.delayMs);
    } else {
      CleanupStep(s, t, call);
    }
  }

  lemma HistoryStep(c: Config, s: State, l: Label, s': State)
    requires Links(s) && HistoryOk(s) && Enabled(c, s, l) && s' == Next(c, s, l)
    ensures HistoryOk(s')
  {
    if l.Enqueue? && l.ok {
      EnqueueStep(s, l.m, l.entry);
    } else if l.Claim? {
      ClaimStep(s, l.entry, l.handedOut);
    } else if l.Orphan? {
      assert false;
    } else if l.TaskCall? {
      CallStep(s, l.task, l.call);
    } else {
      QuietFacts(c, s, l, s');
      EventFacts(c, s, l, s');
      QuietStep(s, s');
    }
  }

  lemma {:induction false} ReachableHistory(c: Config, states: seq<State>, labels: seq<Label>, i: nat)
    requires IsRun(c, states, labels) && i < |states|
    ensures HistoryOk(states[i])
  {
    if i > 0 {
      ReachableHistory(c, states, labels, i - 1);
      Reachable(c, states, labels, i - 1);
      HistoryStep(c, states[i - 1], labels[i - 1], states[i]);
    }
  }

  // ---------------------------------------------------------------------------
  // What a reader of a whole run sees
  // ---------------------------------------------------------------------------

  lemma OpsGrowStep(c: Config, s: State, l: Label)
    requires Enabled(c, s, l)
    ensures s.past.ops <= Next(c, s, l).past.ops && s.past.accepted <= Next(c, s, l).past.accepted
    ensures forall m :: m in s.ids.entryOf && Links(s) ==>
      m in Next(c, s, l).ids.entryOf && Next(c, s, l).ids.entryOf[m] == s.ids.entryOf[m]
  {
  }

  lemma {:induction false} OpsGrow(c: Config, states: seq<State>, labels: seq<Label>, i: nat, j: nat)
    requires IsRun(c, states, labels) && i <= j < |states|
    ensures states[i].past.ops <= states[j].past.ops && states[i].past.accepted <= states[j].past.accepted
    decreases j
  {
    if i < j {
      OpsGrow(c, states, labels, i, j - 1);
      OpsGrowStep(c, states[j - 1], labels[j - 1]);
    }
  }

  /** Once acked, an entry is never in the table again, so no stale ack, nack or lease brings it back. */
  lemma AckIsFinal(c: Config, states: seq<State>, labels: seq<Label>, i: nat, j: nat, x: nat)
    requires IsRun(c, states, labels) && i <= j < |states|
    requires x < |states[i].past.ops| && states[i].past.ops[x].AckOp?
    ensures states[i].past.ops[x].entry !in states[j].db.rows
  {
    OpsGrow(c, states, labels, i, j);
    ReachableHistory(c, states, labels, j);
    assert OpOk(states[j], states[j].past.ops[x]);
  }

  /** An ack of `m`'s entry rests on a delivery of `m` or on a failure past help. */
  predicate Justified(s: State, m: EmailId, why: Reason) {
    match why
    case Delivered => m in s.past.delivered
    case GaveUp(err, attempt) => GivesUp(err, attempt)
    case Orphaned => false
  }

  /** Where an accepted email is: still queued, or acked for a good reason. */
  predicate Accounted(s: State, m: EmailId) {
    && m in s.ids.entryOf
    && (s.ids.entryOf[m] in s.db.rows || AckedWithReason(s, m, s.ids.entryOf[m]))
  }

  predicate AckedWithReason(s: State, m: EmailId, e: EntryId) {
    exists x :: 0 <= x < |s.past.ops| && s.past.ops[x].AckOp? && s.past.ops[x].entry == e
             && Justified(s, m, s.past.ops[x].why)
  }

  /** No email accepted at some point of a run is ever lost. */
  lemma NoLoss(c: Config, states: seq<State>, labels: seq<Label>, i: nat, j: nat, m: EmailId)
    requires IsRun(c, states, labels) && i <= j < |states| && m in states[i].past.accepted
    ensures Accounted(states[j], m)
  {
    var s := states[j];
    OpsGrow(c, states, labels, i, j);
    ReachableHistory(c, states, labels, j);
    Reachable(c, states, labels, j);
    var e := s.ids.entryOf[m];
    if e !in s.db.rows {
      var x :| 0 <= x < |s.past.ops| && s.past.ops[x].AckOp? && s.past.ops[x].entry == e;
      assert OpOk(s, s.past.ops[x]);
    }
  }

  /** Two claims of an entry are more than a lease apart unless a nack stands between them. */
  lemma ClaimsApart(c: Config, states: seq<State>, labels: seq<Label>, k: nat, i: nat, j: nat)
    requires IsRun(c, states, labels) && k < |states| && i < j < |states[k].past.ops|
    requires SameEntryClaims(states[k].past.ops, i, j)
    requires forall x :: i < x < j && states[k].past.ops[x].entry == states[k].past.ops[i].entry ==>
      !states[k].past.ops[x].NackOp?
    ensures states[k].past.ops[j].at > states[k].past.ops[i].at + LEASE_MS
  {
    var ops := states[k].past.ops;
    ReachableHistory(c, states, labels, k);
    var p := LatestBefore(ops, ops[i].entry, i, j);
    assert MayFollow(LastOp(ops[..j], ops[i].entry), ops[j].at);
  }

  predicate SameEntryClaims(ops: seq<Op>, i: nat, j: nat)
    requires i < |ops| && j < |ops|
  {
    ops[i].ClaimOp? && ops[j].ClaimOp? && ops[i].entry == ops[j].entry
  }

  /** The last operation on `e` before `j`, at or after `i`. */
  lemma {:induction false} LatestBefore(ops: seq<Op>, e: EntryId, i: nat, j: nat) returns (p: nat)
    requires i < j <= |ops| && ops[i].entry == e
    ensures i <= p < j && ops[p].entry == e && LastOp(ops[..j], e) == Some(ops[p])
    decreases j
  {
    p := j - 1;
    assert ops[..j][..j - 1] == ops[..j - 1];
    if ops[p].entry != e {
      p := LatestBefore(ops, e, i, j - 1);
    }
  }

  /** The first claim of the entry of `ops[i]` after `i`. */
  lemma {:induction false} FirstClaimAfter(ops: seq<Op>, i: nat, j: nat) returns (x: nat)
    requires i < j < |ops| && ops[j].ClaimOp? && ops[j].entry == ops[i].entry
    ensures i < x <= j && ops[x].ClaimOp? && ops[x].entry == ops[i].entry
    ensures forall y :: i < y < x && ops[y].entry == ops[i].entry ==> !ops[y].ClaimOp?
    decreases j
  {
    if y :| i < y < j && ops[y].ClaimOp? && ops[y].entry == ops[i].entry {
      x := FirstClaimAfter(ops, i, y);
    } else {
      x := j;
    }
  }

  /** No other nack of the entry of nack `i` comes before the entry's next claim. */
  predicate Unrevised(ops: seq<Op>, i: nat)
    requires i < |ops|
  {
    forall x :: i < x < |ops| && ops[x].NackOp? && ops[x].entry == ops[i].entry ==>
      exists y :: i < y < x && ops[y].ClaimOp? && ops[y].entry == ops[i].entry
  }

  /**
   * Leases kept or not, a nack holds its entry back from every later claim for its whole delay, unless another
   * nack replaces it first.
   */
  lemma NackBlocks(c: Config, states: seq<State>, labels: seq<Label>, k: nat, i: nat, j: nat)
    requires IsRun(c, states, labels) && k < |states| && i < j < |states[k].past.ops|
    requires states[k].past.ops[i].NackOp? && states[k].past.ops[j].ClaimOp?
    requires states[k].past.ops[i].entry == states[k].past.ops[j].entry && Unrevised(states[k].past.ops, i)
    ensures states[k].past.ops[j].at > states[k].past.ops[i].at + states[k].past.ops[i].delayMs
  {
    var ops := states[k].past.ops;
    ReachableHistory(c, states, labels, k);
    var x := FirstClaimAfter(ops, i, j);
    var p := LatestBefore(ops, ops[i].entry, i, x);
    assert MayFollow(LastOp(ops[..x], ops[i].entry), ops[x].at);
    assert !ops[p].AckOp?;
    assert p == i;
  }

  function NackCount(ops: seq<Op>, e: EntryId): nat {
    if ops == [] then 0
    else NackCount(ops[..|ops| - 1], e) + if ops[|ops| - 1].NackOp? && ops[|ops| - 1].entry == e then 1 else 0
  }

  /** The delay asked for by all nacks of an entry together. */
  function TotalDelayMs(ops: seq<Op>, e: EntryId): nat {
    if ops == [] then 0
    else TotalDelayMs(ops[..|ops| - 1], e)
         + if ops[|ops| - 1].NackOp? && ops[|ops| - 1].entry == e then ops[|ops| - 1].delayMs else 0
  }

  function RetryCount(events: seq<Logged>, m: EmailId): nat {
    if events == [] then 0
    else RetryCount(events[..|events| - 1], m)
         + if events[|events| - 1].event.Retrying? && events[|events| - 1].event.id == m then 1 else 0
  }

  lemma {:induction false} NacksBounded(ops: seq<Op>, e: EntryId)
    requires NacksDistinct(ops) && forall i :: 0 <= i < |ops| ==> NackOk(ops[i])
    ensures NackCount(ops, e)
         == (if NackLogged(ops, e, 1) then 1 else 0) + (if NackLogged(ops, e, 2) then 1 else 0)
    ensures TotalDelayMs(ops, e)
         == (if NackLogged(ops, e, 1) then 30_000 else 0) + (if NackLogged(ops, e, 2) then 60_000 else 0)
  {
    if ops != [] {
      var init, last := ops[..|ops| - 1], ops[|ops| - 1];
      NacksBounded(init, e);
      RetryDelays();
      forall a | a == 1 || a == 2
        ensures NackLogged(ops, e, a)
             <==> NackLogged(init, e, a) || (last.NackOp? && last.entry == e && last.attempt == a)
      {
        if NackLogged(init, e, a) {
          var i :| 0 <= i < |init| && init[i].NackOp? && init[i].entry == e && init[i].attempt == a;
          assert ops[i] == init[i];
        }
        if NackLogged(ops, e, a) {
          var i :| 0 <= i < |ops| && ops[i].NackOp? && ops[i].entry == e && ops[i].attempt == a;
          assert i < |init| ==> init[i] == ops[i];
        }
      }
      if last.NackOp? && last.entry == e {
        assert !NackLogged(init, e, last.attempt);
      }
    }
  }

  lemma {:induction false} RetriesBounded(events: seq<Logged>, m: EmailId)
    requires RetriesDistinct(events) && forall i :: 0 <= i < |events| ==> EventOk(events[i].event)
    ensures RetryCount(events, m)
         == (if RetryLogged(events, m, 1) then 1 else 0) + (if RetryLogged(events, m, 2) then 1 else 0)
  {
    if events != [] {
      var init, last := events[..|events| - 1], events[|events| - 1].event;
      RetriesBounded(init, m);
      forall a | a == 1 || a == 2
        ensures RetryLogged(events, m, a)
             <==> RetryLogged(init, m, a) || (last.Retrying? && last.id == m && last.attempt == a)
      {
        if RetryLogged(init, m, a) {
          var i :| 0 <= i < |init| && init[i].event.Retrying? && init[i].event.id == m && init[i].event.attempt == a;
          assert events[i] == init[i];
        }
        if RetryLogged(events, m, a) {
          var i :| 0 <= i < |events| && events[i].event.Retrying? && events[i].event.id == m
                && events[i].event.attempt == a;
          assert i < |init| ==> init[i] == events[i];
        }
      }
      if last.Retrying? && last.id == m {
        assert !RetryLogged(init, m, last.attempt);
      }
    }
  }

  /**
   * In every run an entry is nacked at most twice and delayed at most 90 s on request, an email gets at
   * most two `Retrying` events, and a `Failed` event means the last attempt or a routing error.
   */
  lemma BoundedRetries(c: Config, states: seq<State>, labels: seq<Label>, i: nat, e: EntryId, m: EmailId)
    requires IsRun(c, states, labels) && i < |states|
    ensures NackCount(states[i].past.ops, e) <= 2 && TotalDelayMs(states[i].past.ops, e) <= 90_000
    ensures RetryCount(states[i].db.events, m) <= 2
    ensures forall x :: 0 <= x < |states[i].db.events| && states[i].db.events[x].event.Failed? ==>
      states[i].db.events[x].event.attempt >= MAX_ATTEMPTS || states[i].db.events[x].event.errorClass == Routing
  {
    ReachableHistory(c, states, labels, i);
    var s := states[i];
    forall x | 0 <= x < |s.past.ops| ensures NackOk(s.past.ops[x]) {
      assert OpOk(s, s.past.ops[x]);
    }
    NacksBounded(s.past.ops, e);
    RetriesBounded(s.db.events, m);
    assert forall x :: 0 <= x < |s.db.events| ==> EventOk(s.db.events[x].event);
  }
}
