/**
 * What an email experiences when every holder settles its entry within its lease: one holder at a time,
 * one terminal event, one delivery, and nothing published afterwards but a retry notice that comes late.
 */
module Delivery {
  import opened Core
  import opened LeaseTable
  import opened WorkerTask
  import opened Pipeline
  import opened PipelineInvariant

  // ---------------------------------------------------------------------------
  // One holder per entry
  // ---------------------------------------------------------------------------

  predicate HolderOk(s: State, t: Task) {
    t.Holding() ==>
      t.entry in s.db.rows && s.db.rows[t.entry].claimedUntil == Some(t.claimedAt + LEASE_MS)
  }

  predicate Exclusive(s: State) {
    && (forall t :: t in s.tasks ==> HolderOk(s, s.tasks[t]))
    && (forall t, u :: t in s.tasks && u in s.tasks && t != u && s.tasks[t].Holding() && s.tasks[u].Holding() ==>
          s.tasks[t].entry != s.tasks[u].entry)
  }

  /** An entry somebody holds within the lease is not claimable. */
  lemma HeldNotReady(s: State, t: TaskId)
    requires Exclusive(s) && LeasesHeld(s) && t in s.tasks && s.tasks[t].Holding()
    ensures s.tasks[t].entry !in Ready(s.db.rows, s.now)
  {
  }

  lemma ExclusiveClaim(s: State, e: EntryId, handedOut: bool)
    requires Links(s) && Exclusive(s) && LeasesHeld(s)
    requires e in Ready(s.db.rows, s.now) && s.db.rows[e].email in s.db.emails
    ensures Exclusive(DoClaim(s, e, handedOut))
  {
    var s' := DoClaim(s, e, handedOut);
    forall t | t in s.tasks ensures t != s.ids.nextTask && (s.tasks[t].Holding() ==> s.tasks[t].entry != e) {
      assert TaskOk(s, t);
      if s.tasks[t].Holding() {
        HeldNotReady(s, t);
      }
    }
    forall t | t in s'.tasks ensures HolderOk(s', s'.tasks[t]) {
      assert t in s.tasks ==> HolderOk(s, s.tasks[t]);
    }
  }

  lemma ExclusiveCall(s: State, t: TaskId, call: Call)
    requires Exclusive(s) && t in s.tasks && Awaits(s.tasks[t], call)
    ensures Exclusive(DoCall(s, t, call))
  {
    var s' := DoCall(s, t, call);
    assert HolderOk(s, s.tasks[t]);
    forall u | u in s'.tasks ensures HolderOk(s', s'.tasks[u]) {
      assert u in s.tasks && HolderOk(s, s.tasks[u]);
    }
  }

  /** A lookup may only have renewed the references. */
  predicate SameButRefs(t: Task, t': Task) {
    t' == t.(refs := t'.refs)
  }

  lemma ExclusiveQuiet(s: State, s': State)
    requires Exclusive(s) && forall t :: t in s'.tasks ==> t in s.tasks && SameButRefs(s.tasks[t], s'.tasks[t])
    requires forall e :: e in s.db.rows ==> e in s'.db.rows && s'.db.rows[e] == s.db.rows[e]
    ensures Exclusive(s')
  {
  }

  /** Only tasks, claims and orphan removals touch an entry, and only claims add a task. */
  lemma NoRowGoes(c: Config, s: State, l: Label, s': State)
    requires Links(s) && Enabled(c, s, l) && s' == Next(c, s, l) && !l.TaskCall? && !l.Claim? && !l.Orphan?
    ensures forall e :: e in s.db.rows ==> e in s'.db.rows && s'.db.rows[e] == s.db.rows[e]
    ensures forall t :: t in s'.tasks ==> t in s.tasks && SameButRefs(s.tasks[t], s'.tasks[t])
    ensures s.now <= s'.now
  {
    if Quiet(l) {
      QuietFacts(c, s, l, s');
    } else {
      forall e | e in s.db.rows ensures e != l.entry {
        assert SubmitOk(s, l.m) && RowOk(s, e);
      }
    }
  }

  lemma ExclusiveStep(c: Config, s: State, l: Label, s': State)
    requires Links(s) && Exclusive(s) && LeasesHeld(s) && Enabled(c, s, l) && s' == Next(c, s, l)
    ensures Exclusive(s')
  {
    if l.Claim? {
      ExclusiveClaim(s, l.entry, l.handedOut);
    } else if l.TaskCall? {
      ExclusiveCall(s, l.task, l.call);
    } else if l.Orphan? {
      assert false;
    } else {
      NoRowGoes(c, s, l, s');
      ExclusiveQuiet(s, s');
    }
  }

  // ---------------------------------------------------------------------------
  // One terminal event per email
  // ---------------------------------------------------------------------------

  predicate TerminalFor(events: seq<Logged>, i: int, m: EmailId) {
    0 <= i < |events| && events[i].event.IsTerminal() && events[i].event.id == m
  }

  ghost predicate TerminalOnce(s: State) {
    && (forall i, j :: 0 <= i < j < |s.db.events| && s.db.events[i].event.IsTerminal() ==>
          !TerminalFor(s.db.events, j, s.db.events[i].event.id))
    && (forall t, i :: t in s.tasks && s.tasks[t].Settled() ==> !TerminalFor(s.db.events, i, s.tasks[t].email))
    && (forall t, u :: t in s.tasks && u in s.tasks && t != u && s.tasks[t].Settled() && s.tasks[u].Settled() ==>
          s.tasks[t].email != s.tasks[u].email)
  }

  /** A held entry is still there, so neither a terminal event nor a settled task concerns its email. */
  lemma NothingTerminalYet(s: State, t: TaskId)
    requires Invariant(s) && Exclusive(s) && t in s.tasks && s.tasks[t].Holding()
    ensures forall u :: u in s.tasks && s.tasks[u].Settled() ==> s.tasks[u].email != s.tasks[t].email
    ensures forall i :: !TerminalFor(s.db.events, i, s.tasks[t].email)
  {
    assert TaskOk(s, t) && HolderOk(s, s.tasks[t]);
    forall u | u in s.tasks && s.tasks[u].Settled() ensures s.tasks[u].email != s.tasks[t].email {
      assert TaskOk(s, u);
    }
  }

  /** A call stores a terminal event only for a settled task. */
  lemma TerminalCallEvents(s: State, t: TaskId, call: Call)
    requires Links(s) && t in s.tasks && Awaits(s.tasks[t], call)
    ensures forall i, m :: TerminalFor(DoCall(s, t, call).db.events, i, m) ==>
      TerminalFor(s.db.events, i, m) || (i == |s.db.events| && m == s.tasks[t].email && s.tasks[t].Settled())
    ensures s.db.events <= DoCall(s, t, call).db.events
  {
    assert TaskOk(s, t);
    var events, events' := s.db.events, DoCall(s, t, call).db.events;
    forall i, m | TerminalFor(events', i, m)
      ensures TerminalFor(events, i, m) || (i == |events| && m == s.tasks[t].email && s.tasks[t].Settled())
    {
      assert i < |events| ==> events'[i] == events[i];
    }
  }

  lemma TerminalOnceCall(s: State, t: TaskId, call: Call)
    requires Invariant(s) && Exclusive(s) && TerminalOnce(s) && t in s.tasks && Awaits(s.tasks[t], call)
    ensures TerminalOnce(DoCall(s, t, call))
  {
    var s' := DoCall(s, t, call);
    var task := s.tasks[t];
    assert TaskOk(s, t);
    if task.Holding() {
      NothingTerminalYet(s, t);
    }
    TerminalCallEvents(s, t, call);
    var events, events' := s.db.events, s'.db.events;
    forall i, j | 0 <= i < j < |events'| && events'[i].event.IsTerminal()
      ensures !TerminalFor(events', j, events'[i].event.id)
    {
      OnceMore(s, t, events', i, j);
    }
  }

  lemma OnceMore(s: State, t: TaskId, events: seq<Logged>, i: nat, j: nat)
    requires TerminalOnce(s) && t in s.tasks && s.db.events <= events && i < j < |events|
    requires forall x, m :: TerminalFor(events, x, m) ==>
      TerminalFor(s.db.events, x, m) || (x == |s.db.events| && m == s.tasks[t].email && s.tasks[t].Settled())
    requires events[i].event.IsTerminal()
    ensures !TerminalFor(events, j, events[i].event.id)
  {
    assert TerminalFor(events, i, events[i].event.id);
  }

  lemma TerminalOnceQuiet(s: State, s': State)
    requires TerminalOnce(s)
    requires forall t :: t in s'.tasks && s'.tasks[t].Settled() ==> t in s.tasks && s'.tasks[t] == s.tasks[t]
    requires s'.db.events == s.db.events || exists l :: s'.db.events == s.db.events + [l] && !l.event.IsTerminal()
    ensures TerminalOnce(s')
  {
    var events, events' := s.db.events, s'.db.events;
    forall i, m | TerminalFor(events', i, m) ensures TerminalFor(events, i, m) {
      assert i < |events| && events'[i] == events[i];
    }
    forall i, j | 0 <= i < j < |events'| && events'[i].event.IsTerminal()
      ensures !TerminalFor(events', j, events'[i].event.id)
    {
      assert TerminalFor(events', i, events'[i].event.id);
    }
  }

  lemma TerminalOnceStep(c: Config, s: State, l: Label, s': State)
    requires Invariant(s) && Exclusive(s) && TerminalOnce(s) && Enabled(c, s, l) && s' == Next(c, s, l)
    ensures TerminalOnce(s')
  {
    if l.TaskCall? {
      TerminalOnceCall(s, l.task, l.call);
    } else {
      EventFacts(c, s, l, s');
      TerminalOnceQuiet(s, s');
    }
  }

  // ---------------------------------------------------------------------------
  // Nothing after the terminal event but late retry notices
  // ---------------------------------------------------------------------------

  predicate RetryPending(t: Task) {
    t.pc.Publishing? && t.pc.event.Retrying?
  }

  /** While a nack's delay lasts, nobody holds the entry and it stays put. */
  predicate RetryWindow(s: State, t: Task) {
    RetryPending(t) ==>
      && t.pc.event.attempt == t.attempt <= 60
      && (s.now > t.resolvedAt + RetryDelayMs(t.attempt)
          || (&& t.entry in s.db.rows
              && s.db.rows[t.entry].claimedUntil == Some(t.resolvedAt + RetryDelayMs(t.attempt))
              && forall u :: u in s.tasks && s.tasks[u].Holding() ==> s.tasks[u].entry != t.entry))
  }

  predicate RetryWindows(s: State) {
    forall t :: t in s.tasks ==> RetryWindow(s, s.tasks[t])
  }

  /** The window opens when a holder's nack takes effect. */
  lemma RetryWindowOpens(s: State, t: TaskId, delay: nat)
    requires Links(s) && Exclusive(s) && t in s.tasks && Awaits(s.tasks[t], NackCall(delay, true))
    ensures var s' := DoCall(s, t, NackCall(delay, true)); RetryWindow(s', s'.tasks[t])
  {
  }

  lemma RetryWindowOther(s: State, t: TaskId, call: Call, s': State, u: TaskId)
    requires RetryWindows(s) && t in s.tasks && Awaits(s.tasks[t], call) && s' == DoCall(s, t, call)
    requires u in s.tasks && u != t
    ensures RetryWindow(s', s.tasks[u])
  {
  }

  lemma RetryWindowsCall(s: State, t: TaskId, call: Call)
    requires Links(s) && Exclusive(s) && RetryWindows(s) && t in s.tasks && Awaits(s.tasks[t], call)
    ensures RetryWindows(DoCall(s, t, call))
  {
    var s' := DoCall(s, t, call);
    if call.NackCall? && call.ok {
      RetryWindowOpens(s, t, call.delayMs);
    } else {
      assert t in s'.tasks ==> !RetryPending(s'.tasks[t]);
    }
    forall u | u in s'.tasks && u != t ensures RetryWindow(s', s'.tasks[u]) {
      RetryWindowOther(s, t, call, s', u);
    }
  }

  lemma RetryWindowsClaim(s: State, e: EntryId, handedOut: bool)
    requires Links(s) && RetryWindows(s) && e in Ready(s.db.rows, s.now) && s.db.rows[e].email in s.db.emails
    ensures RetryWindows(DoClaim(s, e, handedOut))
  {
    var s' := DoClaim(s, e, handedOut);
    forall t | t in s'.tasks ensures RetryWindow(s', s'.tasks[t]) {
      if t in s.tasks {
        assert RetryWindow(s, s.tasks[t]) && TaskOk(s, t);
      }
    }
  }

  lemma RetryWindowsQuiet(s: State, s': State)
    requires RetryWindows(s) && s.now <= s'.now
    requires forall t :: t in s'.tasks ==> t in s.tasks && SameButRefs(s.tasks[t], s'.tasks[t])
    requires forall e :: e in s.db.rows ==> e in s'.db.rows && s'.db.rows[e] == s.db.rows[e]
    ensures RetryWindows(s')
  {
  }

  lemma RetryWindowsStep(c: Config, s: State, l: Label, s': State)
    requires Links(s) && Exclusive(s) && RetryWindows(s) && Enabled(c, s, l) && s' == Next(c, s, l)
    ensures RetryWindows(s')
  {
    if l.TaskCall? {
      RetryWindowsCall(s, l.task, l.call);
    } else if l.Claim? {
      RetryWindowsClaim(s, l.entry, l.handedOut);
    } else if l.Orphan? {
      assert false;
    } else {
      NoRowGoes(c, s, l, s');
      RetryWindowsQuiet(s, s');
    }
  }

  /** A retry notice published only after its own delay has run out. */
  predicate LateRetry(l: Logged) {
    l.event.Retrying? && l.event.attempt <= 60 && l.at > l.since + RetryDelayMs(l.event.attempt)
  }

  predicate TerminalIsLast(events: seq<Logged>) {
    forall i, j :: 0 <= i < j < |events| && TerminalFor(events, i, events[j].event.id) && !events[j].event.Queued? ==>
      LateRetry(events[j])
  }

  lemma TerminalIsLastCall(s: State, t: TaskId, call: Call)
    requires Invariant(s) && Exclusive(s) && TerminalOnce(s) && RetryWindows(s) && TerminalIsLast(s.db.events)
    requires t in s.tasks && Awaits(s.tasks[t], call)
    ensures TerminalIsLast(DoCall(s, t, call).db.events)
  {
    var events, events' := s.db.events, DoCall(s, t, call).db.events;
    var task := s.tasks[t];
    assert TaskOk(s, t) && HolderOk(s, task) && RetryWindow(s, task);
    forall i, j | 0 <= i < j < |events'| && TerminalFor(events', i, events'[j].event.id) && !events'[j].event.Queued?
      ensures LateRetry(events'[j])
    {
      assert events'[i] == events[i];
      if j < |events| {
        assert events'[j] == events[j];
        assert TerminalFor(events, i, events[j].event.id);
      } else {
        assert TerminalFor(events, i, task.email);
        assert task.entry !in s.db.rows;
      }
    }
  }

  lemma TerminalIsLastStep(c: Config, s: State, l: Label, s': State)
    requires Invariant(s) && Exclusive(s) && TerminalOnce(s) && RetryWindows(s) && TerminalIsLast(s.db.events)
    requires Enabled(c, s, l) && s' == Next(c, s, l)
    ensures TerminalIsLast(s'.db.events)
  {
    if l.TaskCall? {
      TerminalIsLastCall(s, l.task, l.call);
    } else {
      var events, events' := s.db.events, s'.db.events;
      forall i, j | 0 <= i < j < |events'| && TerminalFor(events', i, events'[j].event.id) && !events'[j].event.Queued?
        ensures LateRetry(events'[j])
      {
        assert events'[i] == events[i] && events'[j] == events[j];
        assert TerminalFor(events, i, events[j].event.id);
      }
    }
  }

  // ---------------------------------------------------------------------------
  // One delivery
  // ---------------------------------------------------------------------------

  /** No worker process dies and no ack is refused. */
  predicate Reliable(l: Label) {
    !l.TaskCrash? && !(l.TaskCall? && l.call == AckCall(false))
  }

  /** A delivered email's entry is gone or its deliverer is about to ack it. */
  predicate DeliveryOk(s: State, m: EmailId) {
    && m in s.ids.entryOf
    && (s.ids.entryOf[m] in s.db.rows ==>
          exists t :: t in s.tasks && s.tasks[t].pc.AckingSent? && s.tasks[t].email == m)
  }

  predicate DeliveredOnce(s: State) {
    && (forall i :: 0 <= i < |s.past.delivered| ==> DeliveryOk(s, s.past.delivered[i]))
    && (forall i, j :: 0 <= i < j < |s.past.delivered| ==> s.past.delivered[i] != s.past.delivered[j])
  }

  lemma DeliveryOkCall(s: State, t: TaskId, call: Call, m: EmailId)
    requires Links(s) && t in s.tasks && Awaits(s.tasks[t], call) && call != AckCall(false) && DeliveryOk(s, m)
    ensures DeliveryOk(DoCall(s, t, call), m)
  {
    var s' := DoCall(s, t, call);
    CallShrinks(s.db, s.tasks[t], call, s.now);
    if s.ids.entryOf[m] in s'.db.rows {
      var u :| u in s.tasks && s.tasks[u].pc.AckingSent? && s.tasks[u].email == m;
      assert TaskOk(s, u);
      if u == t {
        assert false;
      }
      assert s'.tasks[u] == s.tasks[u];
    }
  }

  lemma DeliveryOkQuiet(s: State, s': State, m: EmailId)
    requires Links(s) && DeliveryOk(s, m)
    requires m in s'.ids.entryOf && s'.ids.entryOf[m] == s.ids.entryOf[m]
    requires s.ids.entryOf[m] in s'.db.rows ==> s.ids.entryOf[m] in s.db.rows
    requires forall t :: t in s.tasks ==> t in s'.tasks && SameButRefs(s.tasks[t], s'.tasks[t])
    ensures DeliveryOk(s', m)
  {
  }

  /** Without crashes, a task goes only by its own calls. */
  lemma TasksStay(c: Config, s: State, l: Label, s': State)
    requires Enabled(c, s, l) && s' == Next(c, s, l) && Reliable(l) && !l.TaskCall?
    requires s.ids.nextTask !in s.tasks
    ensures forall t :: t in s.tasks ==> t in s'.tasks && SameButRefs(s.tasks[t], s'.tasks[t])
  {
  }

  lemma DeliveryOkKept(c: Config, s: State, l: Label, s': State, m: EmailId)
    requires Links(s) && Enabled(c, s, l) && s' == Next(c, s, l) && Reliable(l) && DeliveryOk(s, m)
    ensures DeliveryOk(s', m)
  {
    if l.TaskCall? {
      DeliveryOkCall(s, l.task, l.call, m);
    } else {
      assert s.ids.nextTask in s.tasks ==> TaskOk(s, s.ids.nextTask);
      TasksStay(c, s, l, s');
      if l.Enqueue? {
        assert SubmitOk(s, l.m);
      }
      DeliveryOkQuiet(s, s', m);
    }
  }

  lemma DeliveredOnceStep(c: Config, s: State, l: Label, s': State)
    requires Links(s) && Exclusive(s) && DeliveredOnce(s) && Enabled(c, s, l) && s' == Next(c, s, l) && Reliable(l)
    ensures DeliveredOnce(s')
  {
    forall i | 0 <= i < |s.past.delivered| ensures DeliveryOk(s', s.past.delivered[i]) {
      DeliveryOkKept(c, s, l, s', s.past.delivered[i]);
    }
    if l.TaskCall? && l.call.ExecuteCall? && l.call.outcome.Ok? {
      var task := s.tasks[l.task];
      assert TaskOk(s, l.task) && HolderOk(s, task);
      assert s'.tasks[l.task].pc.AckingSent? && s'.tasks[l.task].email == task.email;
      assert DeliveryOk(s', task.email);
      forall i | 0 <= i < |s.past.delivered| ensures s.past.delivered[i] != task.email {
        assert DeliveryOk(s, s.past.delivered[i]);
        assert forall t :: t in s.tasks && s.tasks[t].email == task.email ==> TaskOk(s, t);
      }
    } else {
      assert s'.past.delivered == s.past.delivered;
    }
  }

  // ---------------------------------------------------------------------------
  // All timely runs
  // ---------------------------------------------------------------------------

  ghost predicate TimelyRun(c: Config, states: seq<State>, labels: seq<Label>) {
    IsRun(c, states, labels) && forall i :: 0 <= i < |states| ==> LeasesHeld(states[i])
  }

  lemma TimelyInit(c: Config)
    ensures Exclusive(Init(c)) && TerminalOnce(Init(c)) && RetryWindows(Init(c)) && TerminalIsLast(Init(c).db.events)
  {
  }

  lemma TimelyStep(c: Config, s: State, l: Label, s': State)
    requires Invariant(s) && Exclusive(s) && TerminalOnce(s) && RetryWindows(s) && TerminalIsLast(s.db.events)
    requires LeasesHeld(s) && Enabled(c, s, l) && s' == Next(c, s, l)
    ensures Exclusive(s') && TerminalOnce(s') && RetryWindows(s') && TerminalIsLast(s'.db.events)
  {
    ExclusiveStep(c, s, l, s');
    TerminalOnceStep(c, s, l, s');
    RetryWindowsStep(c, s, l, s');
    TerminalIsLastStep(c, s, l, s');
  }

  lemma {:induction false} TimelyInvariant(c: Config, states: seq<State>, labels: seq<Label>, i: nat)
    requires TimelyRun(c, states, labels) && i < |states|
    ensures Invariant(states[i]) && Exclusive(states[i]) && TerminalOnce(states[i])
    ensures RetryWindows(states[i]) && TerminalIsLast(states[i].db.events)
  {
    Reachable(c, states, labels, i);
    if i == 0 {
      TimelyInit(c);
    } else {
      TimelyInvariant(c, states, labels, i - 1);
      TimelyStep(c, states[i - 1], labels[i - 1], states[i]);
    }
  }

  /** Within their leases no two tasks ever hold one entry. */
  lemma OneHolder(c: Config, states: seq<State>, labels: seq<Label>, i: nat, t: TaskId, u: TaskId)
    requires TimelyRun(c, states, labels) && i < |states|
    requires t in states[i].tasks && u in states[i].tasks && t != u
    requires states[i].tasks[t].Holding() && states[i].tasks[u].Holding()
    ensures states[i].tasks[t].entry != states[i].tasks[u].entry
  {
    TimelyInvariant(c, states, labels, i);
  }

  /**
   * In a timely run an email has at most one terminal event, and the only thing a worker publishes about
   * it afterwards is a retry notice whose own delay has already run out.
   */
  lemma OneOutcome(c: Config, states: seq<State>, labels: seq<Label>, k: nat, i: nat, j: nat)
    requires TimelyRun(c, states, labels) && k < |states| && i < j < |states[k].db.events|
    requires states[k].db.events[i].event.IsTerminal()
    requires states[k].db.events[j].event.id == states[k].db.events[i].event.id
    ensures !states[k].db.events[j].event.IsTerminal()
    ensures states[k].db.events[j].event.Queued? || LateRetry(states[k].db.events[j])
  {
    TimelyInvariant(c, states, labels, k);
    var events := states[k].db.events;
    assert TerminalFor(events, i, events[j].event.id);
    assert !TerminalFor(events, j, events[i].event.id);
  }

  /** A task announces its retry before the nacked entry can be claimed again. */
  predicate RetriesPrompt(s: State) {
    forall t :: t in s.tasks && RetryPending(s.tasks[t]) && s.tasks[t].attempt <= 60 ==>
      s.now <= s.tasks[t].resolvedAt + RetryDelayMs(s.tasks[t].attempt)
  }

  /** Every task publishes its retry notice at most `r` after its nack. */
  predicate NoticesWithin(s: State, r: nat) {
    forall t :: t in s.tasks && RetryPending(s.tasks[t]) ==> s.now <= s.tasks[t].resolvedAt + r
  }

  /** No retry delay is shorter than the first one. */
  lemma PromptWithin(s: State, r: nat)
    requires NoticesWithin(s, r) && r <= RetryDelayMs(1)
    ensures RetriesPrompt(s)
  {
    RetryDelays();
  }

  predicate NoLateRetry(events: seq<Logged>) {
    forall i :: 0 <= i < |events| ==> !LateRetry(events[i])
  }

  lemma PromptCall(s: State, t: TaskId, call: Call)
    requires RetryWindows(s) && RetriesPrompt(s) && NoLateRetry(s.db.events)
    requires t in s.tasks && Awaits(s.tasks[t], call)
    ensures NoLateRetry(DoCall(s, t, call).db.events)
  {
  }

  lemma PromptStep(c: Config, s: State, l: Label)
    requires RetryWindows(s) && RetriesPrompt(s) && NoLateRetry(s.db.events) && Enabled(c, s, l)
    ensures NoLateRetry(Next(c, s, l).db.events)
  {
    if l.TaskCall? {
      PromptCall(s, l.task, l.call);
    } else {
      var events, events' := s.db.events, Next(c, s, l).db.events;
      assert forall i :: 0 <= i < |events| ==> events'[i] == events[i];
    }
  }

  lemma {:induction false} PromptInvariant(c: Config, states: seq<State>, labels: seq<Label>, k: nat)
    requires TimelyRun(c, states, labels) && k < |states|
    requires forall i :: 0 <= i < |states| ==> RetriesPrompt(states[i])
    ensures NoLateRetry(states[k].db.events)
  {
    if k > 0 {
      PromptInvariant(c, states, labels, k - 1);
      TimelyInvariant(c, states, labels, k - 1);
      PromptStep(c, states[k - 1], labels[k - 1]);
    }
  }

  /** With prompt retry notices as well, a worker's terminal event is its last word on an email. */
  lemma LastWord(c: Config, states: seq<State>, labels: seq<Label>, k: nat, i: nat, j: nat)
    requires TimelyRun(c, states, labels) && k < |states| && i < j < |states[k].db.events|
    requires forall x :: 0 <= x < |states| ==> RetriesPrompt(states[x])
    requires states[k].db.events[i].event.IsTerminal()
    requires states[k].db.events[j].event.id == states[k].db.events[i].event.id
    ensures states[k].db.events[j].event.Queued?
  {
    OneOutcome(c, states, labels, k, i, j);
    PromptInvariant(c, states, labels, k);
  }

  /** Timely, without crashes and refused acks: each email is delivered at most once, whatever the retries. */
  lemma {:induction false} OneDelivery(c: Config, states: seq<State>, labels: seq<Label>, k: nat)
    requires TimelyRun(c, states, labels) && k < |states|
    requires forall i :: 0 <= i < |labels| ==> Reliable(labels[i])
    ensures DeliveredOnce(states[k])
  {
    if k > 0 {
      OneDelivery(c, states, labels, k - 1);
      TimelyInvariant(c, states, labels, k - 1);
      DeliveredOnceStep(c, states[k - 1], labels[k - 1], states[k]);
    }
  }
}
