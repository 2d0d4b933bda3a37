/**
 * Exactly when the promises of `Delivery` and `LeaseExclusion` hold: each is kept in all runs under given
 * terms if and only if the terms meet a bound, and beyond the bound a concrete run breaks it.
 */
module DeliveryLimits {
  import opened Core
  import opened LeaseTable
  import opened WorkerTask
  import opened Pipeline
  import opened Delivery
  import opened LeaseExclusion

  /**
   * What a deployment guarantees: how long a task holds an entry, how long after its nack it publishes the
   * retry notice, whether worker tasks may die or acks be refused, and whether a dequeue reads the email in a
   * statement of its own, as on SQLite.
   */
  datatype Terms = Terms(hold: nat, notice: nat, crashes: bool, refusals: bool, lookups: bool) {
    predicate Keeps(s: State) {
      HeldWithin(s, hold) && NoticesWithin(s, notice)
    }

    predicate Permits(l: Label) {
      && (l.TaskCrash? ==> crashes)
      && (l.TaskCall? && l.call == AckCall(false) ==> refusals)
      && (l.Lookup? ==> lookups)
    }
  }

  ghost predicate RunUnder(c: Config, k: Terms, states: seq<State>, labels: seq<Label>) {
    && IsRun(c, states, labels)
    && (forall i :: 0 <= i < |states| ==> k.Keeps(states[i]))
    && (forall i :: 0 <= i < |labels| ==> k.Permits(labels[i]))
  }

  /** Some run under `k` ends in `s`. */
  ghost predicate Gets(c: Config, k: Terms, s: State) {
    k.Keeps(s) && exists states, labels :: RunUnder(c, k, states, labels) && states[|states| - 1] == s
  }

  lemma GetsNext(c: Config, k: Terms, s: State, l: Label, s': State)
    requires Gets(c, k, s) && Enabled(c, s, l) && s' == Next(c, s, l) && k.Keeps(s') && k.Permits(l)
    ensures Gets(c, k, s')
  {
    var states, labels :| RunUnder(c, k, states, labels) && states[|states| - 1] == s;
    assert RunUnder(c, k, states + [s'], labels + [l]);
    assert (states + [s'])[|states + [s']| - 1] == s';
  }

  lemma RunTo(c: Config, k: Terms, s: State) returns (states: seq<State>, labels: seq<Label>)
    requires Gets(c, k, s)
    ensures RunUnder(c, k, states, labels) && states[|states| - 1] == s
  {
    states, labels :| RunUnder(c, k, states, labels) && states[|states| - 1] == s;
  }

  // ---------------------------------------------------------------------------
  // Building runs
  // ---------------------------------------------------------------------------

  /** Email 0, without attachments, is enqueued as entry 0 and not yet announced. */
  function Enqueued(c: Config): State {
    State(c.bootMs, Db(map[0 := Row(0, c.bootMs, None, 0)], map[0 := []], map[], []), map[],
          map[0 := Submit(Announcing, [], 0)], Idle, Ids(map[0 := 0], map[], {0}, 0), History([], [], {0}))
  }

  lemma GetsEnqueued(c: Config, k: Terms)
    ensures Gets(c, k, Enqueued(c))
  {
    var s0 := Init(c);
    assert RunUnder(c, k, [s0], []) && [s0][|[s0]| - 1] == s0;
    var s1 := DoSave(s0, 0, 0);
    GetsNext(c, k, s0, Save(0, 0), s1);
    GetsNext(c, k, s1, Enqueue(0, 0, true), Enqueued(c));
  }

  /** Entry 0 of email 0 is all there is in the queue. */
  predicate Alone(s: State) {
    s.db.emails == map[0 := []] && s.db.rows.Keys == {0} && s.db.rows[0].email == 0
  }

  lemma GetsCall(c: Config, k: Terms, s: State, t: TaskId, call: Call) returns (s': State)
    requires Gets(c, k, s) && t in s.tasks && Awaits(s.tasks[t], call) && (call == AckCall(false) ==> k.refusals)
    ensures s' == DoCall(s, t, call) && Gets(c, k, s')
  {
    s' := DoCall(s, t, call);
    GetsNext(c, k, s, TaskCall(t, call), s');
  }

  lemma GetsClaimed(c: Config, k: Terms, s: State) returns (s': State)
    requires Gets(c, k, s) && Alone(s) && Claimable(s.db.rows[0], s.now)
    ensures s' == DoClaim(s, 0, true) && Gets(c, k, s')
  {
    s' := DoClaim(s, 0, true);
    GetsNext(c, k, s, Claim(0, true), s');
  }

  /** Task `t` on entry 0, past its sending notice. */
  function Executor(s: State): Task
    requires 0 in s.db.rows
  {
    Task(0, 0, [], s.db.rows[0].attempts + 1, s.now, s.now, Executing)
  }

  /** A task takes entry 0, and its sending notice fails. */
  lemma GetsStarted(c: Config, k: Terms, s: State) returns (s': State)
    requires Gets(c, k, s) && Alone(s) && Claimable(s.db.rows[0], s.now)
    ensures s' == DoClaim(s, 0, true).(tasks := s.tasks[s.ids.nextTask := Executor(s)]) && Gets(c, k, s')
  {
    var s1 := GetsClaimed(c, k, s);
    s' := GetsCall(c, k, s1, s.ids.nextTask, PublishCall(Sending(0, s.db.rows[0].attempts + 1), false));
    assert s'.tasks == s.tasks[s.ids.nextTask := Executor(s)];
  }

  lemma GetsTick(c: Config, k: Terms, s: State, ms: nat) returns (s': State)
    requires Gets(c, k, s) && k.Keeps(s.(now := s.now + ms))
    ensures s' == s.(now := s.now + ms) && Gets(c, k, s')
  {
    s' := s.(now := s.now + ms);
    GetsNext(c, k, s, Tick(ms), s');
  }

  predicate IsExecutor(s: State, t: TaskId) {
    && t in s.tasks && s.tasks[t].pc == Executing
    && s.tasks[t].entry == 0 && s.tasks[t].email == 0 && s.tasks[t].refs == []
  }

  lemma GetsAcked(c: Config, k: Terms, s: State, t: TaskId) returns (s': State)
    requires Gets(c, k, s) && IsExecutor(s, t)
    ensures Gets(c, k, s')
    ensures s'.tasks == s.tasks[t := s.tasks[t].(pc := ClearingRefs("smtp"), resolvedAt := s.now)]
    ensures s'.db == s.db.(rows := s.db.rows - {0}) && s'.now == s.now && s'.submits == s.submits
    ensures s'.past.delivered == s.past.delivered + [0]
  {
    var s1 := GetsCall(c, k, s, t, ExecuteCall(Ok("smtp")));
    s' := GetsCall(c, k, s1, t, AckCall(true));
  }

  lemma GetsCleared(c: Config, k: Terms, s: State, t: TaskId) returns (s': State)
    requires Gets(c, k, s) && s.db.emails == map[0 := []]
    requires t in s.tasks && s.tasks[t].email == 0 && s.tasks[t].pc == ClearingRefs("smtp") && s.tasks[t].refs == []
    ensures s' == s.(tasks := s.tasks[t := s.tasks[t].(pc := Publishing(Sent(0, "smtp")))]) && Gets(c, k, s')
  {
    s' := GetsCall(c, k, s, t, ClearRefsCall(true));
    assert s'.db.emails == s.db.emails;
  }

  /** Task `t` delivers email 0, acks and announces it. */
  lemma GetsSent(c: Config, k: Terms, s: State, t: TaskId) returns (s': State)
    requires Gets(c, k, s) && s.db.emails == map[0 := []] && IsExecutor(s, t)
    ensures Gets(c, k, s')
    ensures s'.tasks == s.tasks - {t} && s'.submits == s.submits && s'.db.emails == s.db.emails
    ensures s'.db.events == s.db.events + [Logged(Sent(0, "smtp"), s.now, s.now)]
    ensures s'.past.delivered == s.past.delivered + [0]
  {
    var s1 := GetsAcked(c, k, s, t);
    var s2 := GetsCleared(c, k, s1, t);
    s' := GetsCall(c, k, s2, t, PublishCall(Sent(0, "smtp"), true));
    assert s'.tasks == s.tasks - {t};
  }

  /** Task `t` fails to resolve its template and nacks. */
  lemma GetsNacked(c: Config, k: Terms, s: State, t: TaskId) returns (s': State)
    requires Gets(c, k, s) && IsExecutor(s, t) && s.tasks[t].attempt < MAX_ATTEMPTS
    ensures Gets(c, k, s')
    ensures var u := s.tasks[t];
            && s'.past == s.past.(ops := s.past.ops + [NackOp(0, s.now, RetryDelayMs(u.attempt), u.attempt)])
            && s'.db == s.db.(rows := Nacked(s.db.rows, 0, s.now, RetryDelayMs(u.attempt)))
            && s'.tasks == s.tasks[t := u.(pc := Publishing(Retrying(0, u.attempt, TemplateResolve, None)),
                                           resolvedAt := s.now)]
            && s'.now == s.now && s'.ids == s.ids
  {
    var s1 := GetsCall(c, k, s, t, ExecuteCall(Err(Resolve)));
    s' := GetsCall(c, k, s1, t, NackCall(RetryDelayMs(s.tasks[t].attempt), true));
  }

  /** The first task on entry 0. */
  function FirstTask(c: Config): Task {
    Task(0, 0, [], 1, c.bootMs, c.bootMs, Executing)
  }

  lemma GetsFirst(c: Config, k: Terms) returns (s: State)
    ensures Gets(c, k, s) && s.tasks == map[0 := FirstTask(c)] && s.ids.nextTask == 1 && s.now == c.bootMs
    ensures s.db == Db(map[0 := Row(0, c.bootMs, Some(c.bootMs + LEASE_MS), 1)], map[0 := []], map[], [])
    ensures s.past.delivered == [] && |s.past.ops| == 1 && s.submits == map[0 := Submit(Announcing, [], 0)]
  {
    GetsEnqueued(c, k);
    s := GetsStarted(c, k, Enqueued(c));
  }

  /** Task 0 overruns its lease and task 1 starts on the same entry. */
  lemma GetsOverrun(c: Config, k: Terms) returns (s: State)
    requires k.hold > LEASE_MS
    ensures Gets(c, k, s) && Alone(s) && s.db.events == [] && s.past.delivered == []
    ensures s.tasks.Keys == {0, 1} && IsExecutor(s, 0) && IsExecutor(s, 1)
    ensures s.tasks[0].attempt == 1 && s.tasks[1].attempt == 2 && s.ids.nextTask == 2
  {
    var s1 := GetsFirst(c, k);
    var s2 := GetsTick(c, k, s1, LEASE_MS + 1);
    s := GetsStarted(c, k, s2);
  }

  // ---------------------------------------------------------------------------
  // One holder
  // ---------------------------------------------------------------------------

  predicate SoleHolders(s: State) {
    forall t, u :: t in s.tasks && u in s.tasks && t != u && s.tasks[t].Holding() && s.tasks[u].Holding() ==>
      s.tasks[t].entry != s.tasks[u].entry
  }

  ghost predicate HoldersAlwaysSole(c: Config, k: Terms) {
    forall states: seq<State>, labels, i ::
      RunUnder(c, k, states, labels) && 0 <= i < |states| ==> SoleHolders(states[i])
  }

  lemma UnderTimely(c: Config, k: Terms, states: seq<State>, labels: seq<Label>)
    requires RunUnder(c, k, states, labels) && k.hold <= LEASE_MS
    ensures TimelyRun(c, states, labels)
  {
    forall i | 0 <= i < |states| ensures LeasesHeld(states[i]) {
      assert k.Keeps(states[i]);
    }
  }

  /** No entry ever has two holders if and only if tasks settle within the lease. */
  lemma OneHolderExactly(c: Config, k: Terms)
    ensures HoldersAlwaysSole(c, k) <==> k.hold <= LEASE_MS
  {
    if k.hold <= LEASE_MS {
      forall states: seq<State>, labels, i | RunUnder(c, k, states, labels) && 0 <= i < |states|
        ensures SoleHolders(states[i])
      {
        UnderTimely(c, k, states, labels);
        TimelyInvariant(c, states, labels, i);
      }
    } else {
      var s := GetsOverrun(c, k);
      var states, labels :| RunUnder(c, k, states, labels) && states[|states| - 1] == s;
      assert s.tasks[0].Holding() && s.tasks[1].Holding();
      assert !SoleHolders(states[|states| - 1]);
    }
  }

  // ---------------------------------------------------------------------------
  // One outcome
  // ---------------------------------------------------------------------------

  predicate SoleOutcomes(events: seq<Logged>) {
    forall i, j :: 0 <= i < j < |events| && events[i].event.IsTerminal() && events[j].event.IsTerminal() ==>
      events[i].event.id != events[j].event.id
  }

  ghost predicate OutcomesAlwaysSole(c: Config, k: Terms) {
    forall states: seq<State>, labels, i :: RunUnder(c, k, states, labels) && 0 <= i < |states| ==>
      SoleOutcomes(states[i].db.events)
  }

  /** Both tasks of an overrun deliver and report. */
  lemma GetsSentTwice(c: Config, k: Terms) returns (s: State)
    requires k.hold > LEASE_MS
    ensures Gets(c, k, s) && s.past.delivered == [0, 0] && |s.db.events| == 2
    ensures s.db.events[0].event == Sent(0, "smtp") && s.db.events[1].event == Sent(0, "smtp")
  {
    var s1 := GetsOverrun(c, k);
    var s2 := GetsSent(c, k, s1, 0);
    assert s2.tasks[1] == s1.tasks[1];
    s := GetsSent(c, k, s2, 1);
  }

  /** Every email gets at most one terminal event if and only if tasks settle within the lease. */
  lemma OneOutcomeExactly(c: Config, k: Terms)
    ensures OutcomesAlwaysSole(c, k) <==> k.hold <= LEASE_MS
  {
    if k.hold <= LEASE_MS {
      forall states: seq<State>, labels, i | RunUnder(c, k, states, labels) && 0 <= i < |states|
        ensures SoleOutcomes(states[i].db.events)
      {
        UnderTimely(c, k, states, labels);
        TimelyInvariant(c, states, labels, i);
        SoleFromOnce(states[i]);
      }
    } else {
      var s := GetsSentTwice(c, k);
      var states, labels := RunTo(c, k, s);
      assert !SoleOutcomes(states[|states| - 1].db.events);
    }
  }

  lemma SoleFromOnce(s: State)
    requires TerminalOnce(s)
    ensures SoleOutcomes(s.db.events)
  {
    var events := s.db.events;
    forall i, j | 0 <= i < j < |events| && events[i].event.IsTerminal() && events[j].event.IsTerminal()
      ensures events[i].event.id != events[j].event.id
    {
      assert !TerminalFor(events, j, events[i].event.id);
    }
  }

  // ---------------------------------------------------------------------------
  // The last word
  // ---------------------------------------------------------------------------

  /** After a terminal event no worker publishes anything about its email. */
  predicate TerminalLast(events: seq<Logged>) {
    forall i, j :: 0 <= i < j < |events| && events[i].event.IsTerminal() && events[j].event.id == events[i].event.id ==>
      events[j].event.Queued?
  }

  ghost predicate TerminalAlwaysLast(c: Config, k: Terms) {
    forall states: seq<State>, labels, i :: RunUnder(c, k, states, labels) && 0 <= i < |states| ==>
      TerminalLast(states[i].db.events)
  }

  lemma UnderPrompt(c: Config, k: Terms, states: seq<State>, labels: seq<Label>, i: nat)
    requires RunUnder(c, k, states, labels) && k.hold <= LEASE_MS && k.notice <= RetryDelayMs(1) && i < |states|
    ensures TerminalLast(states[i].db.events)
  {
    UnderTimely(c, k, states, labels);
    forall x | 0 <= x < |states| ensures RetriesPrompt(states[x]) {
      assert k.Keeps(states[x]);
      PromptWithin(states[x], k.notice);
    }
    var events := states[i].db.events;
    forall a, b | 0 <= a < b < |events| && events[a].event.IsTerminal() && events[b].event.id == events[a].event.id
      ensures events[b].event.Queued?
    {
      LastWord(c, states, labels, i, a, b);
    }
  }

  lemma GetsSlowNotice(c: Config, k: Terms) returns (s: State)
    requires k.notice > 30_000
    ensures Gets(c, k, s) && s.db.emails == map[0 := []] && s.db.events == [] && IsExecutor(s, 1)
    ensures 0 in s.tasks && s.tasks[0].pc == Publishing(Retrying(0, 1, TemplateResolve, None))
  {
    RetryDelays();
    var s1 := GetsFirst(c, k);
    var s2 := GetsNacked(c, k, s1, 0);
    var s3 := GetsTick(c, k, s2, 30_001);
    s := GetsStarted(c, k, s3);
  }

  /** Task 0 nacks and is slow to say so; once the delay is over, task 1 delivers; then the notice comes. */
  lemma GetsLateNotice(c: Config, k: Terms) returns (s: State)
    requires k.notice > 30_000
    ensures Gets(c, k, s) && |s.db.events| == 2
    ensures s.db.events[0].event == Sent(0, "smtp") && s.db.events[1].event == Retrying(0, 1, TemplateResolve, None)
  {
    var s4 := GetsSlowNotice(c, k);
    var s5 := GetsSent(c, k, s4, 1);
    s := GetsCall(c, k, s5, 0, PublishCall(Retrying(0, 1, TemplateResolve, None), true));
  }

  /**
   * A terminal event is the workers' last word on its email if and only if tasks settle within the lease and
   * publish each retry notice no later than 30 s, the shortest retry delay, after the nack.
   */
  lemma LastWordExactly(c: Config, k: Terms)
    ensures TerminalAlwaysLast(c, k) <==> k.hold <= LEASE_MS && k.notice <= 30_000
  {
    RetryDelays();
    if k.hold <= LEASE_MS && k.notice <= 30_000 {
      forall states: seq<State>, labels, i | RunUnder(c, k, states, labels) && 0 <= i < |states|
        ensures TerminalLast(states[i].db.events)
      {
        UnderPrompt(c, k, states, labels, i);
      }
    } else {
      var s;
      if k.hold > LEASE_MS {
        s := GetsSentTwice(c, k);
      } else {
        s := GetsLateNotice(c, k);
      }
      var states, labels := RunTo(c, k, s);
      assert !TerminalLast(states[|states| - 1].db.events);
    }
  }

  // ---------------------------------------------------------------------------
  // One delivery
  // ---------------------------------------------------------------------------

  predicate SoleDeliveries(s: State) {
    forall i, j :: 0 <= i < j < |s.past.delivered| ==> s.past.delivered[i] != s.past.delivered[j]
  }

  ghost predicate DeliveriesAlwaysSole(c: Config, k: Terms) {
    forall states: seq<State>, labels, i ::
      RunUnder(c, k, states, labels) && 0 <= i < |states| ==> SoleDeliveries(states[i])
  }

  /** Once nobody works on entry 0 any more and its lease is over, it is delivered again. */
  lemma GetsRedelivered(c: Config, k: Terms, s: State) returns (s': State)
    requires Gets(c, k, s) && Alone(s) && s.tasks == map[]
    requires s.past.delivered == [0] && s.db.rows[0].claimedUntil.Some?
    ensures Gets(c, k, s') && s'.past.delivered == [0, 0]
  {
    var s1 := GetsTick(c, k, s, s.db.rows[0].claimedUntil.value + 1);
    var s2 := GetsStarted(c, k, s1);
    s' := GetsCall(c, k, s2, s.ids.nextTask, ExecuteCall(Ok("smtp")));
  }

  /** The worker dies between the delivery and the ack. */
  lemma GetsCrashed(c: Config, k: Terms) returns (s: State)
    requires k.crashes
    ensures Gets(c, k, s) && s.past.delivered == [0, 0]
  {
    var s1 := GetsFirst(c, k);
    var s2 := GetsCall(c, k, s1, 0, ExecuteCall(Ok("smtp")));
    var s3 := s2.(tasks := s2.tasks - {0});
    GetsNext(c, k, s2, TaskCrash(0), s3);
    assert s3.tasks == map[];
    s := GetsRedelivered(c, k, s3);
  }

  /** The ack after the delivery is refused. */
  lemma GetsRefused(c: Config, k: Terms) returns (s: State)
    requires k.refusals
    ensures Gets(c, k, s) && s.past.delivered == [0, 0]
  {
    var s1 := GetsFirst(c, k);
    var s2 := GetsCall(c, k, s1, 0, ExecuteCall(Ok("smtp")));
    var s3 := GetsCall(c, k, s2, 0, AckCall(false));
    assert s3.tasks == map[];
    s := GetsRedelivered(c, k, s3);
  }

  /**
   * Every email is delivered at most once, across all its attempts, if and only if tasks settle within the
   * lease, none of them dies, and no ack is refused. Each of the three alone allows a second delivery.
   */
  lemma OneDeliveryExactly(c: Config, k: Terms)
    ensures DeliveriesAlwaysSole(c, k) <==> k.hold <= LEASE_MS && !k.crashes && !k.refusals
  {
    if k.hold <= LEASE_MS && !k.crashes && !k.refusals {
      forall states: seq<State>, labels, i | RunUnder(c, k, states, labels) && 0 <= i < |states|
        ensures SoleDeliveries(states[i])
      {
        UnderTimely(c, k, states, labels);
        assert forall j :: 0 <= j < |labels| ==> k.Permits(labels[j]) && Reliable(labels[j]);
        OneDelivery(c, states, labels, i);
      }
    } else {
      var s;
      if k.crashes {
        s := GetsCrashed(c, k);
      } else if k.refusals {
        s := GetsRefused(c, k);
      } else {
        s := GetsSentTwice(c, k);
      }
      var states, labels := RunTo(c, k, s);
      assert s.past.delivered[0] == s.past.delivered[1];
      assert !SoleDeliveries(states[|states| - 1]);
    }
  }

  // ---------------------------------------------------------------------------
  // Nack delays
  // ---------------------------------------------------------------------------

  predicate DelaysKept(ops: seq<Op>) {
    forall i, j :: 0 <= i < j < |ops| && ops[i].NackOp? && ops[j].ClaimOp? && ops[i].entry == ops[j].entry ==>
      ops[j].at > ops[i].at + ops[i].delayMs
  }

  ghost predicate DelaysAlwaysKept(c: Config, k: Terms) {
    forall states: seq<State>, labels, i ::
      RunUnder(c, k, states, labels) && 0 <= i < |states| ==> DelaysKept(states[i].past.ops)
  }

  /** After an overrun the stale holder's nack overwrites the delay the current one asked for: 60 s become 30 s. */
  lemma GetsCutShort(c: Config, k: Terms) returns (s: State)
    requires k.hold > LEASE_MS
    ensures Gets(c, k, s) && !DelaysKept(s.past.ops)
  {
    RetryDelays();
    var s1 := GetsOverrun(c, k);
    var s2 := GetsNacked(c, k, s1, 1);
    var s3 := GetsNacked(c, k, s2, 0);
    var s4 := GetsPublished(c, k, s3);
    var s5 := GetsTick(c, k, s4, 30_001);
    s := GetsClaimed(c, k, s5);
    var i, j := |s1.past.ops|, |s1.past.ops| + 2;
    assert s.past.ops[i] == NackOp(0, s1.now, 60_000, 2);
    assert s.past.ops[j] == ClaimOp(0, s1.now + 30_001, s.past.ops[j].attempt);
  }

  /** Both tasks try to publish their notices and are done. */
  lemma GetsPublished(c: Config, k: Terms, s: State) returns (s': State)
    requires Gets(c, k, s) && s.tasks.Keys == {0, 1} && s.tasks[0].pc.Publishing? && s.tasks[1].pc.Publishing?
    ensures Gets(c, k, s') && s' == s.(tasks := map[])
  {
    var s1 := GetsCall(c, k, s, 0, PublishCall(s.tasks[0].pc.event, false));
    s' := GetsCall(c, k, s1, 1, PublishCall(s.tasks[1].pc.event, false));
    assert s'.tasks == map[];
  }

  /** A nack's delay is kept against every later claim if and only if tasks settle within the lease. */
  lemma NackDelaysExactly(c: Config, k: Terms)
    ensures DelaysAlwaysKept(c, k) <==> k.hold <= LEASE_MS
  {
    if k.hold <= LEASE_MS {
      forall states: seq<State>, labels, x | RunUnder(c, k, states, labels) && 0 <= x < |states|
        ensures DelaysKept(states[x].past.ops)
      {
        UnderTimely(c, k, states, labels);
        var ops := states[x].past.ops;
        forall i, j | 0 <= i < j < |ops| && ops[i].NackOp? && ops[j].ClaimOp? && ops[i].entry == ops[j].entry
          ensures ops[j].at > ops[i].at + ops[i].delayMs
        {
          NackBlocksTimely(c, states, labels, x, i, j);
        }
      }
    } else {
      var s := GetsCutShort(c, k);
      var states, labels := RunTo(c, k, s);
      assert !DelaysKept(states[|states| - 1].past.ops);
    }
  }

  // ---------------------------------------------------------------------------
  // The submission's own notice
  // ---------------------------------------------------------------------------

  /**
   * Under no terms whatsoever is `Queued` sure to come before `Sent`: it is published only after the email has
   * been enqueued, and the latest event then says "queued" about a delivered email.
   */
  lemma QueuedAfterSent(c: Config, k: Terms)
    ensures exists s :: Gets(c, k, s) && |s.db.events| == 2
                     && s.db.events[0].event == Sent(0, "smtp") && s.db.events[1].event == Queued(0)
  {
    var s1 := GetsFirst(c, k);
    var s2 := GetsSent(c, k, s1, 0);
    var s3 := DoAnnounce(s2, 0, true);
    GetsNext(c, k, s2, Announce(0, true), s3);
    assert s3.db.events[1].event == Queued(0);
  }
}
