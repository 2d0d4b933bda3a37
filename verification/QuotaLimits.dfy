/** When the overshoot bound holds, a run that reaches it with every send checked, and what happens otherwise. */
module QuotaLimits {
  import opened Core
  import opened SenderUsage
  import opened WindowedUsage
  import opened Routing
  import opened QuotaBound

  ghost predicate Reachable(c: Config, now: nat, s: State) {
    exists states, labels :: IsRun(c, now, states, labels) && states[|states| - 1] == s
  }

  lemma Extend(c: Config, now: nat, s: State, l: Label)
    requires Reachable(c, now, s) && Enabled(c, s, l)
    ensures Reachable(c, now, Next(c, s, l))
  {
    var states, labels :| IsRun(c, now, states, labels) && states[|states| - 1] == s;
    var longer := states + [Next(c, s, l)];
    assert IsRun(c, now, longer, labels + [l]);
    assert longer[|longer| - 1] == Next(c, s, l);
  }

  /** `r` has a quota and is a candidate for emails of `sender`. */
  predicate Served(c: Config, r: Route, sender: string) {
    c.Valid() && r in c.routes && r.quota.Some? && r in Candidates(c.routes, SenderDomain(sender))
  }

  predicate AllSent(rows: seq<EventRow>, name: SenderName, now: nat) {
    forall i :: 0 <= i < |rows| ==> rows[i].event.Sent? && rows[i].event.via == name && rows[i].at == now
  }

  /** Time stands still, every row is a `Sent` of `r`, and every task that published it was within quota. */
  predicate Scene(r: Route, now: nat, s: State) {
    && s.now == now
    && AllSent(s.rows, r.name, now)
    && (forall t :: t in s.finished ==> s.finished[t].job.Checked(r))
    && (forall t :: t in s.jobs ==> t < s.next && Ready(r, s.jobs[t]))
  }

  /** About to deliver through `r`, found within quota. */
  predicate Ready(r: Route, job: Job) {
    r in job.candidates && job.clock.Some? && job.via.None? && job.Checked(r)
  }

  /** After `n` `Sent` rows in its window the query still finds `r` within quota. */
  predicate HasRoom(c: Config, r: Route, n: nat)
    requires r.quota.Some?
  {
    r.quota.value.count >= 1 && (c.kinds.sent == SENT_TYPE ==> n < r.quota.value.count)
  }

  lemma {:induction false} AllCounted(rows: seq<EventRow>, name: SenderName, now: nat, to: nat)
    requires AllSent(rows, name, now) && now <= to
    ensures SentWithin(rows, name, now, to) == |rows|
  {
    if rows != [] {
      AllCounted(rows[..|rows| - 1], name, now, to);
    }
  }

  /** A query for another type than that of `Sent` does not see them. */
  lemma {:induction false} SeenByQuery(rows: seq<EventRow>, kind: string, name: SenderName, now: nat, since: nat)
    requires AllSent(rows, name, now) && since <= now
    ensures CountOf(rows, kind, name, since) == if kind == SENT_TYPE then |rows| else 0
  {
    if rows != [] {
      SeenByQuery(rows[..|rows| - 1], kind, name, now, since);
    }
  }

  /** A task for an email of `sender` that has just read the clock. */
  function Clocked(c: Config, sender: string, now: nat): Job {
    Job(Candidates(c.routes, SenderDomain(sender)), Some(now), map[], None)
  }

  lemma Begin(c: Config, sender: string, now: nat, s: State) returns (s': State)
    requires Reachable(c, now, s) && s.now == now && |s.jobs| < c.concurrency
    ensures Reachable(c, now, s')
    ensures s' == s.(jobs := s.jobs[s.next := Clocked(c, sender, now)], next := s.next + 1)
  {
    var s1 := Next(c, s, Start(sender));
    Extend(c, now, s, Start(sender));
    s' := Next(c, s1, ReadClock(s.next));
    Extend(c, now, s1, ReadClock(s.next));
    assert s1.jobs[s.next := Clocked(c, sender, now)] == s.jobs[s.next := Clocked(c, sender, now)];
  }

  lemma NameAsked(cs: seq<Route>, r: Route, now: nat)
    requires r in cs && r.quota.Some?
    ensures var w := r.quota.value.range.SinceMs(now); r.name in NamesIn(Requests(cs, now), w)
  {
    RequestsOf(cs, now);
    NamesInMembers(Requests(cs, now), r.quota.value.range.SinceMs(now));
  }

  lemma AnswerReady(c: Config, r: Route, sender: string, rows: seq<EventRow>, now: nat)
    requires Served(c, r, sender) && HasRoom(c, r, |rows|) && AllSent(rows, r.name, now)
    ensures var job := Clocked(c, sender, now);
            Ready(r, job.(seen := WithAnswers(rows, c.kinds, job, r.quota.value.range.SinceMs(now))))
  {
    var job, w := Clocked(c, sender, now), r.quota.value.range.SinceMs(now);
    NameAsked(job.candidates, r, now);
    SeenByQuery(rows, c.kinds.sent, r.name, now, w);
    var asked := job.(seen := WithAnswers(rows, c.kinds, job, w));
    assert r.name in job.Names(w);
    assert asked.Known()[r.name] == Counted(rows, c.kinds, r.name, w);
  }

  lemma Ask(c: Config, r: Route, sender: string, now: nat, s: State, t: TaskId) returns (s': State, job: Job)
    requires Served(c, r, sender) && Reachable(c, now, s) && t in s.jobs && s.jobs[t] == Clocked(c, sender, now)
    requires AllSent(s.rows, r.name, now) && HasRoom(c, r, |s.rows|)
    ensures Reachable(c, now, s') && s' == s.(jobs := s.jobs[t := job]) && Ready(r, job)
  {
    var w := r.quota.value.range.SinceMs(now);
    AnswerReady(c, r, sender, s.rows, now);
    job := s.jobs[t].(seen := WithAnswers(s.rows, c.kinds, s.jobs[t], w));
    s' := Next(c, s, Query(t, w));
    Extend(c, now, s, Query(t, w));
  }

  lemma SceneAdd(r: Route, now: nat, s: State, job: Job)
    requires Scene(r, now, s) && Ready(r, job)
    ensures Scene(r, now, s.(jobs := s.jobs[s.next := job], next := s.next + 1))
  {
  }

  lemma BeginAndAsk(c: Config, r: Route, sender: string, now: nat, s: State) returns (s': State, job: Job)
    requires Served(c, r, sender) && Reachable(c, now, s) && s.now == now && AllSent(s.rows, r.name, now)
    requires |s.jobs| < c.concurrency && HasRoom(c, r, |s.rows|)
    ensures Reachable(c, now, s') && Ready(r, job)
    ensures s' == s.(jobs := s.jobs[s.next := job], next := s.next + 1)
  {
    var s1 := Begin(c, sender, now, s);
    s', job := Ask(c, r, sender, now, s1, s.next);
    assert s1.jobs[s.next := job] == s.jobs[s.next := job];
  }

  /** One more task starts, reads the clock and finds the sender within quota. */
  lemma Prepare(c: Config, r: Route, sender: string, now: nat, s: State) returns (s': State)
    requires Served(c, r, sender) && Reachable(c, now, s) && Scene(r, now, s)
    requires |s.jobs| < c.concurrency && HasRoom(c, r, |s.rows|)
    ensures Reachable(c, now, s') && Scene(r, now, s') && s'.rows == s.rows && |s'.jobs| == |s.jobs| + 1
  {
    var job;
    s', job := BeginAndAsk(c, r, sender, now, s);
    SceneAdd(r, now, s, job);
    WithJob(s.jobs, s.next, job);
  }

  lemma InPlan(cs: seq<Route>, known: Answers, r: Route)
    requires r in cs && !OverQuota(known, r)
    ensures r in Plan(cs, known)
  {
    StableSort.FilterMembers(Within(known), cs);
  }

  lemma DeliverReady(c: Config, r: Route, now: nat, s: State, t: TaskId) returns (s': State)
    requires Reachable(c, now, s) && t in s.jobs && Ready(r, s.jobs[t])
    ensures Reachable(c, now, s') && s' == s.(jobs := s.jobs[t := s.jobs[t].(via := Some(r))])
  {
    InPlan(s.jobs[t].candidates, s.jobs[t].Known(), r);
    s' := Next(c, s, Deliver(t, r));
    Extend(c, now, s, Deliver(t, r));
  }

  lemma Without(jobs: map<TaskId, Job>, t: TaskId, job: Job)
    requires t in jobs
    ensures jobs[t := job] - {t} == jobs - {t} && |jobs - {t}| == |jobs| - 1
  {
  }

  lemma SceneSent(r: Route, now: nat, s: State, t: TaskId)
    requires Scene(r, now, s) && t in s.jobs
    ensures Scene(r, now, DoPublish(s.(jobs := s.jobs[t := s.jobs[t].(via := Some(r))]), t, 0))
  {
  }

  /** A ready task delivers and publishes. */
  lemma Complete(c: Config, r: Route, now: nat, s: State, t: TaskId) returns (s': State)
    requires Reachable(c, now, s) && Scene(r, now, s) && t in s.jobs
    ensures Reachable(c, now, s') && Scene(r, now, s') && |s'.jobs| == |s.jobs| - 1 && |s'.rows| == |s.rows| + 1
  {
    var s1 := DeliverReady(c, r, now, s, t);
    Extend(c, now, s1, Publish(t, 0));
    s' := DoPublish(s1, t, 0);
    SceneSent(r, now, s, t);
    Without(s.jobs, t, s1.jobs[t]);
  }

  /** One task after the other sends, as long as the query finds room. */
  lemma {:induction false} OneByOne(c: Config, r: Route, sender: string, now: nat, k: nat) returns (s: State)
    requires Served(c, r, sender) && (k > 0 ==> HasRoom(c, r, k - 1))
    ensures Reachable(c, now, s) && Scene(r, now, s) && |s.jobs| == 0 && |s.rows| == k
  {
    if k == 0 {
      s := Init(now);
      assert IsRun(c, now, [s], []);
      assert [s][|[s]| - 1] == s;
    } else {
      s := OneByOne(c, r, sender, now, k - 1);
      s := Prepare(c, r, sender, now, s);
      var t :| t in s.jobs.Keys;
      s := Complete(c, r, now, s, t);
    }
  }

  /** Then all permits are taken by tasks that see the same log. */
  lemma {:induction false} AllPrepared(c: Config, r: Route, sender: string, now: nat, m: nat) returns (s: State)
    requires Served(c, r, sender) && r.quota.value.count >= 1 && m <= c.concurrency
    ensures Reachable(c, now, s) && Scene(r, now, s) && |s.jobs| == m && |s.rows| == r.quota.value.count - 1
  {
    if m == 0 {
      s := OneByOne(c, r, sender, now, r.quota.value.count - 1);
    } else {
      s := AllPrepared(c, r, sender, now, m - 1);
      s := Prepare(c, r, sender, now, s);
    }
  }

  lemma {:induction false} AllComplete(c: Config, r: Route, now: nat, s: State) returns (s': State)
    requires Reachable(c, now, s) && Scene(r, now, s)
    ensures Reachable(c, now, s') && Scene(r, now, s') && |s'.rows| == |s.rows| + |s.jobs|
    decreases |s.jobs|
  {
    if s.jobs == map[] {
      s' := s;
    } else {
      var t :| t in s.jobs.Keys;
      var s1 := Complete(c, r, now, s, t);
      s' := AllComplete(c, r, now, s1);
    }
  }

  lemma {:induction false} NoneBypassed(r: Route, s: State, from: nat, to: nat, n: nat)
    requires n <= |s.rows| && forall t :: t in s.finished ==> s.finished[t].job.Checked(r)
    ensures Bypassed(s, r, from, to, n) == 0
  {
    if n > 0 {
      NoneBypassed(r, s, from, to, n - 1);
    }
  }

  /** In a scene every row lies in the window that starts now, and none bypassed the check. */
  lemma SceneCounts(r: Route, now: nat, s: State, to: nat)
    requires Scene(r, now, s) && now <= to
    ensures SentWithin(s.rows, r.name, now, to) == |s.rows| && Bypassed(s, r, now, to, |s.rows|) == 0
  {
    AllCounted(s.rows, r.name, now, to);
    NoneBypassed(r, s, now, to, |s.rows|);
  }

  /** The bound is reached for every sender in use, every quota of at least one and every concurrency. */
  lemma BoundReached(c: Config, r: Route, sender: string, now: nat) returns (states: seq<State>, labels: seq<Label>)
    requires Served(c, r, sender) && r.quota.value.count >= 1
    ensures IsRun(c, now, states, labels)
    ensures var s, q := states[|states| - 1], r.quota.value;
            var to := now + q.range.LengthMs();
            SentWithin(s.rows, r.name, now, to) == q.count + c.concurrency - 1
            && Bypassed(s, r, now, to, |s.rows|) == 0
  {
    var s := AllPrepared(c, r, sender, now, c.concurrency);
    s := AllComplete(c, r, now, s);
    SceneCounts(r, now, s, now + r.quota.value.range.LengthMs());
    states, labels :| IsRun(c, now, states, labels) && states[|states| - 1] == s;
  }

  /**
   * If the query looks for another type than that of `Sent`, as on Postgres, no quota of one or more holds a
   * sender back: some run puts any number of checked `Sent` events into one instant.
   */
  lemma Unbounded(c: Config, r: Route, sender: string, now: nat, n: nat)
    returns (states: seq<State>, labels: seq<Label>)
    requires Served(c, r, sender) && r.quota.value.count >= 1 && c.kinds.sent != SENT_TYPE
    ensures IsRun(c, now, states, labels)
    ensures var s, to := states[|states| - 1], now + r.quota.value.range.LengthMs();
            && AllSent(s.rows, r.name, now) && |s.rows| == n
            && SentWithin(s.rows, r.name, now, to) == n && Bypassed(s, r, now, to, |s.rows|) == 0
  {
    var s := OneByOne(c, r, sender, now, n);
    SceneCounts(r, now, s, now + r.quota.value.range.LengthMs());
    states, labels :| IsRun(c, now, states, labels) && states[|states| - 1] == s;
  }

  ghost predicate QuotaKept(c: Config, r: Route)
    requires r.quota.Some?
  {
    forall now, states, labels, i, from: nat :: IsRun(c, now, states, labels) && 0 <= i < |states| ==>
      WithinBound(c, states[i], r, from)
  }

  /**
   * The bound holds in all runs, for a sender in use, if and only if the query looks for the type under which
   * `Sent` is stored or the quota is zero: on SQLite always, on Postgres for no quota of one or more.
   */
  lemma QuotaExactly(c: Config, r: Route, sender: string)
    requires Served(c, r, sender)
    ensures QuotaKept(c, r) <==> c.kinds.sent == SENT_TYPE || r.quota.value.count == 0
  {
    if c.kinds.sent == SENT_TYPE || r.quota.value.count == 0 {
      forall now, states, labels, i, from: nat | IsRun(c, now, states, labels) && 0 <= i < |states|
        ensures WithinBound(c, states[i], r, from)
      {
        Overshoot(c, now, states, labels, i, r, from);
      }
    } else {
      var states, labels := Unbounded(c, r, sender, 0, r.quota.value.count + c.concurrency);
      assert !WithinBound(c, states[|states| - 1], r, 0);
    }
  }

  /** So the database decides whether quotas of one or more mean anything. */
  lemma QuotaByDatabase(c: Config, r: Route, sender: string)
    requires Served(c, r, sender)
    ensures c.kinds == SQLITE ==> QuotaKept(c, r)
    ensures c.kinds == POSTGRES ==> (QuotaKept(c, r) <==> r.quota.value.count == 0)
  {
    PostgresTypes();
    QuotaExactly(c, r, sender);
  }
}
