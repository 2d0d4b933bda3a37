/**
 * Quotas under concurrency: worker tasks read the clock, query the event log, deliver and publish `Sent`
 * in any interleaving. How many `Sent` events one quota window can hold, and why no better bound exists.
 */
module QuotaBound {
  import opened Core
  import opened WorkerTask
  import opened SenderUsage
  import opened WindowedUsage
  import opened Routing

  /**
   * Configured routes, as `RoutedEmailSender::new` leaves them, the worker's permits, and the event types that
   * the database's usage query looks for.
   */
  datatype Config = Config(routes: seq<Route>, concurrency: nat, kinds: Kinds) {
    predicate Valid() {
      concurrency >= 1 && RouteNamesDistinct(routes)
    }
  }

  /** A query's answer for one sender and how much of the log it had seen. */
  datatype View = View(length: nat, stats: Stats)

  /** One task's `send`: candidates, the clock it read, the answers so far, the transport that accepted. */
  datatype Job = Job(candidates: seq<Route>, clock: Option<nat>, seen: map<SenderName, View>, via: Option<Route>) {
    function Known(): Answers {
      map n | n in seen :: seen[n].stats
    }

    function Names(window: nat): seq<SenderName>
      requires clock.Some?
    {
      NamesIn(Requests(candidates, clock.value), window)
    }

    /** The accepting transport had been looked up and was within its quota. */
    predicate Checked(r: Route) {
      r.quota.Some? && r.name in seen && !OverQuota(Known(), r)
    }

    /** The lookup for `name` saw none of the events from index `p` - 1 on. */
    predicate Early(name: SenderName, p: nat) {
      name in seen && seen[name].length < p
    }
  }

  datatype Finished = Finished(index: nat, job: Job)

  /** `authors` and `finished` record which task published which row; nothing reads them. */
  datatype State = State(
    now: nat,
    rows: seq<EventRow>,
    jobs: map<TaskId, Job>,
    authors: seq<Option<TaskId>>,
    finished: map<TaskId, Finished>,
    next: TaskId
  )

  function Init(now: nat): State {
    State(now, [], map[], [], map[], 0)
  }

  datatype Label =
    | Tick(ms: nat)
    | Start(sender: string)
    | ReadClock(task: TaskId)
    | Query(task: TaskId, window: nat)
    | Deliver(task: TaskId, via: Route)
    | Publish(task: TaskId, id: EmailId)
    | Leave(task: TaskId)
    | OtherEvent(event: Event)

  /** A query that fails is one that never happens; `Leave` is a failed send, a failed ack or a crash. */
  predicate Enabled(c: Config, s: State, l: Label) {
    match l
    case Tick(_) => true
    case Start(_) => |s.jobs| < c.concurrency
    case ReadClock(t) => t in s.jobs && s.jobs[t].clock.None? && s.jobs[t].via.None?
    case Query(t, w) =>
      && t in s.jobs && s.jobs[t].clock.Some? && s.jobs[t].via.None?
      && forall n :: n in s.jobs[t].Names(w) ==> n !in s.jobs[t].seen
    case Deliver(t, r) =>
      && t in s.jobs && s.jobs[t].clock.Some? && s.jobs[t].via.None?
      && r in Plan(s.jobs[t].candidates, s.jobs[t].Known())
    case Publish(t, _) => t in s.jobs && s.jobs[t].via.Some?
    case Leave(t) => t in s.jobs
    case OtherEvent(ev) => !ev.Sent?
  }

  function WithAnswers(rows: seq<EventRow>, kinds: Kinds, job: Job, window: nat): map<SenderName, View>
    requires job.clock.Some?
  {
    map n | n in job.seen.Keys + (set m | m in job.Names(window)) ::
      if n in job.Names(window) then View(|rows|, Counted(rows, kinds, n, window)) else job.seen[n]
  }

  function Update(s: State, t: TaskId, job: Job): State {
    s.(jobs := s.jobs[t := job])
  }

  function DoPublish(s: State, t: TaskId, id: EmailId): State
    requires t in s.jobs && s.jobs[t].via.Some?
  {
    s.(rows := s.rows + [EventRow(Sent(id, s.jobs[t].via.value.name), s.now)],
       authors := s.authors + [Some(t)],
       finished := s.finished[t := Finished(|s.rows|, s.jobs[t])],
       jobs := s.jobs - {t})
  }

  function Next(c: Config, s: State, l: Label): State
    requires Enabled(c, s, l)
  {
    match l
    case Tick(ms) => s.(now := s.now + ms)
    case Start(sender) =>
      var cs := Candidates(c.routes, SenderDomain(sender));
      s.(jobs := s.jobs[s.next := Job(cs, None, map[], None)], next := s.next + 1)
    case ReadClock(t) => Update(s, t, s.jobs[t].(clock := Some(s.now)))
    case Query(t, w) => Update(s, t, s.jobs[t].(seen := WithAnswers(s.rows, c.kinds, s.jobs[t], w)))
    case Deliver(t, r) => Update(s, t, s.jobs[t].(via := Some(r)))
    case Publish(t, id) => DoPublish(s, t, id)
    case Leave(t) => s.(jobs := s.jobs - {t})
    case OtherEvent(ev) => s.(rows := s.rows + [EventRow(ev, s.now)], authors := s.authors + [None])
  }

  ghost predicate IsRun(c: Config, now: nat, states: seq<State>, labels: seq<Label>) {
    && |states| == |labels| + 1
    && states[0] == Init(now)
    && forall i :: 0 <= i < |labels| ==>
      Enabled(c, states[i], labels[i]) && states[i + 1] == Next(c, states[i], labels[i])
  }

  // ---------------------------------------------------------------------------
  // Invariants
  // ---------------------------------------------------------------------------

  /** The answer for `n` counts its rows of the types looked for, in the log as far as the query saw it. */
  predicate ViewOk(c: Config, rows: seq<EventRow>, n: SenderName, v: View, clock: nat) {
    && v.length <= |rows|
    && exists i :: 0 <= i < |c.routes| && c.routes[i].name == n && c.routes[i].quota.Some?
                   && v.stats == Counted(rows[..v.length], c.kinds, n, c.routes[i].quota.value.range.SinceMs(clock))
  }

  predicate JobOk(c: Config, rows: seq<EventRow>, job: Job, now: nat) {
    && (forall r :: r in job.candidates ==> r in c.routes)
    && (job.clock.Some? ==> job.clock.value <= now)
    && (job.clock.None? ==> job.seen == map[] && job.via.None?)
    && (forall n :: n in job.seen ==> ViewOk(c, rows, n, job.seen[n], job.clock.value))
    && (job.via.Some? ==> job.via.value in c.routes)
  }

  predicate FinishedOk(c: Config, s: State, t: TaskId)
    requires t in s.finished
  {
    var f := s.finished[t];
    && f.index < |s.rows| && f.index < |s.authors| && s.authors[f.index] == Some(t)
    && f.job.via.Some? && s.rows[f.index].Sender() == Some(f.job.via.value.name)
    && JobOk(c, s.rows[..f.index], f.job, s.rows[f.index].at)
  }

  /** Every `Sent` row has the task that published it. */
  predicate Authored(s: State) {
    && |s.authors| == |s.rows|
    && (forall i :: 0 <= i < |s.rows| && s.rows[i].event.Sent? ==>
          s.authors[i].Some? && s.authors[i].value in s.finished && s.finished[s.authors[i].value].index == i)
  }

  predicate Tracked(c: Config, s: State) {
    && Authored(s)
    && (forall t :: t in s.jobs ==> t < s.next && JobOk(c, s.rows, s.jobs[t], s.now))
    && (forall t :: t in s.finished ==> t < s.next && t !in s.jobs && FinishedOk(c, s, t))
    && |s.jobs| <= c.concurrency
  }

  /** The tasks whose lookup for `name` missed row `p` - 1 and that may publish, or published, after it. */
  function Late(s: State, name: SenderName, p: nat): set<TaskId> {
    (set t | t in s.jobs && s.jobs[t].Early(name, p))
    + (set t | t in s.finished && s.finished[t].index >= p && s.finished[t].job.Early(name, p))
  }

  /** Whoever published row `p` - 1 held a permit, so at most the others can have missed it. */
  ghost predicate FewLate(c: Config, s: State) {
    forall p, name :: 0 < p <= |s.rows| && s.rows[p - 1].event.Sent? ==> |Late(s, name, p)| < c.concurrency
  }

  lemma ViewOkPrefix(c: Config, rows: seq<EventRow>, more: seq<EventRow>, n: SenderName, v: View, clock: nat)
    requires ViewOk(c, rows, n, v, clock)
    ensures ViewOk(c, rows + more, n, v, clock)
  {
    assert (rows + more)[..v.length] == rows[..v.length];
  }

  lemma JobOkLater(c: Config, rows: seq<EventRow>, more: seq<EventRow>, job: Job, now: nat, later: nat)
    requires JobOk(c, rows, job, now) && now <= later
    ensures JobOk(c, rows + more, job, later)
  {
    forall n | n in job.seen ensures ViewOk(c, rows + more, n, job.seen[n], job.clock.value) {
      ViewOkPrefix(c, rows, more, n, job.seen[n], job.clock.value);
    }
  }

  lemma FinishedOkLater(c: Config, s: State, s': State, t: TaskId)
    requires t in s.finished && t in s'.finished && s'.finished[t] == s.finished[t] && FinishedOk(c, s, t)
    requires s.rows <= s'.rows && s.authors <= s'.authors
    ensures FinishedOk(c, s', t)
  {
    assert s.rows[..s.finished[t].index] == s'.rows[..s.finished[t].index];
  }

  lemma {:induction false} RequestIsQuota(cs: seq<Route>, now: nat, q: Request)
    requires q in Requests(cs, now)
    ensures exists r :: r in cs && r.name == q.name && r.quota.Some? && r.quota.value.range.SinceMs(now) == q.since
  {
    var init, last := cs[..|cs| - 1], cs[|cs| - 1];
    if q in Requests(init, now) {
      RequestIsQuota(init, now, q);
      var r :| r in init && r.name == q.name && r.quota.Some? && r.quota.value.range.SinceMs(now) == q.since;
      assert r in cs;
    } else {
      assert last in cs;
    }
  }

  lemma QueryOk(c: Config, rows: seq<EventRow>, job: Job, now: nat, w: nat)
    requires JobOk(c, rows, job, now) && job.clock.Some?
    ensures JobOk(c, rows, job.(seen := WithAnswers(rows, c.kinds, job, w)), now)
  {
    var seen := WithAnswers(rows, c.kinds, job, w);
    forall n | n in seen ensures ViewOk(c, rows, n, seen[n], job.clock.value) {
      if n in job.Names(w) {
        NamesInMembers(Requests(job.candidates, job.clock.value), w);
        RequestIsQuota(job.candidates, job.clock.value, Request(n, w));
        var r :| r in job.candidates && r.name == n && r.quota.Some?
                 && r.quota.value.range.SinceMs(job.clock.value) == w;
        var i :| 0 <= i < |c.routes| && c.routes[i] == r;
        assert rows[..|rows|] == rows;
      }
    }
  }

  lemma CandidatesConfigured(routes: seq<Route>, domain: string)
    ensures forall r :: r in Candidates(routes, domain) ==> r in routes
  {
    StableSort.FilterMembers(MatchedBy(domain), routes);
    StableSort.FilterMembers(CatchAll, routes);
  }

  lemma PlanCandidates(cs: seq<Route>, known: Answers)
    ensures forall r :: r in Plan(cs, known) ==> r in cs
  {
    StableSort.FilterMembers(Within(known), cs);
  }

  /** Steps that leave the log alone. */
  lemma TrackedQuietStep(c: Config, s: State, l: Label, s': State)
    requires Tracked(c, s) && Enabled(c, s, l) && s' == Next(c, s, l) && !l.Publish? && !l.OtherEvent?
    ensures Tracked(c, s')
  {
    if l.Start? {
      CandidatesConfigured(c.routes, SenderDomain(l.sender));
    } else if l.Query? {
      QueryOk(c, s.rows, s.jobs[l.task], s.now, l.window);
    } else if l.Deliver? {
      PlanCandidates(s.jobs[l.task].candidates, s.jobs[l.task].Known());
    }
    forall t | t in s'.jobs ensures t < s'.next && JobOk(c, s'.rows, s'.jobs[t], s'.now) {
      if t in s.jobs && s'.jobs[t] == s.jobs[t] {
        JobOkLater(c, s.rows, [], s.jobs[t], s.now, s'.now);
        assert s.rows + [] == s.rows;
      }
    }
    forall t | t in s'.finished ensures t < s'.next && t !in s'.jobs && FinishedOk(c, s', t) {
      FinishedOkLater(c, s, s', t);
    }
    JobsWithinPermits(c, s, l, s');
  }

  lemma WithJob(jobs: map<TaskId, Job>, t: TaskId, job: Job)
    ensures |jobs[t := job]| == if t in jobs then |jobs| else |jobs| + 1
  {
  }

  lemma JobsWithinPermits(c: Config, s: State, l: Label, s': State)
    requires Enabled(c, s, l) && s' == Next(c, s, l) && |s.jobs| <= c.concurrency
    ensures |s'.jobs| <= c.concurrency
    ensures l.Publish? ==> |s'.jobs| < c.concurrency
  {
  }

  lemma LoggedJobs(c: Config, s: State, s': State, row: EventRow)
    requires Tracked(c, s) && s'.rows == s.rows + [row] && s'.now == s.now && s'.next == s.next
    requires forall t :: t in s'.jobs ==> t in s.jobs && s'.jobs[t] == s.jobs[t]
    ensures forall t :: t in s'.jobs ==> t < s'.next && JobOk(c, s'.rows, s'.jobs[t], s'.now)
  {
    forall t | t in s'.jobs ensures JobOk(c, s'.rows, s'.jobs[t], s'.now) {
      JobOkLater(c, s.rows, [row], s.jobs[t], s.now, s.now);
    }
  }

  lemma PublishedOk(c: Config, s: State, t: TaskId, id: EmailId, s': State)
    requires Tracked(c, s) && Enabled(c, s, Publish(t, id)) && s' == DoPublish(s, t, id)
    ensures FinishedOk(c, s', t)
  {
  }

  lemma LoggedFinished(c: Config, s: State, l: Label, s': State)
    requires Tracked(c, s) && Enabled(c, s, l) && s' == Next(c, s, l) && (l.Publish? || l.OtherEvent?)
    ensures forall t :: t in s'.finished ==> t < s'.next && t !in s'.jobs && FinishedOk(c, s', t)
  {
    forall t | t in s'.finished ensures t < s'.next && t !in s'.jobs && FinishedOk(c, s', t) {
      if l.Publish? && t == l.task {
        PublishedOk(c, s, t, l.id, s');
      } else {
        FinishedOkLater(c, s, s', t);
      }
    }
  }

  lemma LoggedAuthors(c: Config, s: State, l: Label, s': State)
    requires Authored(s) && Enabled(c, s, l) && s' == Next(c, s, l) && (l.Publish? || l.OtherEvent?)
    requires forall t :: t in s.finished ==> t !in s.jobs
    ensures Authored(s')
  {
  }

  /** Steps that append a row. */
  lemma TrackedLogStep(c: Config, s: State, l: Label, s': State)
    requires Tracked(c, s) && Enabled(c, s, l) && s' == Next(c, s, l) && (l.Publish? || l.OtherEvent?)
    ensures Tracked(c, s')
  {
    LoggedJobs(c, s, s', s'.rows[|s.rows|]);
    LoggedFinished(c, s, l, s');
    LoggedAuthors(c, s, l, s');
    JobsWithinPermits(c, s, l, s');
  }

  lemma NoNewLate(s: State, s': State, name: SenderName, p: nat)
    requires p <= |s.rows|
    requires forall t :: t in s'.jobs && s'.jobs[t].Early(name, p) ==> t in s.jobs && s.jobs[t].Early(name, p)
    requires forall t :: t in s'.finished ==>
      (t in s.finished && s'.finished[t] == s.finished[t]) || (t in s.jobs && s'.finished[t].job == s.jobs[t])
    ensures |Late(s', name, p)| <= |Late(s, name, p)|
  {
    assert Late(s', name, p) <= Late(s, name, p);
    Cardinality(Late(s', name, p), Late(s, name, p));
  }

  lemma {:induction false} Cardinality<T>(a: set<T>, b: set<T>)
    requires a <= b
    ensures |a| <= |b|
    decreases |a|
  {
    if a != {} {
      var x :| x in a;
      Cardinality(a - {x}, b - {x});
    }
  }

  lemma QueryNotEarly(rows: seq<EventRow>, kinds: Kinds, job: Job, w: nat, name: SenderName, p: nat)
    requires job.clock.Some? && p <= |rows| && job.(seen := WithAnswers(rows, kinds, job, w)).Early(name, p)
    ensures job.Early(name, p)
  {
  }

  /** The part of `Tracked` that counting late tasks needs. */
  predicate Settled(c: Config, s: State) {
    && |s.jobs| <= c.concurrency
    && (forall t :: t in s.finished ==> t !in s.jobs && s.finished[t].index < |s.rows|)
  }

  lemma LateKept(c: Config, s: State, l: Label, s': State, name: SenderName, p: nat)
    requires Settled(c, s) && Enabled(c, s, l) && s' == Next(c, s, l) && p <= |s.rows|
    ensures |Late(s', name, p)| <= |Late(s, name, p)|
  {
    if l.Query? {
      var job := s.jobs[l.task];
      if job.(seen := WithAnswers(s.rows, c.kinds, job, l.window)).Early(name, p) {
        QueryNotEarly(s.rows, c.kinds, job, l.window, name, p);
      }
    }
    NoNewLate(s, s', name, p);
  }

  lemma NewRowFewLate(c: Config, s: State, l: Label, s': State, name: SenderName)
    requires Settled(c, s) && Settled(c, s') && Enabled(c, s, l) && s' == Next(c, s, l) && l.Publish?
    ensures |Late(s', name, |s'.rows|)| < c.concurrency
  {
    JobsWithinPermits(c, s, l, s');
    assert Late(s', name, |s'.rows|) <= s'.jobs.Keys;
    Cardinality(Late(s', name, |s'.rows|), s'.jobs.Keys);
  }

  /** Only publishing adds a `Sent` row. */
  lemma RowsGrow(c: Config, s: State, l: Label, s': State, p: nat)
    requires Enabled(c, s, l) && s' == Next(c, s, l) && 0 < p <= |s'.rows| && s'.rows[p - 1].event.Sent?
    ensures if p <= |s.rows| then s.rows[p - 1].event.Sent? else l.Publish? && p == |s'.rows|
  {
  }

  /** A row once published can only lose late tasks; a new `Sent` row starts below the permit count. */
  lemma FewLateStep(c: Config, s: State, l: Label, s': State)
    requires Settled(c, s) && Settled(c, s') && FewLate(c, s) && Enabled(c, s, l) && s' == Next(c, s, l)
    ensures FewLate(c, s')
  {
    forall p, name | 0 < p <= |s'.rows| && s'.rows[p - 1].event.Sent?
      ensures |Late(s', name, p)| < c.concurrency
    {
      RowsGrow(c, s, l, s', p);
      if p <= |s.rows| {
        LateKept(c, s, l, s', name, p);
      } else {
        NewRowFewLate(c, s, l, s', name);
      }
    }
  }

  lemma TrackedSettled(c: Config, s: State)
    requires Tracked(c, s)
    ensures Settled(c, s)
  {
    forall t | t in s.finished ensures s.finished[t].index < |s.rows| {
      assert FinishedOk(c, s, t);
    }
  }

  lemma {:induction false} RunTracked(c: Config, now: nat, states: seq<State>, labels: seq<Label>, i: nat)
    requires IsRun(c, now, states, labels) && i < |states|
    ensures Tracked(c, states[i]) && FewLate(c, states[i])
  {
    if i > 0 {
      RunTracked(c, now, states, labels, i - 1);
      var s, l := states[i - 1], labels[i - 1];
      if l.Publish? || l.OtherEvent? {
        TrackedLogStep(c, s, l, states[i]);
      } else {
        TrackedQuietStep(c, s, l, states[i]);
      }
      TrackedSettled(c, s);
      TrackedSettled(c, states[i]);
      FewLateStep(c, s, l, states[i]);
    }
  }

  // ---------------------------------------------------------------------------
  // The bound
  // ---------------------------------------------------------------------------

  predicate SentIn(row: EventRow, name: SenderName, from: nat, to: nat) {
    row.event.Sent? && row.event.via == name && from <= row.at <= to
  }

  /** `Sent` events of `name` stamped from `from` to `to`, both included. */
  function SentWithin(rows: seq<EventRow>, name: SenderName, from: nat, to: nat): nat {
    if rows == [] then 0
    else SentWithin(rows[..|rows| - 1], name, from, to) + if SentIn(rows[|rows| - 1], name, from, to) then 1 else 0
  }

  predicate BypassedAt(s: State, i: nat, r: Route, from: nat, to: nat)
    requires i < |s.rows|
  {
    && SentIn(s.rows[i], r.name, from, to)
    && i < |s.authors| && s.authors[i].Some? && s.authors[i].value in s.finished
    && !s.finished[s.authors[i].value].job.Checked(r)
  }

  /** Those among the first `n` rows whose task had no answer for the sender, or found every sender over quota. */
  function Bypassed(s: State, r: Route, from: nat, to: nat, n: nat): nat
    requires n <= |s.rows|
  {
    if n == 0 then 0 else Bypassed(s, r, from, to, n - 1) + if BypassedAt(s, n - 1, r, from, to) then 1 else 0
  }

  lemma {:induction false} WithinSince(
    rows: seq<EventRow>, p: nat, length: nat, name: SenderName, from: nat, to: nat, since: nat)
    requires p <= length <= |rows| && since <= from
    ensures SentWithin(rows[..p], name, from, to) <= SentSince(rows[..length], name, since)
    decreases length
  {
    if length > 0 {
      assert rows[..length][..length - 1] == rows[..length - 1];
      if p < length {
        WithinSince(rows, p, length - 1, name, from, to, since);
      } else {
        WithinSince(rows, p - 1, length - 1, name, from, to, since);
      }
    }
  }

  /** The row that brings the count to `q`. */
  lemma {:induction false} Reaching(rows: seq<EventRow>, name: SenderName, from: nat, to: nat, q: nat) returns (p: nat)
    requires 0 < q <= SentWithin(rows, name, from, to)
    ensures 0 < p <= |rows| && SentWithin(rows[..p], name, from, to) == q && rows[p - 1].event.Sent?
  {
    var init := rows[..|rows| - 1];
    if SentWithin(init, name, from, to) >= q {
      p := Reaching(init, name, from, to, q);
      assert init[..p] == rows[..p];
    } else {
      p := |rows|;
      assert rows[..p] == rows;
    }
  }

  /** The tasks behind the checked rows from `p` to `n`. */
  function Missed(s: State, name: SenderName, p: nat, n: nat): set<TaskId> {
    set t | t in s.finished && p <= s.finished[t].index < n && s.finished[t].job.Early(name, p)
  }

  /** The answer behind a finished task's lookup of `r`: its own events up to some row before the task's own. */
  predicate Honest(s: State, t: TaskId, r: Route)
    requires t in s.finished && r.quota.Some?
  {
    var f := s.finished[t];
    && f.index < |s.rows|
    && (r.name in f.job.seen ==>
          var v := f.job.seen[r.name];
          && f.job.clock.Some? && f.job.clock.value <= s.rows[f.index].at && v.length <= f.index
          && v.stats.sent == SentSince(s.rows[..v.length], r.name, r.quota.value.range.SinceMs(f.job.clock.value)))
  }

  /** What the bound needs to know about the log: every `Sent` row has its task, every task's answer is honest. */
  predicate Attributed(s: State, r: Route)
    requires r.quota.Some?
  {
    Authored(s) && forall t :: t in s.finished ==> Honest(s, t, r)
  }

  lemma AnswerBehind(c: Config, s: State, t: TaskId, r: Route)
    requires RouteNamesDistinct(c.routes) && r in c.routes && r.quota.Some? && c.kinds.sent == SENT_TYPE
    requires t in s.finished && FinishedOk(c, s, t)
    ensures Honest(s, t, r)
  {
    var f := s.finished[t];
    if r.name in f.job.seen {
      var v := f.job.seen[r.name];
      assert ViewOk(c, s.rows[..f.index], r.name, v, f.job.clock.value);
      var k :| 0 <= k < |c.routes| && c.routes[k].name == r.name && c.routes[k].quota.Some?
               && v.stats == Counted(s.rows[..f.index][..v.length], c.kinds, r.name,
                                     c.routes[k].quota.value.range.SinceMs(f.job.clock.value));
      var j :| 0 <= j < |c.routes| && c.routes[j] == r;
      assert j == k;
      assert s.rows[..f.index][..v.length] == s.rows[..v.length];
      SqliteTypesMatch(s.rows[..v.length], r.name, r.quota.value.range.SinceMs(f.job.clock.value));
    }
  }

  lemma TrackedAttributed(c: Config, s: State, r: Route)
    requires Tracked(c, s) && RouteNamesDistinct(c.routes) && r in c.routes && r.quota.Some?
    requires c.kinds.sent == SENT_TYPE
    ensures Attributed(s, r)
  {
    forall t | t in s.finished ensures Honest(s, t, r) {
      AnswerBehind(c, s, t, r);
    }
  }

  lemma CheckedWithin(job: Job, r: Route)
    requires job.Checked(r)
    ensures job.seen[r.name].stats.sent < r.quota.value.count
  {
  }

  /** A task that was within quota and published inside the window cannot have seen the quota reached in it. */
  lemma CheckedIsEarly(s: State, t: TaskId, r: Route, from: nat, p: nat)
    requires r.quota.Some? && t in s.finished && Honest(s, t, r) && p <= s.finished[t].index
    requires s.rows[s.finished[t].index].at <= from + r.quota.value.range.LengthMs()
    requires SentWithin(s.rows[..p], r.name, from, from + r.quota.value.range.LengthMs()) >= r.quota.value.count
    requires s.finished[t].job.Checked(r)
    ensures s.finished[t].job.Early(r.name, p)
  {
    var job := s.finished[t].job;
    CheckedWithin(job, r);
    var length := job.seen[r.name].length;
    if length >= p {
      var since := r.quota.value.range.SinceMs(job.clock.value);
      WithinSince(s.rows, p, length, r.name, from, from + r.quota.value.range.LengthMs(), since);
      assert false;
    }
  }

  lemma MissedGrows(s: State, name: SenderName, p: nat, n: nat)
    requires p < n
    ensures |Missed(s, name, p, n - 1)| <= |Missed(s, name, p, n)|
    ensures forall t :: t in s.finished && s.finished[t].index == n - 1 && s.finished[t].job.Early(name, p) ==>
      |Missed(s, name, p, n - 1)| + 1 <= |Missed(s, name, p, n)|
  {
    var fewer, more := Missed(s, name, p, n - 1), Missed(s, name, p, n);
    Cardinality(fewer, more);
    forall t | t in s.finished && s.finished[t].index == n - 1 && s.finished[t].job.Early(name, p)
      ensures |fewer| + 1 <= |more|
    {
      Cardinality(fewer + {t}, more);
    }
  }

  lemma EarlyOrBypassed(s: State, r: Route, from: nat, to: nat, p: nat, i: nat) returns (t: TaskId)
    requires r.quota.Some? && Attributed(s, r) && p <= i < |s.rows|
    requires to == from + r.quota.value.range.LengthMs() && SentIn(s.rows[i], r.name, from, to)
    requires SentWithin(s.rows[..p], r.name, from, to) >= r.quota.value.count
    ensures t in s.finished && s.finished[t].index == i
    ensures BypassedAt(s, i, r, from, to) || s.finished[t].job.Early(r.name, p)
  {
    t := s.authors[i].value;
    if s.finished[t].job.Checked(r) {
      CheckedIsEarly(s, t, r, from, p);
    }
  }

  /** A further row of the window is that of one more task that missed the quota, or it bypassed the check. */
  lemma RowAdds(s: State, r: Route, from: nat, to: nat, p: nat, n: nat)
    requires r.quota.Some? && Attributed(s, r) && p < n <= |s.rows|
    requires to == from + r.quota.value.range.LengthMs()
    requires SentWithin(s.rows[..p], r.name, from, to) >= r.quota.value.count
    ensures |Missed(s, r.name, p, n - 1)| + (if SentIn(s.rows[n - 1], r.name, from, to) then 1 else 0)
         <= |Missed(s, r.name, p, n)| + (if BypassedAt(s, n - 1, r, from, to) then 1 else 0)
  {
    MissedGrows(s, r.name, p, n);
    if SentIn(s.rows[n - 1], r.name, from, to) {
      var t := EarlyOrBypassed(s, r, from, to, p, n - 1);
    }
  }

  lemma {:induction false} BeyondQuota(s: State, r: Route, from: nat, to: nat, p: nat, n: nat)
    requires r.quota.Some? && Attributed(s, r) && p <= n <= |s.rows|
    requires to == from + r.quota.value.range.LengthMs()
    requires SentWithin(s.rows[..p], r.name, from, to) == r.quota.value.count
    ensures SentWithin(s.rows[..n], r.name, from, to)
         <= r.quota.value.count + |Missed(s, r.name, p, n)| + Bypassed(s, r, from, to, n)
    decreases n
  {
    if n > p {
      BeyondQuota(s, r, from, to, p, n - 1);
      assert s.rows[..n][..n - 1] == s.rows[..n - 1];
      RowAdds(s, r, from, to, p, n);
    }
  }

  /** Under a quota of zero nobody passes the check, whatever the query counts. */
  lemma {:induction false} AllBypassed(s: State, r: Route, from: nat, to: nat, n: nat)
    requires Authored(s) && r.quota.Some? && r.quota.value.count == 0 && n <= |s.rows|
    ensures SentWithin(s.rows[..n], r.name, from, to) <= Bypassed(s, r, from, to, n)
  {
    if n > 0 {
      AllBypassed(s, r, from, to, n - 1);
      assert s.rows[..n][..n - 1] == s.rows[..n - 1];
    }
  }

  /** `Sent` events a window may hold beside those that bypassed the check. */
  function Bound(c: Config, q: Quota): nat {
    if q.count == 0 then 0 else q.count + c.concurrency - 1
  }

  predicate WithinBound(c: Config, s: State, r: Route, from: nat)
    requires r.quota.Some?
  {
    var to := from + r.quota.value.range.LengthMs();
    SentWithin(s.rows, r.name, from, to) <= Bound(c, r.quota.value) + Bypassed(s, r, from, to, |s.rows|)
  }

  /**
   * If the query looks for the type under which `Sent` is stored, then in every run and every interval of the
   * quota's length a sender has at most `quota + concurrency - 1` `Sent` events beside those that bypassed the
   * check; a zero quota admits only the latter, whatever the query looks for.
   */
  lemma Overshoot(c: Config, now: nat, states: seq<State>, labels: seq<Label>, i: nat, r: Route, from: nat)
    requires c.Valid() && IsRun(c, now, states, labels) && i < |states| && r in c.routes && r.quota.Some?
    requires c.kinds.sent == SENT_TYPE || r.quota.value.count == 0
    ensures WithinBound(c, states[i], r, from)
  {
    RunTracked(c, now, states, labels, i);
    var s, q := states[i], r.quota.value;
    var to := from + q.range.LengthMs();
    assert s.rows[..|s.rows|] == s.rows;
    if q.count == 0 {
      AllBypassed(s, r, from, to, |s.rows|);
    } else if SentWithin(s.rows, r.name, from, to) >= q.count {
      var p := Reaching(s.rows, r.name, from, to, q.count);
      TrackedAttributed(c, s, r);
      BeyondQuota(s, r, from, to, p, |s.rows|);
      assert Missed(s, r.name, p, |s.rows|) <= Late(s, r.name, p);
      Cardinality(Missed(s, r.name, p, |s.rows|), Late(s, r.name, p));
    }
  }
}
