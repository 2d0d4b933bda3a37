/** Status by latest event: the two queries of the email repository that rest on it. */
module EmailStatus {
  import opened Core
  import opened WorkerTask

  /** A row of `lifecycle_events`; ids are unique and, being time-ordered UUIDs, numbers to compare. */
  datatype LifecycleRow = LifecycleRow(id: nat, event: Event, createdAt: nat)

  datatype Status = InProgress | Succeeded | GivenUp

  datatype BlobRef = BlobRef(backend: string, key: Key)

  /** `ORDER BY created_at DESC, id DESC`. */
  predicate Newer(a: LifecycleRow, b: LifecycleRow) {
    a.createdAt > b.createdAt || (a.createdAt == b.createdAt && a.id > b.id)
  }

  predicate UniqueIds(rows: seq<LifecycleRow>) {
    forall i, j :: 0 <= i < j < |rows| ==> rows[i].id != rows[j].id
  }

  function Latest(rows: seq<LifecycleRow>, m: EmailId): Option<LifecycleRow> {
    if rows == [] then None
    else
      var last, best := rows[|rows| - 1], Latest(rows[..|rows| - 1], m);
      if last.event.id == m && (best.None? || Newer(last, best.value)) then Some(last) else best
  }

  predicate IsLatest(rows: seq<LifecycleRow>, m: EmailId, r: LifecycleRow) {
    r in rows && r.event.id == m && forall x :: x in rows && x.event.id == m && x != r ==> Newer(r, x)
  }

  lemma {:induction false} LatestIs(rows: seq<LifecycleRow>, m: EmailId)
    requires UniqueIds(rows)
    ensures Latest(rows, m).Some? ==> IsLatest(rows, m, Latest(rows, m).value)
    ensures Latest(rows, m).None? ==> forall x :: x in rows ==> x.event.id != m
  {
    if rows != [] {
      var init, last := rows[..|rows| - 1], rows[|rows| - 1];
      LatestIs(init, m);
      assert rows == init + [last];
      forall x | x in init ensures x.id != last.id {
        var i :| 0 <= i < |init| && init[i] == x;
        assert rows[i] == x;
      }
    }
  }

  /** The order in which the table hands out its rows does not matter. */
  lemma LatestUnique(rows: seq<LifecycleRow>, m: EmailId, r: LifecycleRow)
    requires UniqueIds(rows)
    ensures Latest(rows, m) == Some(r) <==> IsLatest(rows, m, r)
  {
    LatestIs(rows, m);
  }

  function OutcomeOf(e: Event): Status {
    if e.Sent? then Succeeded else if e.Failed? then GivenUp else InProgress
  }

  /** No event at all reads as queued. */
  function StatusOf(rows: seq<LifecycleRow>, m: EmailId): Status {
    match Latest(rows, m)
    case None => InProgress
    case Some(r) => OutcomeOf(r.event)
  }

  /** Every reference held by an email whose latest event is not terminal. */
  ghost predicate IsLive(emails: map<EmailId, seq<BlobRef>>, rows: seq<LifecycleRow>, b: BlobRef) {
    exists m :: m in emails && StatusOf(rows, m).InProgress? && b in emails[m]
  }

  method ListAllAttachmentBlobs(emails: map<EmailId, seq<BlobRef>>, rows: seq<LifecycleRow>)
    returns (blobs: seq<BlobRef>)
    ensures forall b :: b in blobs <==> IsLive(emails, rows, b)
  {
    blobs := [];
    var left := emails.Keys;
    while left != {}
      invariant left <= emails.Keys
      invariant forall b :: b in blobs <==>
        exists m :: m in emails.Keys - left && StatusOf(rows, m).InProgress? && b in emails[m]
      decreases |left|
    {
      var m :| m in left;
      ghost var before := blobs;
      if StatusOf(rows, m).InProgress? {
        blobs := blobs + emails[m];
      }
      forall b ensures b in blobs <==>
        exists n :: n in emails.Keys - (left - {m}) && StatusOf(rows, n).InProgress? && b in emails[n]
      {
        if b in before {
          var n :| n in emails.Keys - left && StatusOf(rows, n).InProgress? && b in emails[n];
          assert n in emails.Keys - (left - {m});
        } else if b in blobs {
          assert m in emails.Keys - (left - {m});
        }
      }
      left := left - {m};
    }
  }

  /** The set the sweeper builds: keys of this backend only. */
  method LiveKeys(blobs: seq<BlobRef>, backend: string) returns (live: set<Key>)
    ensures forall k :: k in live <==> BlobRef(backend, k) in blobs
  {
    live := {};
    for i := 0 to |blobs|
      invariant forall k :: k in live <==> BlobRef(backend, k) in blobs[..i]
    {
      assert blobs[..i + 1] == blobs[..i] + [blobs[i]];
      if blobs[i].backend == backend {
        live := live + {blobs[i].key};
      }
    }
    assert blobs[..|blobs|] == blobs;
  }
}

/** The pipeline's events as table rows: what the latest one says about an email, over whole runs. */
module StatusOverRuns {
  import opened Core
  import opened WorkerTask
  import opened Pipeline
  import opened Delivery
  import opened EmailStatus

  /** The rows of the published events, ids increasing as they are inserted. */
  predicate Represents(rows: seq<LifecycleRow>, events: seq<Logged>) {
    && |rows| == |events|
    && (forall i :: 0 <= i < |rows| ==> rows[i].event == events[i].event && rows[i].createdAt == events[i].at)
    && (forall i, j :: 0 <= i < j < |rows| ==> rows[i].id < rows[j].id)
  }

  predicate InOrder(s: State) {
    && (forall i :: 0 <= i < |s.db.events| ==> s.db.events[i].at <= s.now)
    && (forall i, j :: 0 <= i < j < |s.db.events| ==> s.db.events[i].at <= s.db.events[j].at)
  }

  /** A step stores at most one event, stamped with the present. */
  lemma EventsGrow(c: Config, s: State, l: Label, s': State)
    requires Enabled(c, s, l) && s' == Next(c, s, l)
    ensures s.now <= s'.now && |s.db.events| <= |s'.db.events| <= |s.db.events| + 1
    ensures forall i :: 0 <= i < |s.db.events| ==> s'.db.events[i] == s.db.events[i]
    ensures |s'.db.events| > |s.db.events| ==> s'.db.events[|s.db.events|].at == s.now
  {
  }

  lemma InOrderStep(c: Config, s: State, l: Label, s': State)
    requires InOrder(s) && Enabled(c, s, l) && s' == Next(c, s, l)
    ensures InOrder(s')
  {
    EventsGrow(c, s, l, s');
  }

  lemma {:induction false} EventsInOrder(c: Config, states: seq<State>, labels: seq<Label>, i: nat)
    requires IsRun(c, states, labels) && i < |states|
    ensures InOrder(states[i])
  {
    if i > 0 {
      EventsInOrder(c, states, labels, i - 1);
      InOrderStep(c, states[i - 1], labels[i - 1], states[i]);
    }
  }

  /** The last event published about an email is the latest row about it. */
  lemma LastIsLatest(s: State, rows: seq<LifecycleRow>, m: EmailId, i: nat)
    requires Represents(rows, s.db.events) && InOrder(s)
    requires i < |rows| && rows[i].event.id == m
    requires forall j :: i < j < |rows| ==> rows[j].event.id != m
    ensures Latest(rows, m) == Some(rows[i])
  {
    forall x | x in rows && x.event.id == m && x != rows[i] ensures Newer(rows[i], x) {
      var j :| 0 <= j < |rows| && rows[j] == x;
      assert j < i;
    }
    LatestUnique(rows, m, rows[i]);
  }

  lemma {:induction false} LastAbout(rows: seq<LifecycleRow>, m: EmailId, i: nat) returns (j: nat)
    requires i < |rows| && rows[i].event.id == m
    ensures i <= j < |rows| && rows[j].event.id == m && forall x :: j < x < |rows| ==> rows[x].event.id != m
    decreases |rows| - i
  {
    if y :| i < y < |rows| && rows[y].event.id == m {
      j := LastAbout(rows, m, y);
    } else {
      j := i;
    }
  }

  /** After event `i` its email's `Queued` notice was stored, or a retry notice whose delay had already run out. */
  predicate Overtaken(events: seq<Logged>, i: nat)
    requires i < |events|
  {
    exists j :: i < j < |events| && events[j].event.id == events[i].event.id
                && (events[j].event.Queued? || LateRetry(events[j]))
  }

  /**
   * In a timely run, once a terminal event is stored the status shows that outcome for ever, exactly unless the
   * submission's own `Queued` notice or a late retry notice was stored after it.
   */
  lemma StatusShowsOutcome(
    c: Config, states: seq<State>, labels: seq<Label>, k: nat, rows: seq<LifecycleRow>, i: nat)
    requires TimelyRun(c, states, labels) && k < |states|
    requires Represents(rows, states[k].db.events) && i < |rows| && rows[i].event.IsTerminal()
    ensures StatusOf(rows, rows[i].event.id) == OutcomeOf(rows[i].event) <==> !Overtaken(states[k].db.events, i)
  {
    var m := rows[i].event.id;
    EventsInOrder(c, states, labels, k);
    var j := LastAbout(rows, m, i);
    LastIsLatest(states[k], rows, m, j);
    if j > i {
      OneOutcome(c, states, labels, k, i, j);
    }
  }

  /** With prompt retry notices only the `Queued` notice can do that. */
  lemma PromptlyOvertaken(c: Config, states: seq<State>, labels: seq<Label>, k: nat, i: nat)
    requires TimelyRun(c, states, labels) && k < |states| && forall x :: 0 <= x < |states| ==> RetriesPrompt(states[x])
    requires i < |states[k].db.events| && states[k].db.events[i].event.IsTerminal()
    ensures Overtaken(states[k].db.events, i) <==>
      exists j :: i < j < |states[k].db.events|
                  && states[k].db.events[j].event == Queued(states[k].db.events[i].event.id)
  {
    var events := states[k].db.events;
    if j :| i < j < |events| && events[j].event.id == events[i].event.id
            && (events[j].event.Queued? || LateRetry(events[j]))
    {
      LastWord(c, states, labels, k, i, j);
    }
    if j :| i < j < |events| && events[j].event == Queued(events[i].event.id) {
      assert events[j].event.Queued?;
    }
  }

  /** The sweeper's query answers with a snapshot the pipeline allows, for every order of equal timestamps. */
  lemma LiveIsSnapshot(
    s: State, rows: seq<LifecycleRow>, emails: map<EmailId, seq<BlobRef>>, backend: string, live: set<Key>)
    requires |rows| == |s.db.events| && UniqueIds(rows)
    requires forall i :: 0 <= i < |rows| ==>
      rows[i].event == s.db.events[i].event && rows[i].createdAt == s.db.events[i].at
    requires emails.Keys == s.db.emails.Keys
    requires forall m, k :: m in s.db.emails && k in s.db.emails[m] ==> BlobRef(backend, k) in emails[m]
    requires forall k :: k in live <==> IsLive(emails, rows, BlobRef(backend, k))
    ensures IsSnapshot(s, live)
  {
    forall m, k | m in s.db.emails && k in s.db.emails[m] && k !in live ensures HasTerminal(s.db.events, m) {
      LatestIs(rows, m);
      assert BlobRef(backend, k) in emails[m];
      assert !StatusOf(rows, m).InProgress?;
      var r := Latest(rows, m).value;
      var i :| 0 <= i < |rows| && rows[i] == r;
      assert s.db.events[i].event.IsTerminal();
    }
  }
}
