/** What every reachable state of the pipeline keeps, whatever the timing, crashes and failures. */
module PipelineInvariant {
  import opened Core
  import opened WorkerTask
  import opened Pipeline

  // ---------------------------------------------------------------------------
  // Who refers to whom
  // ---------------------------------------------------------------------------

  predicate Owns(s: State, m: EmailId, k: Key) {
    k in s.ids.keys && s.ids.keys[k].owner == m
  }

  predicate OwnsAll(s: State, m: EmailId, ks: seq<Key>) {
    forall k :: k in ks ==> Owns(s, m, k)
  }

  predicate SubmitOk(s: State, m: EmailId)
    requires m in s.submits
  {
    var u := s.submits[m];
    && m in s.ids.known
    && OwnsAll(s, m, u.written)
    && (u.pc.Undoing? ==> OwnsAll(s, m, u.pc.todo))
    && (u.pc.Announcing? <==> m in s.ids.entryOf)
    && (u.Ongoing() ==> m in s.db.emails)
    && (u.pc.Storing? ==> |u.written| < u.total)
    && (u.pc.Enqueueing? ==> s.db.emails[m] == u.written)
  }

  predicate TaskOk(s: State, t: TaskId)
    requires t in s.tasks
  {
    var task := s.tasks[t];
    && t < s.ids.nextTask
    && task.email in s.ids.entryOf && s.ids.entryOf[task.email] == task.entry
    && OwnsAll(s, task.email, task.refs)
    && (task.Settled() ==> task.entry !in s.db.rows)
    && (task.pc.DeletingBlobs? ==> task.pc.next < |task.refs|)
    && (task.pc.Publishing? ==> task.pc.event.id == task.email && !task.pc.event.Queued? && !task.pc.event.Sending?)
  }

  predicate RowOk(s: State, e: EntryId)
    requires e in s.db.rows
  {
    var m := s.db.rows[e].email;
    m in s.ids.entryOf && s.ids.entryOf[m] == e && m in s.db.emails
  }

  predicate Links(s: State) {
    && (forall m :: m in s.submits ==> SubmitOk(s, m))
    && (forall t :: t in s.tasks ==> TaskOk(s, t))
    && (forall e :: e in s.db.rows ==> RowOk(s, e))
    && (forall m :: m in s.db.emails ==> m in s.ids.known && OwnsAll(s, m, s.db.emails[m]))
    && (forall m :: m in s.ids.entryOf ==> m in s.ids.known)
    && (forall k :: k in s.ids.keys ==> s.ids.keys[k].owner in s.ids.known && s.ids.keys[k].at <= s.now)
    && (forall k :: k in s.db.blobs ==> k in s.ids.keys && s.db.blobs[k] == s.ids.keys[k].at)
    && (forall m, n :: m in s.ids.entryOf && n in s.ids.entryOf && s.ids.entryOf[m] == s.ids.entryOf[n] ==> m == n)
  }

  /** A terminal event is published only after its email's entry has left the queue for good. */
  predicate TerminalMeansGone(s: State) {
    forall i :: 0 <= i < |s.db.events| && s.db.events[i].event.IsTerminal() ==>
      var m := s.db.events[i].event.id;
      m in s.ids.entryOf && s.ids.entryOf[m] !in s.db.rows
  }

  predicate Invariant(s: State) {
    Links(s) && TerminalMeansGone(s)
  }

  // ---------------------------------------------------------------------------
  // Preservation
  // ---------------------------------------------------------------------------

  /** A task's call never adds a queue entry, an email row or a blob. */
  predicate Shrunk(db: Db, db': Db) {
    && db'.rows.Keys <= db.rows.Keys
    && (forall e :: e in db'.rows ==> db'.rows[e].email == db.rows[e].email)
    && db'.emails.Keys == db.emails.Keys
    && (forall m :: m in db.emails ==> db'.emails[m] == db.emails[m] || db'.emails[m] == [])
    && (forall k :: k in db'.blobs ==> k in db.blobs && db'.blobs[k] == db.blobs[k])
  }

  lemma CallShrinks(db: Db, t: Task, call: Call, now: nat)
    ensures Shrunk(db, CallDb(db, t, call, now))
  {
  }

  /** The email row of a submission that is still on its way is out of every task's reach. */
  lemma CallSparesSubmits(s: State, t: TaskId, call: Call)
    requires Links(s) && t in s.tasks && Awaits(s.tasks[t], call)
    ensures forall m :: m in s.submits && s.submits[m].Ongoing() ==>
      m in s.db.emails && DoCall(s, t, call).db.emails[m] == s.db.emails[m]
  {
  }

  lemma TaskCallKeepsTask(s: State, t: TaskId, call: Call)
    requires Links(s) && t in s.tasks && Awaits(s.tasks[t], call)
    requires t in DoCall(s, t, call).tasks
    ensures TaskOk(DoCall(s, t, call), t)
  {
    var s' := DoCall(s, t, call);
    var task, task' := s.tasks[t], s'.tasks[t];
    CallShrinks(s.db, task, call, s.now);
    assert TaskOk(s, t);
    assert task' == task.(pc := task'.pc, resolvedAt := task'.resolvedAt);
    assert task'.Settled() ==> task'.entry !in s'.db.rows;
  }

  lemma LinksCall(s: State, t: TaskId, call: Call)
    requires Links(s) && t in s.tasks && Awaits(s.tasks[t], call)
    ensures Links(DoCall(s, t, call))
  {
    var s' := DoCall(s, t, call);
    CallShrinks(s.db, s.tasks[t], call, s.now);
    CallSparesSubmits(s, t, call);
    forall m | m in s'.submits ensures SubmitOk(s', m) {
      assert SubmitOk(s, m);
    }
    forall u | u in s'.tasks ensures TaskOk(s', u) {
      if u == t {
        TaskCallKeepsTask(s, t, call);
      } else {
        assert TaskOk(s, u);
      }
    }
    forall e | e in s'.db.rows ensures RowOk(s', e) {
      assert RowOk(s, e);
    }
  }

  lemma LinksClaim(s: State, e: EntryId, handedOut: bool)
    requires Links(s) && e in s.db.rows && s.db.rows[e].email in s.db.emails
    ensures Links(DoClaim(s, e, handedOut))
  {
  }

  lemma LinksSave(s: State, m: EmailId, n: nat)
    requires Links(s) && m !in s.ids.known
    ensures Links(DoSave(s, m, n))
  {
  }

  lemma LinksPut(s: State, m: EmailId, k: Key)
    requires Links(s) && InPc(s, m, Storing) && k !in s.ids.keys
    ensures Links(DoPut(s, m, k))
  {
    assert SubmitOk(s, m);
  }

  lemma LinksLookup(s: State, t: TaskId)
    requires Links(s) && t in s.tasks && s.tasks[t].pc.Starting? && s.tasks[t].email in s.db.emails
    ensures Links(DoLookup(s, t))
  {
    assert TaskOk(s, t);
  }

  lemma LinksRollback(s: State, m: EmailId)
    requires Links(s) && m in s.submits && s.submits[m].Ongoing()
    ensures Links(DoRollback(s, m))
  {
  }

  /** A fresh blob that nobody lists breaks no link. */
  lemma LinksStray(s: State, m: EmailId, k: Key, s': State)
    requires Links(s) && m in s.ids.known && k !in s.ids.keys
    requires s' == s.(db := s.db.(blobs := s.db.blobs[k := s.now]),
                      ids := s.ids.(keys := s.ids.keys[k := KeyInfo(m, s.now)]))
    ensures Links(s')
  {
    forall n | n in s'.submits ensures SubmitOk(s', n) {
      assert SubmitOk(s, n);
    }
    forall t | t in s'.tasks ensures TaskOk(s', t) {
      assert TaskOk(s, t);
    }
  }

  lemma LinksPutLost(s: State, m: EmailId, k: Key)
    requires Links(s) && InPc(s, m, Storing) && k !in s.ids.keys
    ensures Links(DoPutLost(s, m, k))
  {
    assert SubmitOk(s, m);
    LinksRollback(s, m);
    LinksStray(DoRollback(s, m), m, k, DoPutLost(s, m, k));
  }

  lemma LinksSetRefs(s: State, m: EmailId)
    requires Links(s) && InPc(s, m, Referencing)
    ensures Links(DoSetRefs(s, m))
  {
  }

  /** A new entry under a fresh id goes to one email only. */
  lemma EntriesApart(entryOf: map<EmailId, EntryId>, m: EmailId, e: EntryId)
    requires forall a, b :: a in entryOf && b in entryOf && entryOf[a] == entryOf[b] ==> a == b
    requires e !in entryOf.Values
    ensures var more := entryOf[m := e];
      forall a, b :: a in more && b in more && more[a] == more[b] ==> a == b
  {
  }

  lemma LinksEnqueue(s: State, m: EmailId, e: EntryId)
    requires Links(s) && InPc(s, m, Enqueueing) && e !in s.ids.entryOf.Values
    ensures Links(DoEnqueue(s, m, e))
  {
    assert SubmitOk(s, m);
    EntriesApart(s.ids.entryOf, m, e);
    var s' := DoEnqueue(s, m, e);
    forall n | n in s'.submits ensures SubmitOk(s', n) {
      assert n != m ==> SubmitOk(s, n);
    }
    forall t | t in s'.tasks ensures TaskOk(s', t) {
      assert TaskOk(s, t);
    }
    forall f | f in s'.db.rows ensures RowOk(s', f) {
      assert f != e ==> RowOk(s, f);
    }
  }

  lemma LinksUndoBlob(s: State, m: EmailId, ok: bool)
    requires Links(s) && m in s.submits && s.submits[m].pc.Undoing? && s.submits[m].pc.todo != []
    ensures Links(DoUndoBlob(s, m, ok))
  {
    var s' := DoUndoBlob(s, m, ok);
    var todo := s.submits[m].pc.todo;
    assert SubmitOk(s, m) && forall k :: k in todo[1..] ==> k in todo;
    forall n | n in s'.submits ensures SubmitOk(s', n) {
      assert SubmitOk(s, n);
    }
    forall t | t in s'.tasks ensures TaskOk(s', t) {
      assert TaskOk(s, t);
    }
  }

  lemma LinksUndoRow(s: State, m: EmailId, ok: bool)
    requires Links(s) && InPc(s, m, Undoing([]))
    ensures Links(DoUndoRow(s, m, ok))
  {
  }

  lemma LinksSubmit(c: Config, s: State, l: Label, s': State)
    requires Links(s) && Enabled(c, s, l) && s' == Next(c, s, l)
    requires l.Save? || l.Put? || l.PutLost? || l.StoreFails? || l.SetRefs? || l.Enqueue? || l.UndoBlob? || l.UndoRow?
    ensures Links(s')
  {
    match l
    case Save(m, n) => LinksSave(s, m, n);
    case Put(m, k) => LinksPut(s, m, k);
    case PutLost(m, k) => LinksPutLost(s, m, k);
    case StoreFails(m) => LinksRollback(s, m);
    case SetRefs(m, ok) =>
      if ok && m in s.db.emails { LinksSetRefs(s, m); } else { LinksRollback(s, m); }
    case Enqueue(m, e, ok) =>
      if ok { LinksEnqueue(s, m, e); } else { LinksRollback(s, m); }
    case UndoBlob(m, ok) => LinksUndoBlob(s, m, ok);
    case UndoRow(m, ok) => LinksUndoRow(s, m, ok);
  }

  /** Time passing, entries or processes disappearing and blobs being deleted break no link. */
  lemma LinksFrame(s: State, s': State)
    requires Links(s) && s'.ids == s.ids && s.now <= s'.now
    requires s'.tasks.Keys <= s.tasks.Keys && forall t :: t in s'.tasks ==> s'.tasks[t] == s.tasks[t]
    requires s'.submits.Keys <= s.submits.Keys && forall m :: m in s'.submits ==> s'.submits[m] == s.submits[m]
    requires Shrunk(s.db, s'.db) && s'.db.emails == s.db.emails
    ensures Links(s')
  {
    forall m | m in s'.submits ensures SubmitOk(s', m) {
      assert SubmitOk(s, m);
    }
    forall t | t in s'.tasks ensures TaskOk(s', t) {
      assert TaskOk(s, t);
    }
    forall e | e in s'.db.rows ensures RowOk(s', e) {
      assert RowOk(s, e);
    }
  }

  lemma LinksStep(c: Config, s: State, l: Label, s': State)
    requires Links(s) && Enabled(c, s, l) && s' == Next(c, s, l)
    ensures Links(s')
  {
    if l.Save? || l.Put? || l.PutLost? || l.StoreFails? || l.SetRefs? || l.Enqueue? || l.UndoBlob? || l.UndoRow? {
      LinksSubmit(c, s, l, s');
    } else if l.Claim? {
      LinksClaim(s, l.entry, l.handedOut);
    } else if l.Lookup? {
      LinksLookup(s, l.task);
    } else if l.TaskCall? {
      LinksCall(s, l.task, l.call);
    } else {
      LinksFrame(s, s');
    }
  }

  /** Outside the worker's calls at most a `Queued` notice is stored, and no task is settled that was not. */
  lemma EventFacts(c: Config, s: State, l: Label, s': State)
    requires Enabled(c, s, l) && s' == Next(c, s, l) && !l.TaskCall?
    ensures s'.db.events == s.db.events || exists m, n :: s'.db.events == s.db.events + [Logged(Queued(m), n, n)]
    ensures forall t :: t in s'.tasks && s'.tasks[t].Settled() ==> t in s.tasks && s'.tasks[t] == s.tasks[t]
  {
    if l.Announce? && l.ok {
      assert s'.db.events == s.db.events + [Logged(Queued(l.m), s.now, s.now)];
    }
  }

  /** Steps that neither call for a task nor claim, remove or add an entry. */
  predicate Quiet(l: Label) {
    !l.TaskCall? && !l.Claim? && !l.Orphan? && !(l.Enqueue? && l.ok)
  }

  lemma QuietFacts(c: Config, s: State, l: Label, s': State)
    requires Enabled(c, s, l) && s' == Next(c, s, l) && Quiet(l)
    ensures s.now <= s'.now && s'.past == s.past && s'.ids.entryOf == s.ids.entryOf && s'.db.rows == s.db.rows
    ensures s'.tasks.Keys <= s.tasks.Keys
    ensures forall t :: t in s'.tasks ==> s'.tasks[t] == s.tasks[t].(refs := s'.tasks[t].refs)
  {
  }

  lemma TerminalCall(s: State, t: TaskId, call: Call)
    requires Invariant(s) && t in s.tasks && Awaits(s.tasks[t], call)
    ensures TerminalMeansGone(DoCall(s, t, call))
  {
  }

  lemma TerminalStep(c: Config, s: State, l: Label, s': State)
    requires Invariant(s) && Enabled(c, s, l) && s' == Next(c, s, l)
    ensures TerminalMeansGone(s')
  {
    match l
    case TaskCall(t, call) => TerminalCall(s, t, call);
    case Enqueue(m, e, ok) => assert SubmitOk(s, m);
    case Announce(m, ok) =>
    case _ =>
      assert s'.db.events == s.db.events;
  }

  lemma ClockStep(c: Config, s: State, l: Label)
    requires Enabled(c, s, l)
    ensures Next(c, s, l).now >= s.now
  {
  }

  lemma InvariantStep(c: Config, s: State, l: Label, s': State)
    requires Invariant(s) && Enabled(c, s, l) && s' == Next(c, s, l)
    ensures Invariant(s') && s'.now >= s.now
  {
    LinksStep(c, s, l, s');
    TerminalStep(c, s, l, s');
    ClockStep(c, s, l);
  }

  lemma {:induction false} Reachable(c: Config, states: seq<State>, labels: seq<Label>, i: nat)
    requires IsRun(c, states, labels) && i < |states|
    ensures Invariant(states[i]) && states[i].now >= c.bootMs
  {
    if i > 0 {
      Reachable(c, states, labels, i - 1);
      InvariantStep(c, states[i - 1], labels[i - 1], states[i]);
    }
  }
}
