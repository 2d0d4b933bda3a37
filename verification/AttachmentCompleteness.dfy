/** Whether a delivery carries every attachment its email was submitted with, and exactly when it may not. */
module AttachmentCompleteness {
  import opened Core
  import opened LeaseTable
  import opened WorkerTask
  import opened Pipeline
  import opened PipelineInvariant
  import opened AttachmentSafety
  import opened Delivery
  import opened DeliveryLimits

  /** `ks` holds every blob that was stored for `m`. */
  ghost predicate HoldsAll(s: State, m: EmailId, ks: seq<Key>) {
    forall k :: Owns(s, m, k) ==> k in ks
  }

  /** Whoever is about to deliver an email has all its attachments, and no others. */
  ghost predicate Complete(s: State) {
    forall t :: t in s.tasks && s.tasks[t].pc.Executing? ==>
      HoldsAll(s, s.tasks[t].email, s.tasks[t].refs) && OwnsAll(s, s.tasks[t].email, s.tasks[t].refs)
  }

  /** What was stored for a submission that may still succeed is in its list, and so it is for a queued email. */
  ghost predicate Whole(s: State) {
    && (forall m :: m in s.submits && s.submits[m].Ongoing() ==> HoldsAll(s, m, s.submits[m].written))
    && (forall m :: InQueue(s, m) ==> m in s.db.emails && HoldsAll(s, m, s.db.emails[m]))
  }

  // ---------------------------------------------------------------------------
  // What every run keeps
  // ---------------------------------------------------------------------------

  lemma WholePut(s: State, m: EmailId, k: Key)
    requires Links(s) && Whole(s) && InPc(s, m, Storing) && k !in s.ids.keys
    ensures Whole(DoPut(s, m, k))
  {
    assert SubmitOk(s, m);
  }

  lemma WholePutLost(s: State, m: EmailId, k: Key)
    requires Links(s) && Whole(s) && InPc(s, m, Storing) && k !in s.ids.keys
    ensures Whole(DoPutLost(s, m, k))
  {
    assert SubmitOk(s, m);
  }

  lemma WholeEnqueue(s: State, m: EmailId, e: EntryId)
    requires Links(s) && Whole(s) && InPc(s, m, Enqueueing) && e !in s.ids.entryOf.Values
    ensures Whole(DoEnqueue(s, m, e))
  {
    assert SubmitOk(s, m);
  }

  lemma WholeSetRefs(s: State, m: EmailId)
    requires Links(s) && Whole(s) && InPc(s, m, Referencing)
    ensures Whole(DoSetRefs(s, m))
  {
    assert SubmitOk(s, m);
  }

  lemma WholeSave(s: State, m: EmailId, n: nat)
    requires Links(s) && Whole(s) && m !in s.ids.known
    ensures Whole(DoSave(s, m, n))
  {
  }

  /** Steps that store nothing, enqueue nothing and leave the rows of queued emails alone. */
  lemma WholeFrame(s: State, s': State)
    requires Whole(s) && s'.ids.keys == s.ids.keys && s'.ids.entryOf == s.ids.entryOf
    requires forall m :: m in s'.submits && s'.submits[m].Ongoing() ==> m in s.submits && s'.submits[m] == s.submits[m]
    requires s'.db.rows.Keys <= s.db.rows.Keys
    requires forall m :: InQueue(s', m) && m in s.db.emails ==> m in s'.db.emails && s'.db.emails[m] == s.db.emails[m]
    ensures Whole(s')
  {
  }

  lemma WholeCall(s: State, t: TaskId, call: Call)
    requires Links(s) && Whole(s) && t in s.tasks && Awaits(s.tasks[t], call)
    ensures Whole(DoCall(s, t, call))
  {
    var s' := DoCall(s, t, call);
    assert TaskOk(s, t);
    forall m | InQueue(s', m) && m in s.db.emails ensures m in s'.db.emails && s'.db.emails[m] == s.db.emails[m] {
      assert m == s.tasks[t].email ==> s.ids.entryOf[m] == s.tasks[t].entry;
    }
    WholeFrame(s, s');
  }

  lemma WholeOther(c: Config, s: State, l: Label, s': State)
    requires Links(s) && Whole(s) && Enabled(c, s, l) && s' == Next(c, s, l)
    requires !l.Save? && !l.Put? && !l.PutLost? && !(l.SetRefs? && l.ok) && !(l.Enqueue? && l.ok) && !l.TaskCall?
    ensures Whole(s')
  {
    forall m | InQueue(s', m) && m in s.db.emails ensures m in s'.db.emails && s'.db.emails[m] == s.db.emails[m] {
      assert m in s.submits ==> SubmitOk(s, m);
      assert m in s.ids.entryOf;
      AcceptedRowSpared(c, s, l, s', m);
    }
    WholeFrame(s, s');
  }

  lemma WholeStep(c: Config, s: State, l: Label, s': State)
    requires Links(s) && Whole(s) && Enabled(c, s, l) && s' == Next(c, s, l)
    ensures Whole(s')
  {
    if l.Save? {
      WholeSave(s, l.m, l.attachments);
    } else if l.Put? {
      WholePut(s, l.m, l.key);
    } else if l.PutLost? {
      WholePutLost(s, l.m, l.key);
    } else if l.SetRefs? && l.ok {
      assert SubmitOk(s, l.m);
      WholeSetRefs(s, l.m);
    } else if l.Enqueue? && l.ok {
      WholeEnqueue(s, l.m, l.entry);
    } else if l.TaskCall? {
      WholeCall(s, l.task, l.call);
    } else {
      WholeOther(c, s, l, s');
    }
  }

  lemma {:induction false} RunWhole(c: Config, states: seq<State>, labels: seq<Label>, i: nat)
    requires IsRun(c, states, labels) && i < |states|
    ensures Links(states[i]) && Whole(states[i]) && TaskRefs(states[i])
  {
    Reachable(c, states, labels, i);
    if i > 0 {
      RunWhole(c, states, labels, i - 1);
      WholeStep(c, states[i - 1], labels[i - 1], states[i]);
      TaskRefsStep(c, states[i - 1], labels[i - 1], states[i]);
    }
  }

  // ---------------------------------------------------------------------------
  // With leases kept, or the email read together with the claim
  // ---------------------------------------------------------------------------

  /** A task whose entry is still there has read a full list. */
  lemma HolderComplete(s: State)
    requires Links(s) && Whole(s) && TaskRefs(s) && Exclusive(s)
    ensures Complete(s)
  {
    forall t | t in s.tasks && s.tasks[t].pc.Executing?
      ensures HoldsAll(s, s.tasks[t].email, s.tasks[t].refs)
    {
      assert HolderOk(s, s.tasks[t]) && TaskOk(s, t);
      assert InQueue(s, s.tasks[t].email);
    }
    assert forall t :: t in s.tasks ==> TaskOk(s, t);
  }

  ghost predicate AllTasksFull(s: State) {
    forall t :: t in s.tasks ==> HoldsAll(s, s.tasks[t].email, s.tasks[t].refs)
  }

  /** Nothing is stored any more for an email with an entry. */
  lemma KeysFixed(c: Config, s: State, l: Label, s': State, m: EmailId, k: Key)
    requires Links(s) && Enabled(c, s, l) && s' == Next(c, s, l) && m in s.ids.entryOf && Owns(s', m, k)
    ensures Owns(s, m, k)
  {
    if l.Put? || l.PutLost? {
      assert SubmitOk(s, l.m);
    }
  }

  lemma OnlyClaimsStart(c: Config, s: State, l: Label, s': State, t: TaskId)
    requires Enabled(c, s, l) && s' == Next(c, s, l) && !l.Lookup? && t in s'.tasks
    ensures
      || (t in s.tasks && s'.tasks[t].email == s.tasks[t].email && s'.tasks[t].refs == s.tasks[t].refs)
      || (l.Claim? && var m := s.db.rows[l.entry].email; s'.tasks[t].email == m && s'.tasks[t].refs == s.db.emails[m])
  {
  }

  lemma FullStep(c: Config, s: State, l: Label, s': State)
    requires Links(s) && Whole(s) && AllTasksFull(s) && Enabled(c, s, l) && s' == Next(c, s, l) && !l.Lookup?
    ensures AllTasksFull(s')
  {
    forall t, k | t in s'.tasks && Owns(s', s'.tasks[t].email, k) ensures k in s'.tasks[t].refs {
      OnlyClaimsStart(c, s, l, s', t);
      var m := s'.tasks[t].email;
      if l.Claim? {
        assert RowOk(s, l.entry);
        assert InQueue(s, s.db.rows[l.entry].email);
      }
      assert t in s.tasks ==> TaskOk(s, t);
      KeysFixed(c, s, l, s', m, k);
    }
  }

  lemma {:induction false} RunFull(c: Config, states: seq<State>, labels: seq<Label>, i: nat)
    requires IsRun(c, states, labels) && i < |states| && forall j :: 0 <= j < |labels| ==> !labels[j].Lookup?
    ensures AllTasksFull(states[i])
  {
    if i > 0 {
      RunFull(c, states, labels, i - 1);
      RunWhole(c, states, labels, i - 1);
      FullStep(c, states[i - 1], labels[i - 1], states[i]);
    }
  }

  lemma FullComplete(s: State)
    requires Links(s) && AllTasksFull(s)
    ensures Complete(s)
  {
    assert forall t :: t in s.tasks ==> TaskOk(s, t);
  }

  // ---------------------------------------------------------------------------
  // An overrun lease and a late lookup
  // ---------------------------------------------------------------------------

  /** Email 0 with blob 0 is enqueued as entry 0. */
  function Stocked(c: Config): State {
    State(c.bootMs,
          Db(map[0 := Row(0, c.bootMs, None, 0)], map[0 := [0]], map[0 := c.bootMs], []), map[],
          map[0 := Submit(Announcing, [0], 1)], Idle,
          Ids(map[0 := 0], map[0 := KeyInfo(0, c.bootMs)], {0}, 0), History([], [], {0}))
  }

  lemma GetsStored(c: Config, k: Terms) returns (s: State)
    ensures s == DoPut(DoSave(Init(c), 0, 1), 0, 0) && Gets(c, k, s)
  {
    var s0 := Init(c);
    assert RunUnder(c, k, [s0], []) && [s0][|[s0]| - 1] == s0;
    var s1 := DoSave(s0, 0, 1);
    GetsNext(c, k, s0, Save(0, 1), s1);
    s := DoPut(s1, 0, 0);
    GetsNext(c, k, s1, Put(0, 0), s);
  }

  lemma GetsReferenced(c: Config, k: Terms) returns (s: State)
    ensures s == DoSetRefs(DoPut(DoSave(Init(c), 0, 1), 0, 0), 0) && Gets(c, k, s)
  {
    var s2 := GetsStored(c, k);
    s := DoSetRefs(s2, 0);
    GetsNext(c, k, s2, SetRefs(0, true), s);
  }

  lemma GetsStocked(c: Config, k: Terms)
    ensures Gets(c, k, Stocked(c))
  {
    var s3 := GetsReferenced(c, k);
    assert [] + [0] == [0];
    assert Stocked(c) == DoEnqueue(s3, 0, 0);
    GetsNext(c, k, s3, Enqueue(0, 0, true), Stocked(c));
  }

  /** Entry 0 of email 0 with blob 0. */
  predicate Queueing(s: State) {
    s.db.emails == map[0 := [0]] && s.db.rows.Keys == {0} && s.db.rows[0].email == 0 && Owns(s, 0, 0)
  }

  /** A task takes entry 0 for the email with blob 0. */
  lemma GetsTaken(c: Config, k: Terms, s: State) returns (s': State)
    requires Gets(c, k, s) && Queueing(s) && Claimable(s.db.rows[0], s.now)
    ensures s' == DoClaim(s, 0, true) && Gets(c, k, s')
  {
    s' := DoClaim(s, 0, true);
    GetsNext(c, k, s, Claim(0, true), s');
  }

  lemma GetsOneTaken(c: Config, k: Terms) returns (s: State)
    ensures Gets(c, k, s) && Queueing(s) && s.tasks.Keys == {0} && s.ids.nextTask == 1
    ensures s.tasks[0] == Task(0, 0, [0], 1, s.now, s.now, Executing)
    ensures s.db.rows[0].claimedUntil == Some(s.now + LEASE_MS)
  {
    GetsStocked(c, k);
    var s1 := GetsTaken(c, k, Stocked(c));
    s := GetsCall(c, k, s1, 0, PublishCall(Sending(0, 1), false));
  }

  /** Task 0 holds the entry beyond its lease, and task 1 has claimed it but not yet read the email. */
  lemma GetsTwoTaken(c: Config, k: Terms) returns (s: State)
    requires k.hold > LEASE_MS
    ensures Gets(c, k, s) && Queueing(s) && s.tasks.Keys == {0, 1}
    ensures s.tasks[0].pc.Executing? && s.tasks[0].email == 0 && s.tasks[0].entry == 0 && s.tasks[0].refs == [0]
    ensures s.tasks[1].pc.Starting? && s.tasks[1].email == 0 && s.tasks[1].entry == 0
  {
    var s2 := GetsOneTaken(c, k);
    var s3 := GetsTick(c, k, s2, LEASE_MS + 1);
    s := GetsTaken(c, k, s3);
  }

  /** Task 0 delivers, acks and clears the references; only then does task 1 read them. */
  lemma GetsStripped(c: Config, k: Terms) returns (s: State)
    requires k.hold > LEASE_MS && k.lookups
    ensures Gets(c, k, s) && 1 in s.tasks && s.tasks[1].pc.Executing? && s.tasks[1].refs == []
    ensures s.tasks[1].email == 0 && Owns(s, 0, 0)
  {
    var s1 := GetsTwoTaken(c, k);
    var s2 := GetsCall(c, k, s1, 0, ExecuteCall(Ok("smtp")));
    var s3 := GetsCall(c, k, s2, 0, AckCall(true));
    var s4 := GetsCall(c, k, s3, 0, ClearRefsCall(true));
    assert s4.db.emails == map[0 := []];
    s := GetsRead(c, k, s4);
  }

  lemma GetsRead(c: Config, k: Terms, s: State) returns (s': State)
    requires Gets(c, k, s) && k.lookups && s.db.emails == map[0 := []] && Owns(s, 0, 0)
    requires 1 in s.tasks && s.tasks[1].pc.Starting? && s.tasks[1].email == 0
    ensures Gets(c, k, s') && 1 in s'.tasks && s'.tasks[1].pc.Executing? && s'.tasks[1].refs == []
    ensures s'.tasks[1].email == 0 && Owns(s', 0, 0)
  {
    var s1 := DoLookup(s, 1);
    GetsNext(c, k, s, Lookup(1), s1);
    s' := GetsCall(c, k, s1, 1, PublishCall(Sending(0, s1.tasks[1].attempt), false));
  }

  ghost predicate AlwaysComplete(c: Config, k: Terms) {
    forall states: seq<State>, labels, i ::
      RunUnder(c, k, states, labels) && 0 <= i < |states| ==> Complete(states[i])
  }

  lemma RunComplete(c: Config, k: Terms, states: seq<State>, labels: seq<Label>, i: nat)
    requires RunUnder(c, k, states, labels) && i < |states| && (k.hold <= LEASE_MS || !k.lookups)
    ensures Complete(states[i])
  {
    RunWhole(c, states, labels, i);
    if k.hold <= LEASE_MS {
      UnderTimely(c, k, states, labels);
      TimelyInvariant(c, states, labels, i);
      HolderComplete(states[i]);
    } else {
      assert forall j :: 0 <= j < |labels| ==> k.Permits(labels[j]);
      RunFull(c, states, labels, i);
      FullComplete(states[i]);
    }
  }

  /**
   * Every attempt to deliver an email is made with exactly the attachments stored for it if and only if tasks
   * settle within the lease, or the dequeue reads the email in the transaction that claims it.
   */
  lemma CompleteExactly(c: Config, k: Terms)
    ensures AlwaysComplete(c, k) <==> k.hold <= LEASE_MS || !k.lookups
  {
    if k.hold <= LEASE_MS || !k.lookups {
      forall states: seq<State>, labels, i | RunUnder(c, k, states, labels) && 0 <= i < |states|
        ensures Complete(states[i])
      {
        RunComplete(c, k, states, labels, i);
      }
    } else {
      var s := GetsStripped(c, k);
      var states, labels := RunTo(c, k, s);
      assert !HoldsAll(s, 0, []) && !Complete(states[|states| - 1]);
    }
  }
}
