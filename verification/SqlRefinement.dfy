/** With leases kept, the pipeline's SQL queue behaves like the abstract queue, one item per email. */
module SqlRefinement {
  import opened Core
  import opened LeaseTable
  import opened WorkerTask
  import opened Pipeline
  import opened PipelineInvariant
  import opened Delivery
  import A = AbstractQueue

  predicate IsHeld(s: State, e: EntryId) {
    exists t :: t in s.tasks && s.tasks[t].Holding() && s.tasks[t].entry == e
  }

  function View(s: State, e: EntryId): A.Item {
    if e !in s.db.rows then A.Done
    else if IsHeld(s, e) then A.Held(s.db.rows[e].attempts)
    else if Claimable(s.db.rows[e], s.now) then A.Ready(s.db.rows[e].attempts + 1)
    else A.Delayed(s.db.rows[e].attempts + 1)
  }

  function Abs(s: State): A.Queue {
    map m | m in s.ids.entryOf :: View(s, s.ids.entryOf[m])
  }

  /** The emails whose delay runs out when the clock moves on to `now`. */
  function Due(s: State, now: nat): set<EmailId> {
    set m | m in s.ids.entryOf && s.ids.entryOf[m] in s.db.rows
            && !IsHeld(s, s.ids.entryOf[m])
            && !Claimable(s.db.rows[s.ids.entryOf[m]], s.now) && Claimable(s.db.rows[s.ids.entryOf[m]], now)
  }

  function CallActs(m: EmailId, call: Call): seq<A.Act> {
    if call.AckCall? then [if call.ok then A.Ack(m) else A.Abandon(m)]
    else if call.NackCall? then [if call.ok then A.Nack(m) else A.Abandon(m)]
    else []
  }

  /** What a step of the pipeline is to the abstract queue. */
  function Acts(c: Config, s: State, l: Label): seq<A.Act>
    requires Enabled(c, s, l)
  {
    if l.Tick? then [A.Release(Due(s, s.now + l.ms))]
    else if l.Enqueue? && l.ok then [A.Enqueue(l.m)]
    else if l.Claim? then
      var m := s.db.rows[l.entry].email;
      if l.handedOut then [A.Claim(m)] else [A.Claim(m), A.Abandon(m)]
    else if l.TaskCall? then CallActs(s.tasks[l.task].email, l.call)
    else if l.TaskCrash? && s.tasks[l.task].Holding() then [A.Abandon(s.tasks[l.task].email)]
    else []
  }

  predicate Simulates(s: State, acts: seq<A.Act>, s': State) {
    A.Leads(Abs(s), acts, Abs(s'))
  }

  lemma SimulatesOne(s: State, a: A.Act, s': State)
    requires A.Enabled(Abs(s), a) && A.Perform(Abs(s), a) == Abs(s')
    ensures Simulates(s, [a], s')
  {
  }

  /** Rows and holders are the same for every entry but `e`. */
  ghost predicate SameElsewhere(s: State, s': State, e: EntryId) {
    && (forall f :: f != e ==> (f in s'.db.rows <==> f in s.db.rows))
    && (forall f :: f != e && f in s.db.rows ==> s'.db.rows[f] == s.db.rows[f])
    && (forall f :: f != e ==> (IsHeld(s', f) <==> IsHeld(s, f)))
  }

  /** Only `m`'s item changes if rows, holders and clock stay the same for every other entry. */
  lemma OnlyOne(s: State, s': State, m: EmailId)
    requires m in s.ids.entryOf && s'.ids.entryOf == s.ids.entryOf && s'.now == s.now
    requires SameElsewhere(s, s', s.ids.entryOf[m])
    requires forall n :: n in s.ids.entryOf && s.ids.entryOf[n] == s.ids.entryOf[m] ==> n == m
    ensures Abs(s') == Abs(s)[m := View(s', s.ids.entryOf[m])]
  {
  }

  lemma SameHolders(s: State, s': State, t: TaskId)
    requires t in s.tasks && (t in s'.tasks ==> s'.tasks[t].entry == s.tasks[t].entry)
    requires s'.tasks.Keys <= s.tasks.Keys
    requires forall u :: u in s.tasks && u != t ==> u in s'.tasks && s'.tasks[u] == s.tasks[u]
    ensures forall e :: e != s.tasks[t].entry ==> (IsHeld(s', e) <==> IsHeld(s, e))
  {
  }

  predicate Timely(s: State) {
    Links(s) && Exclusive(s) && LeasesHeld(s)
  }

  lemma HoldersUnchanged(s: State, s': State)
    requires s'.tasks == s.tasks
    ensures forall e :: IsHeld(s', e) == IsHeld(s, e)
  {
  }

  lemma SimulatesEnqueue(s: State, m: EmailId, e: EntryId)
    requires Links(s) && InPc(s, m, Enqueueing) && e !in s.ids.entryOf.Values
    ensures Simulates(s, [A.Enqueue(m)], DoEnqueue(s, m, e))
  {
    var s' := DoEnqueue(s, m, e);
    assert SubmitOk(s, m);
    assert !IsHeld(s', e) by {
      forall t | t in s.tasks ensures s.tasks[t].entry != e {
        assert TaskOk(s, t);
      }
    }
    HoldersUnchanged(s, s');
    assert Abs(s') == Abs(s)[m := A.Ready(1)];
    SimulatesOne(s, A.Enqueue(m), s');
  }

  lemma ClaimHolders(s: State, e: EntryId, handedOut: bool)
    requires Timely(s) && e in Ready(s.db.rows, s.now) && s.db.rows[e].email in s.db.emails
    ensures var s' := DoClaim(s, e, handedOut);
            && !IsHeld(s, e) && (IsHeld(s', e) <==> handedOut)
            && forall f :: f != e ==> (IsHeld(s', f) <==> IsHeld(s, f))
  {
    var s' := DoClaim(s, e, handedOut);
    forall t | t in s.tasks ensures t != s.ids.nextTask && (s.tasks[t].Holding() ==> s.tasks[t].entry != e) {
      assert TaskOk(s, t);
      if s.tasks[t].Holding() {
        HeldNotReady(s, t);
      }
    }
    if handedOut {
      assert s'.tasks[s.ids.nextTask].Holding();
    }
    forall f | f != e ensures IsHeld(s', f) <==> IsHeld(s, f) {
      if IsHeld(s, f) {
        var u :| u in s.tasks && s.tasks[u].Holding() && s.tasks[u].entry == f;
        assert u in s'.tasks && s'.tasks[u].Holding();
      }
    }
  }

  lemma SimulatesClaim(s: State, e: EntryId, handedOut: bool)
    requires Timely(s) && e in Ready(s.db.rows, s.now) && s.db.rows[e].email in s.db.emails
    ensures var m := s.db.rows[e].email;
            Simulates(s, if handedOut then [A.Claim(m)] else [A.Claim(m), A.Abandon(m)], DoClaim(s, e, handedOut))
  {
    var s' := DoClaim(s, e, handedOut);
    var m := s.db.rows[e].email;
    assert RowOk(s, e);
    ClaimHolders(s, e, handedOut);
    var a := s.db.rows[e].attempts + 1;
    assert View(s, e) == A.Ready(a);
    OnlyOne(s, s', m);
    if handedOut {
      assert View(s', e) == A.Held(a);
      SimulatesOne(s, A.Claim(m), s');
    } else {
      assert View(s', e) == A.Delayed(a + 1);
      var held := Abs(s)[m := A.Held(a)];
      assert A.Perform(Abs(s), A.Claim(m)) == held;
      assert A.Perform(held, A.Abandon(m)) == Abs(s');
      assert A.Leads(Abs(s'), [], Abs(s'));
      assert A.Leads(held, [A.Abandon(m)], Abs(s'));
      assert [A.Claim(m), A.Abandon(m)][1..] == [A.Abandon(m)];
    }
  }

  /** How the abstract queue sees an entry before and after its holder has settled it. */
  lemma SettledView(s: State, t: TaskId, s': State, a: A.Act)
    requires Timely(s) && t in s.tasks && s.tasks[t].Holding() && s'.now == s.now && !IsHeld(s', s.tasks[t].entry)
    requires
      var e, m := s.tasks[t].entry, s.tasks[t].email;
      || (a == A.Ack(m) && s'.db.rows == Acked(s.db.rows, e))
      || (a == A.Abandon(m) && s'.db.rows == s.db.rows)
      || (a == A.Nack(m) && exists delay :: s'.db.rows == Nacked(s.db.rows, e, s.now, delay))
    ensures var e := s.tasks[t].entry;
            && e in s.db.rows && View(s, e) == A.Held(s.db.rows[e].attempts)
            && View(s', e) == if a.Ack? then A.Done else A.Delayed(s.db.rows[e].attempts + 1)
  {
    assert HolderOk(s, s.tasks[t]) && IsHeld(s, s.tasks[t].entry);
  }

  /** What settling does to the abstract queue. */
  lemma Settles(q: A.Queue, m: EmailId, a: A.Act, item: A.Item)
    requires m in q && q[m].Held? && a in [A.Ack(m), A.Nack(m), A.Abandon(m)]
    requires item == if a.Ack? then A.Done else A.Delayed(q[m].attempt + 1)
    ensures A.Enabled(q, a) && A.Perform(q, a) == q[m := item]
  {
  }

  lemma SimulatesChange(s: State, s': State, m: EmailId, a: A.Act)
    requires m in s.ids.entryOf && s'.ids.entryOf == s.ids.entryOf && s'.now == s.now
    requires SameElsewhere(s, s', s.ids.entryOf[m])
    requires forall n :: n in s.ids.entryOf && s.ids.entryOf[n] == s.ids.entryOf[m] ==> n == m
    requires a in [A.Ack(m), A.Nack(m), A.Abandon(m)] && View(s, s.ids.entryOf[m]).Held?
    requires View(s', s.ids.entryOf[m])
          == if a.Ack? then A.Done else A.Delayed(View(s, s.ids.entryOf[m]).attempt + 1)
    ensures Simulates(s, [a], s')
  {
    OnlyOne(s, s', m);
    Settles(Abs(s), m, a, View(s', s.ids.entryOf[m]));
    SimulatesOne(s, a, s');
  }

  /** A holder's last call on its entry, or its disappearance. */
  lemma SimulatesSettle(s: State, t: TaskId, s': State, a: A.Act)
    requires Timely(s) && t in s.tasks && s.tasks[t].Holding()
    requires s'.now == s.now && s'.ids.entryOf == s.ids.entryOf
    requires s'.tasks.Keys <= s.tasks.Keys
    requires t in s'.tasks ==> !s'.tasks[t].Holding() && s'.tasks[t].entry == s.tasks[t].entry
    requires forall u :: u in s.tasks && u != t ==> u in s'.tasks && s'.tasks[u] == s.tasks[u]
    requires
      var e, m := s.tasks[t].entry, s.tasks[t].email;
      || (a == A.Ack(m) && s'.db.rows == Acked(s.db.rows, e))
      || (a == A.Abandon(m) && s'.db.rows == s.db.rows)
      || (a == A.Nack(m) && exists delay :: s'.db.rows == Nacked(s.db.rows, e, s.now, delay))
    ensures Simulates(s, [a], s')
  {
    var task := s.tasks[t];
    var e, m := task.entry, task.email;
    assert TaskOk(s, t) && HolderOk(s, task);
    SameHolders(s, s', t);
    assert !IsHeld(s', e);
    SettledView(s, t, s', a);
    SimulatesChange(s, s', m, a);
  }

  /** A task that is not settling and one that is gone either both count as holders or neither does. */
  lemma SameHolding(s: State, s': State, t: TaskId)
    requires t in s.tasks && s'.tasks.Keys <= s.tasks.Keys
    requires forall u :: u in s.tasks && u != t ==> u in s'.tasks && s'.tasks[u] == s.tasks[u]
    requires t in s'.tasks ==>
      s'.tasks[t].Holding() == s.tasks[t].Holding() && s'.tasks[t].entry == s.tasks[t].entry
    requires t !in s'.tasks ==> !s.tasks[t].Holding()
    ensures forall e :: IsHeld(s', e) <==> IsHeld(s, e)
  {
  }

  /** Any other call of a task leaves every item where it is. */
  lemma SimulatesQuietCall(s: State, t: TaskId, call: Call)
    requires t in s.tasks && Awaits(s.tasks[t], call) && !call.AckCall? && !call.NackCall?
    ensures Abs(DoCall(s, t, call)) == Abs(s)
  {
    var s' := DoCall(s, t, call);
    SameHolding(s, s', t);
    assert s'.db.rows == s.db.rows;
  }

  lemma SimulatesCall(s: State, t: TaskId, call: Call)
    requires Timely(s) && t in s.tasks && Awaits(s.tasks[t], call)
    ensures Simulates(s, CallActs(s.tasks[t].email, call), DoCall(s, t, call))
  {
    var s' := DoCall(s, t, call);
    if call.AckCall? || call.NackCall? {
      SimulatesSettle(s, t, s', CallActs(s.tasks[t].email, call)[0]);
    } else {
      SimulatesQuietCall(s, t, call);
    }
  }

  /** Steps that touch neither rows nor tasks nor the clock. */
  lemma SimulatesNothing(s: State, s': State)
    requires s'.db.rows == s.db.rows && s'.tasks == s.tasks && s'.now == s.now && s'.ids.entryOf == s.ids.entryOf
    ensures Abs(s') == Abs(s)
  {
  }

  lemma SimulatesCrash(s: State, t: TaskId, s': State)
    requires Timely(s) && t in s.tasks && s' == s.(tasks := s.tasks - {t})
    ensures Simulates(s, if s.tasks[t].Holding() then [A.Abandon(s.tasks[t].email)] else [], s')
  {
    if s.tasks[t].Holding() {
      SimulatesSettle(s, t, s', A.Abandon(s.tasks[t].email));
    } else {
      SameHolding(s, s', t);
      assert Abs(s') == Abs(s);
    }
  }

  predicate Moves(l: Label) {
    l.Tick? || (l.Enqueue? && l.ok) || l.Claim? || l.TaskCall? || l.TaskCrash?
  }

  lemma SimulatesLookup(s: State, t: TaskId)
    requires t in s.tasks && s.tasks[t].email in s.db.emails
    ensures Simulates(s, [], DoLookup(s, t))
  {
    SameHolding(s, DoLookup(s, t), t);
    assert Abs(DoLookup(s, t)) == Abs(s);
  }

  lemma SimulatesQuietStep(c: Config, s: State, l: Label, s': State)
    requires Links(s) && Enabled(c, s, l) && s' == Next(c, s, l) && !Moves(l)
    ensures Simulates(s, [], s')
  {
    if l.Orphan? {
      assert false;
    } else if l.Lookup? {
      SimulatesLookup(s, l.task);
    } else {
      SimulatesNothing(s, s');
    }
  }

  lemma SimulatesTickStep(c: Config, s: State, l: Label, s': State)
    requires Enabled(c, s, l) && s' == Next(c, s, l) && l.Tick?
    ensures Simulates(s, Acts(c, s, l), s')
  {
  }

  lemma SimulatesEnqueueStep(c: Config, s: State, l: Label, s': State)
    requires Timely(s) && Enabled(c, s, l) && s' == Next(c, s, l) && l.Enqueue? && l.ok
    ensures Simulates(s, Acts(c, s, l), s')
  {
    SimulatesEnqueue(s, l.m, l.entry);
  }

  lemma SimulatesClaimStep(c: Config, s: State, l: Label, s': State)
    requires Timely(s) && Enabled(c, s, l) && s' == Next(c, s, l) && l.Claim?
    ensures Simulates(s, Acts(c, s, l), s')
  {
    SimulatesClaim(s, l.entry, l.handedOut);
  }

  lemma SimulatesTaskStep(c: Config, s: State, l: Label, s': State)
    requires Timely(s) && Enabled(c, s, l) && s' == Next(c, s, l)
    requires l.TaskCall? || l.TaskCrash?
    ensures Simulates(s, Acts(c, s, l), s')
  {
    match l
    case TaskCall(t, call) => SimulatesCall(s, t, call);
    case TaskCrash(t) => SimulatesCrash(s, t, s');
  }

  /** Every step of the pipeline is zero, one or two steps of the abstract queue. */
  lemma SimulatesStep(c: Config, s: State, l: Label, s': State)
    requires Timely(s) && Enabled(c, s, l) && s' == Next(c, s, l)
    ensures Simulates(s, Acts(c, s, l), s')
  {
    if l.TaskCall? || l.TaskCrash? {
      SimulatesTaskStep(c, s, l, s');
    } else if l.Tick? {
      SimulatesTickStep(c, s, l, s');
    } else if l.Enqueue? && l.ok {
      SimulatesEnqueueStep(c, s, l, s');
    } else if l.Claim? {
      SimulatesClaimStep(c, s, l, s');
    } else {
      SimulatesQuietStep(c, s, l, s');
      assert Acts(c, s, l) == [];
    }
  }

  ghost function Trace(c: Config, states: seq<State>, labels: seq<Label>, k: nat): seq<A.Act>
    requires TimelyRun(c, states, labels) && k < |states|
  {
    if k == 0 then []
    else
      Trace(c, states, labels, k - 1) + Acts(c, states[k - 1], labels[k - 1])
  }

  /** Every timely run of the pipeline is a run of the abstract queue. */
  lemma {:induction false} Refines(c: Config, states: seq<State>, labels: seq<Label>, k: nat)
    requires TimelyRun(c, states, labels) && k < |states|
    ensures A.Leads(map[], Trace(c, states, labels, k), Abs(states[k]))
  {
    if k == 0 {
      assert Abs(states[0]) == map[];
    } else {
      Refines(c, states, labels, k - 1);
      TimelyInvariant(c, states, labels, k - 1);
      SimulatesStep(c, states[k - 1], labels[k - 1], states[k]);
      A.LeadsConcat(map[], Trace(c, states, labels, k - 1), Abs(states[k - 1]),
                    Acts(c, states[k - 1], labels[k - 1]), Abs(states[k]));
    }
  }

  /** So the attempt a holder works on is one more than the nacks and abandoned attempts before it. */
  lemma AttemptNumber(c: Config, states: seq<State>, labels: seq<Label>, k: nat, m: EmailId)
    requires TimelyRun(c, states, labels) && k < |states|
    requires m in states[k].ids.entryOf && states[k].ids.entryOf[m] in states[k].db.rows
    ensures var s, e := states[k], states[k].ids.entryOf[m];
            s.db.rows[e].attempts + (if IsHeld(s, e) then 0 else 1)
            == 1 + A.Setbacks(Trace(c, states, labels, k), m)
  {
    Refines(c, states, labels, k);
    A.AttemptsCount(Trace(c, states, labels, k), Abs(states[k]), m);
  }
}
