/** With leases kept, every ack and nack settles the latest claim, so a nack's delay cannot be cut short. */
module LeaseExclusion {
  import opened Core
  import opened LeaseTable
  import opened WorkerTask
  import opened Pipeline
  import opened PipelineInvariant
  import opened Delivery
  import opened QueueHistory

  predicate IsClaim(op: Option<Op>) {
    op.Some? && op.value.ClaimOp?
  }

  /** Whoever holds an entry made the latest operation on it, a claim. */
  predicate HeldByClaim(s: State) {
    forall t :: t in s.tasks && s.tasks[t].Holding() ==> IsClaim(LastOp(s.past.ops, s.tasks[t].entry))
  }

  /** Claims and settlements alternate. */
  predicate SettlesClaim(ops: seq<Op>) {
    forall x :: 0 <= x < |ops| && !ops[x].ClaimOp? ==> IsClaim(LastOp(ops[..x], ops[x].entry))
  }

  lemma SettlesSnoc(ops: seq<Op>, op: Op)
    requires SettlesClaim(ops) && (op.ClaimOp? || IsClaim(LastOp(ops, op.entry)))
    ensures SettlesClaim(ops + [op])
  {
    forall x | 0 <= x < |ops + [op]| && !(ops + [op])[x].ClaimOp?
      ensures IsClaim(LastOp((ops + [op])[..x], (ops + [op])[x].entry))
    {
      assert (ops + [op])[..x] == ops[..x];
      assert x == |ops| ==> ops[..x] == ops;
    }
  }

  lemma ClaimAlternates(s: State, e: EntryId, handedOut: bool)
    requires Links(s) && Exclusive(s) && LeasesHeld(s) && HeldByClaim(s) && SettlesClaim(s.past.ops)
    requires e in Ready(s.db.rows, s.now) && s.db.rows[e].email in s.db.emails
    ensures HeldByClaim(DoClaim(s, e, handedOut)) && SettlesClaim(DoClaim(s, e, handedOut).past.ops)
  {
    var s' := DoClaim(s, e, handedOut);
    var op := ClaimOp(e, s.now, s.db.rows[e].attempts + 1);
    SettlesSnoc(s.past.ops, op);
    forall t | t in s'.tasks && s'.tasks[t].Holding() ensures IsClaim(LastOp(s'.past.ops, s'.tasks[t].entry)) {
      LastOpSnoc(s.past.ops, op, s'.tasks[t].entry);
      if t != s.ids.nextTask {
        HeldNotReady(s, t);
      }
    }
  }

  /** A holder settles its entry and no longer holds it; nobody else held it. */
  lemma SettleAlternates(s: State, t: TaskId, s': State, op: Op)
    requires Exclusive(s) && HeldByClaim(s) && SettlesClaim(s.past.ops)
    requires t in s.tasks && s.tasks[t].Holding() && op.entry == s.tasks[t].entry
    requires s'.past.ops == s.past.ops + [op]
    requires forall u :: u in s'.tasks && s'.tasks[u].Holding() ==> u != t && u in s.tasks && s'.tasks[u] == s.tasks[u]
    ensures HeldByClaim(s') && SettlesClaim(s'.past.ops)
  {
    SettlesSnoc(s.past.ops, op);
    forall u | u in s'.tasks && s'.tasks[u].Holding() ensures IsClaim(LastOp(s'.past.ops, s'.tasks[u].entry)) {
      LastOpSnoc(s.past.ops, op, s'.tasks[u].entry);
    }
  }

  predicate Settling(call: Call) {
    call == AckCall(true) || (call.NackCall? && call.ok)
  }

  function SettleOp(s: State, t: Task, call: Call): Op
    requires Settling(call)
  {
    if call.AckCall? then AckOp(t.entry, s.now, AckReason(t)) else NackOp(t.entry, s.now, call.delayMs, t.attempt)
  }

  lemma CallSettles(s: State, t: TaskId, call: Call)
    requires t in s.tasks && Awaits(s.tasks[t], call) && Settling(call)
    ensures s.tasks[t].Holding()
    ensures var s' := DoCall(s, t, call);
            && s'.past.ops == s.past.ops + [SettleOp(s, s.tasks[t], call)]
            && forall u :: u in s'.tasks && s'.tasks[u].Holding() ==>
                 u != t && u in s.tasks && s'.tasks[u] == s.tasks[u]
  {
  }

  lemma CallQuiet(s: State, t: TaskId, call: Call)
    requires t in s.tasks && Awaits(s.tasks[t], call) && !Settling(call)
    ensures var s' := DoCall(s, t, call);
            && s'.past.ops == s.past.ops
            && forall u :: u in s'.tasks && s'.tasks[u].Holding() ==>
              u in s.tasks && s.tasks[u].Holding() && s'.tasks[u].entry == s.tasks[u].entry
  {
  }

  lemma CallAlternates(s: State, t: TaskId, call: Call)
    requires Exclusive(s) && HeldByClaim(s) && SettlesClaim(s.past.ops) && t in s.tasks && Awaits(s.tasks[t], call)
    ensures HeldByClaim(DoCall(s, t, call)) && SettlesClaim(DoCall(s, t, call).past.ops)
  {
    if Settling(call) {
      CallSettles(s, t, call);
      SettleAlternates(s, t, DoCall(s, t, call), SettleOp(s, s.tasks[t], call));
    } else {
      CallQuiet(s, t, call);
    }
  }

  lemma AlternatesStep(c: Config, s: State, l: Label, s': State)
    requires Links(s) && Exclusive(s) && LeasesHeld(s) && HeldByClaim(s) && SettlesClaim(s.past.ops)
    requires Enabled(c, s, l) && s' == Next(c, s, l)
    ensures HeldByClaim(s') && SettlesClaim(s'.past.ops)
  {
    if l.Claim? {
      ClaimAlternates(s, l.entry, l.handedOut);
    } else if l.TaskCall? {
      CallAlternates(s, l.task, l.call);
    } else if l.Orphan? {
      assert false;
    } else {
      assert s'.past.ops == s.past.ops;
    }
  }

  lemma {:induction false} TimelyAlternates(c: Config, states: seq<State>, labels: seq<Label>, i: nat)
    requires TimelyRun(c, states, labels) && i < |states|
    ensures HeldByClaim(states[i]) && SettlesClaim(states[i].past.ops)
  {
    if i > 0 {
      TimelyAlternates(c, states, labels, i - 1);
      TimelyInvariant(c, states, labels, i - 1);
      AlternatesStep(c, states[i - 1], labels[i - 1], states[i]);
    }
  }

  /** The first operation on the entry of `ops[i]` after `i`. */
  lemma {:induction false} NextOn(ops: seq<Op>, i: nat, j: nat) returns (x: nat)
    requires i < j < |ops| && ops[j].entry == ops[i].entry
    ensures i < x <= j && ops[x].entry == ops[i].entry
    ensures LastOp(ops[..x], ops[i].entry) == Some(ops[i])
    decreases j
  {
    if y :| i < y < j && ops[y].entry == ops[i].entry {
      x := NextOn(ops, i, y);
    } else {
      x := j;
      LastOpIs(ops[..j], i);
    }
  }

  /** In a timely run a nack with delay `d` keeps its entry from every claim until strictly after its time + `d`. */
  lemma NackBlocksTimely(c: Config, states: seq<State>, labels: seq<Label>, k: nat, i: nat, j: nat)
    requires TimelyRun(c, states, labels) && k < |states| && i < j < |states[k].past.ops|
    requires states[k].past.ops[i].NackOp? && states[k].past.ops[j].ClaimOp?
    requires states[k].past.ops[i].entry == states[k].past.ops[j].entry
    ensures states[k].past.ops[j].at > states[k].past.ops[i].at + states[k].past.ops[i].delayMs
  {
    var ops := states[k].past.ops;
    TimelyAlternates(c, states, labels, k);
    ReachableHistory(c, states, labels, k);
    var x := NextOn(ops, i, j);
    assert ops[x].ClaimOp?;
    assert MayFollow(LastOp(ops[..x], ops[x].entry), ops[x].at);
  }
}
