/**
 * The in-memory queue as its callers use it: each method is a run of the atomic steps of `MemoryAtoms`, and
 * does to the abstract queue what its name says.
 */
module MemoryQueueObject {
  import opened Core
  import M = MemoryAtoms
  import R = MemoryRefinement
  import A = AbstractQueue

  // ---------------------------------------------------------------------------
  // Tokens as eight little-endian bytes
  // ---------------------------------------------------------------------------

  function ToLittleEndian(n: nat, width: nat): (bytes: Bytes)
    ensures |bytes| == width
  {
    if width == 0 then [] else [n % 256] + ToLittleEndian(n / 256, width - 1)
  }

  function FromLittleEndian(bytes: Bytes): nat {
    if bytes == [] then 0 else bytes[0] + 256 * FromLittleEndian(bytes[1..])
  }

  function Pow256(width: nat): nat {
    if width == 0 then 1 else 256 * Pow256(width - 1)
  }

  lemma {:induction false} TokenRoundTrip(n: nat, width: nat)
    requires n < Pow256(width)
    ensures FromLittleEndian(ToLittleEndian(n, width)) == n
    decreases width
  {
    if width > 0 {
      assert n == n % 256 + 256 * (n / 256);
      TokenRoundTrip(n / 256, width - 1);
      assert ToLittleEndian(n, width)[1..] == ToLittleEndian(n / 256, width - 1);
    }
  }

  lemma {:induction false} BytesRoundTrip(bytes: Bytes)
    ensures FromLittleEndian(bytes) < Pow256(|bytes|)
    ensures ToLittleEndian(FromLittleEndian(bytes), |bytes|) == bytes
  {
    if bytes != [] {
      var rest := FromLittleEndian(bytes[1..]);
      BytesRoundTrip(bytes[1..]);
      assert (bytes[0] + 256 * rest) % 256 == bytes[0] && (bytes[0] + 256 * rest) / 256 == rest;
      assert [bytes[0]] + bytes[1..] == bytes;
    }
  }

  lemma U64Range()
    ensures Pow256(8) == U64_MAX + 1
  {
  }

  // ---------------------------------------------------------------------------
  // The run behind the object
  // ---------------------------------------------------------------------------

  /** The atomic steps so far, what they were to the abstract queue, and the abstract queue they led to. */
  datatype Run = Run(states: seq<M.State>, labels: seq<M.Label>, acts: seq<A.Act>, queue: A.Queue)

  /** `run` is a run of the atomic machine that ends in `s` and, while the channel is open, refines the queue. */
  ghost predicate EndsIn(run: Run, s: M.State) {
    && M.IsRun(run.states, run.labels) && run.states[|run.states| - 1] == s
    && (s.open ==> R.Refines(s, run.queue) && A.Leads(map[], run.acts, run.queue))
  }

  function Extended(run: Run, s: M.State, l: M.Label): Run
    requires M.Enabled(s, l)
  {
    var acts := R.Acts(s, l);
    Run(run.states + [M.Next(s, l)], run.labels + [l], run.acts + acts, R.After(run.queue, acts))
  }

  lemma EndsInSteady(run: Run, s: M.State)
    requires EndsIn(run, s)
    ensures M.CounterOk(s) && M.Apart(s) && R.TokensOk(s) && (s.open ==> R.Steady(s))
  {
    M.CounterExact(run.states, run.labels, |run.labels|);
    R.ReachableTokens(run.states, run.labels, |run.labels|);
  }

  lemma OneMoreStep(states: seq<M.State>, labels: seq<M.Label>, s: M.State, l: M.Label)
    requires M.IsRun(states, labels) && states[|states| - 1] == s && M.Enabled(s, l)
    ensures M.IsRun(states + [M.Next(s, l)], labels + [l])
  {
  }

  lemma OneMoreAct(run: Run, s: M.State, l: M.Label, s': M.State)
    requires EndsIn(run, s) && M.Enabled(s, l) && s' == M.Next(s, l) && s'.open
    ensures R.Refines(s', R.After(run.queue, R.Acts(s, l)))
    ensures A.Leads(map[], run.acts + R.Acts(s, l), R.After(run.queue, R.Acts(s, l)))
  {
    EndsInSteady(run, s);
    R.ActsEnabled(s, l, run.queue);
    R.RefinesStep(s, l, s', run.queue);
    A.LeadsConcat(map[], run.acts, run.queue, R.Acts(s, l), R.After(run.queue, R.Acts(s, l)));
  }

  lemma ExtendedEnds(run: Run, s: M.State, l: M.Label)
    requires EndsIn(run, s) && M.Enabled(s, l)
    ensures EndsIn(Extended(run, s, l), M.Next(s, l))
  {
    OneMoreStep(run.states, run.labels, s, l);
    if M.Next(s, l).open {
      OneMoreAct(run, s, l, M.Next(s, l));
    }
  }

  // ---------------------------------------------------------------------------
  // Counting what is ready
  // ---------------------------------------------------------------------------

  function Uids(channel: seq<M.Item>): set<nat> {
    set i | 0 <= i < |channel| :: channel[i].uid
  }

  function ReadyItems(q: A.Queue): set<nat> {
    set u | u in q && q[u].Ready?
  }

  lemma {:induction false} UidsCounted(channel: seq<M.Item>)
    requires forall i, j :: 0 <= i < j < |channel| ==> channel[i].uid != channel[j].uid
    ensures |Uids(channel)| == |channel|
  {
    if channel != [] {
      var init, last := channel[..|channel| - 1], channel[|channel| - 1];
      UidsCounted(init);
      assert Uids(channel) == Uids(init) + {last.uid};
    }
  }

  /** With no operation under way, the channel holds exactly the ready items. */
  lemma ChannelIsReady(s: M.State, q: A.Queue)
    requires R.Refines(s, q) && M.Busy(s) == s.sleeping.Keys && s.received == map[] && s.counted == map[]
    requires s.ticketed == map[] && s.adding == map[] && s.resending == map[]
    ensures |ReadyItems(q)| == |s.channel|
  {
    forall i, j | 0 <= i < j < |s.channel| ensures s.channel[i].uid != s.channel[j].uid {
      assert R.At(s, R.InChannel(i)) == Some(s.channel[i]) && R.At(s, R.InChannel(j)) == Some(s.channel[j]);
    }
    UidsCounted(s.channel);
    forall u | u in ReadyItems(q) ensures u in Uids(s.channel) {
      var x :| R.At(s, x).Some? && R.At(s, x).value.uid == u;
      assert R.Reads(q, x, R.At(s, x).value);
    }
    forall u | u in Uids(s.channel) ensures u in ReadyItems(q) {
      var i :| 0 <= i < |s.channel| && s.channel[i].uid == u;
      assert R.At(s, R.InChannel(i)) == Some(s.channel[i]);
    }
    assert Uids(s.channel) == ReadyItems(q);
  }

  // ---------------------------------------------------------------------------
  // What the steps are to the abstract queue
  // ---------------------------------------------------------------------------

  lemma AddActs(q: A.Queue, s: M.State, p: M.Proc)
    requires R.Refines(s, q) && s.open && p in s.adding
    ensures var item := s.adding[p];
            item.uid !in q && R.After(q, R.Acts(s, M.SendNew(p))) == q[item.uid := A.Ready(1)]
  {
    assert R.At(s, R.BeingAdded(p)) == Some(s.adding[p]);
    assert R.Reads(q, R.BeingAdded(p), s.adding[p]);
  }

  lemma ReceiveActs(q: A.Queue, s: M.State, p: M.Proc)
    requires R.Refines(s, q) && s.channel != []
    ensures var item := s.channel[0];
            && item.uid in q && q[item.uid] == A.Ready(item.attempt)
            && R.After(q, R.Acts(s, M.Receive(p))) == q[item.uid := A.Held(item.attempt)]
  {
    assert R.At(s, R.InChannel(0)) == Some(s.channel[0]);
    assert R.Reads(q, R.InChannel(0), s.channel[0]);
  }

  lemma PendingHeld(q: A.Queue, s: M.State, token: nat)
    requires R.Refines(s, q) && token in s.pending
    ensures var item := s.pending[token]; item.uid in q && q[item.uid] == A.Held(item.attempt)
  {
    assert R.At(s, R.InPending(token)) == Some(s.pending[token]);
    assert R.Reads(q, R.InPending(token), s.pending[token]);
  }

  lemma ResendActs(q: A.Queue, s: M.State, p: M.Proc)
    requires R.Refines(s, q) && p in s.resending
    ensures var item := s.resending[p];
            R.After(q, R.Acts(s, M.SendAgain(p))) == q[item.uid := A.Ready(item.attempt)]
  {
    assert R.At(s, R.BeingResent(p)) == Some(s.resending[p]);
    assert R.Reads(q, R.BeingResent(p), s.resending[p]);
  }

  // ---------------------------------------------------------------------------
  // Whole operations, from one idle state to the next
  // ---------------------------------------------------------------------------

  /** No task is in the middle of an operation. */
  predicate Idle(s: M.State) {
    && s.adding == map[] && s.resending == map[] && s.undoing == {}
    && s.received == map[] && s.counted == map[] && s.ticketed == map[]
  }

  lemma Entered<T>(p: M.Proc, x: T)
    ensures map[p := x] - {p} == map[]
  {
  }

  /** Increment and send. */
  lemma EnqueueRun(run: Run, s: M.State, p: M.Proc, item: M.Item) returns (run': Run, s': M.State)
    requires EndsIn(run, s) && Idle(s) && s.open && M.Enabled(s, M.Add(p, item))
    ensures EndsIn(run', s') && run'.labels == run.labels + [M.Add(p, item), M.SendNew(p)]
    ensures s' == s.(channel := s.channel + [item], ready := s.ready + 1, issued := s.issued + {item.uid})
    ensures item.uid !in run.queue && run'.queue == run.queue[item.uid := A.Ready(1)]
  {
    var s1 := M.Next(s, M.Add(p, item));
    ExtendedEnds(run, s, M.Add(p, item));
    var run1 := Extended(run, s, M.Add(p, item));
    Entered(p, item);
    AddActs(run1.queue, s1, p);
    ExtendedEnds(run1, s1, M.SendNew(p));
    run' := Extended(run1, s1, M.SendNew(p));
    s' := M.Next(s1, M.SendNew(p));
    assert s1.adding == map[p := item];
  }

  /** Increment, find the channel closed, and take the increment back. */
  lemma EnqueueClosedRun(run: Run, s: M.State, p: M.Proc, item: M.Item) returns (run': Run, s': M.State)
    requires EndsIn(run, s) && Idle(s) && !s.open && M.Enabled(s, M.Add(p, item))
    ensures EndsIn(run', s') && run'.labels == run.labels + [M.Add(p, item), M.SendNew(p), M.Undo(p)]
    ensures s' == s.(issued := s.issued + {item.uid})
  {
    var s1 := M.Next(s, M.Add(p, item));
    ExtendedEnds(run, s, M.Add(p, item));
    run' := Extended(run, s, M.Add(p, item));
    Entered(p, item);
    assert s1.adding == map[p := item];
    run', s' := SendUndone(run', s1, p, M.SendNew(p));
  }

  /** A send that fails, and the rollback of its increment. */
  lemma SendUndone(run: Run, s: M.State, p: M.Proc, send: M.Label) returns (run': Run, s': M.State)
    requires EndsIn(run, s) && !s.open && s.undoing == {}
    requires (send == M.SendNew(p) && p in s.adding) || (send == M.SendAgain(p) && p in s.resending)
    ensures EndsIn(run', s') && run'.labels == run.labels + [send, M.Undo(p)]
    ensures s' == if send.SendNew? then s.(ready := s.ready - 1, adding := s.adding - {p})
                  else s.(ready := s.ready - 1, resending := s.resending - {p})
  {
    var s1 := M.Next(s, send);
    ExtendedEnds(run, s, send);
    run' := Extended(run, s, send);
    ExtendedEnds(run', s1, M.Undo(p));
    run' := Extended(run', s1, M.Undo(p));
    s' := M.Next(s1, M.Undo(p));
    assert s1.undoing - {p} == {};
  }

  /** Receive and decrement. */
  lemma ReceiveRun(run: Run, s: M.State, p: M.Proc) returns (run': Run, s': M.State)
    requires EndsIn(run, s) && Idle(s) && s.channel != [] && p !in M.Busy(s)
    ensures EndsIn(run', s') && run'.labels == run.labels + [M.Receive(p), M.Decrement(p)]
    ensures s' == s.(channel := s.channel[1..], ready := s.ready - 1, counted := map[p := s.channel[0]])
    ensures s.open ==>
      var item := s.channel[0];
      && item.uid in run.queue && run.queue[item.uid] == A.Ready(item.attempt)
      && run'.queue == run.queue[item.uid := A.Held(item.attempt)]
  {
    var s1 := M.Next(s, M.Receive(p));
    if s.open {
      ReceiveActs(run.queue, s, p);
    }
    ExtendedEnds(run, s, M.Receive(p));
    var run1 := Extended(run, s, M.Receive(p));
    Entered(p, s.channel[0]);
    assert s1.received == map[p := s.channel[0]];
    ExtendedEnds(run1, s1, M.Decrement(p));
    run' := Extended(run1, s1, M.Decrement(p));
    s' := M.Next(s1, M.Decrement(p));
    assert R.Acts(s1, M.Decrement(p)) == [];
  }

  /** Take a token and insert. */
  lemma TokenRun(run: Run, s: M.State, p: M.Proc, item: M.Item) returns (run': Run, s': M.State)
    requires EndsIn(run, s) && s.counted == map[p := item] && s.ticketed == map[]
    ensures EndsIn(run', s') && run'.labels == run.labels + [M.TakeToken(p), M.Insert(p)]
    ensures s' == s.(counted := map[], nextToken := s.nextToken + 1, pending := s.pending[s.nextToken := item])
    ensures run'.queue == run.queue
  {
    var s1 := M.Next(s, M.TakeToken(p));
    ExtendedEnds(run, s, M.TakeToken(p));
    var run1 := Extended(run, s, M.TakeToken(p));
    Entered(p, item);
    Entered(p, M.Ticket(item, s.nextToken));
    assert s1.ticketed == map[p := M.Ticket(item, s.nextToken)];
    ExtendedEnds(run1, s1, M.Insert(p));
    run' := Extended(run1, s1, M.Insert(p));
    s' := M.Next(s1, M.Insert(p));
    assert R.Acts(s, M.TakeToken(p)) == [] && R.Acts(s1, M.Insert(p)) == [];
  }

  /** Increment again and send again. */
  lemma WakeRun(run: Run, s: M.State, p: M.Proc) returns (run': Run, s': M.State)
    requires EndsIn(run, s) && Idle(s) && s.open && p in s.sleeping
    ensures EndsIn(run', s') && run'.labels == run.labels + [M.Wake(p), M.SendAgain(p)]
    ensures var item := s.sleeping[p].Again();
            && s' == s.(channel := s.channel + [item], ready := s.ready + 1, sleeping := s.sleeping - {p})
            && run'.queue == run.queue[item.uid := A.Ready(item.attempt)]
  {
    var item := s.sleeping[p].Again();
    var s1 := M.Next(s, M.Wake(p));
    ExtendedEnds(run, s, M.Wake(p));
    var run1 := Extended(run, s, M.Wake(p));
    Entered(p, item);
    assert s1.resending == map[p := item];
    ResendActs(run1.queue, s1, p);
    ExtendedEnds(run1, s1, M.SendAgain(p));
    run' := Extended(run1, s1, M.SendAgain(p));
    s' := M.Next(s1, M.SendAgain(p));
    assert R.Acts(s, M.Wake(p)) == [];
  }

  lemma WakeClosedRun(run: Run, s: M.State, p: M.Proc) returns (run': Run, s': M.State)
    requires EndsIn(run, s) && Idle(s) && !s.open && p in s.sleeping
    ensures EndsIn(run', s') && run'.labels == run.labels + [M.Wake(p), M.SendAgain(p), M.Undo(p)]
    ensures s' == s.(sleeping := s.sleeping - {p})
  {
    var item := s.sleeping[p].Again();
    var s1 := M.Next(s, M.Wake(p));
    ExtendedEnds(run, s, M.Wake(p));
    run' := Extended(run, s, M.Wake(p));
    Entered(p, item);
    assert s1.resending == map[p := item];
    run', s' := SendUndone(run', s1, p, M.SendAgain(p));
  }

  /** A pending item's nack. */
  lemma NackRun(run: Run, s: M.State, id: nat, p: M.Proc) returns (run': Run, s': M.State)
    requires EndsIn(run, s) && p !in M.Busy(s)
    ensures EndsIn(run', s') && run'.labels == run.labels + [M.Nack(id, p)]
    ensures id in s.pending ==> s' == s.(pending := s.pending - {id}, sleeping := s.sleeping[p := s.pending[id]])
    ensures id !in s.pending ==> s' == s
    ensures s.open ==>
      run'.queue == if id in s.pending then run.queue[s.pending[id].uid := A.Delayed(s.pending[id].attempt + 1)]
                    else run.queue
  {
    if s.open && id in s.pending {
      PendingHeld(run.queue, s, id);
    }
    ExtendedEnds(run, s, M.Nack(id, p));
    run' := Extended(run, s, M.Nack(id, p));
    s' := M.Next(s, M.Nack(id, p));
  }

  datatype QueueError = ChannelClosed | InvalidTokenLength

  datatype Dequeued = Dequeued(id: EmailId, attempt: nat, token: Bytes)

  /**
   * Between two calls no operation is under way. `run` is the run of atomic steps the calls so far amount to;
   * `run.queue` is what the queue is to its users while the channel is open.
   */
  class MemoryQueue {
    var open: bool
    var channel: seq<M.Item>
    var pending: map<nat, M.Item>
    var nextToken: nat
    var readyCount: int
    var sleeping: map<M.Proc, M.Item>
    var delays: map<M.Proc, nat>
    ghost var issued: set<nat>
    ghost var run: Run

    constructor ()
      ensures Valid() && Snap() == M.Init && delays == map[] && run.queue == map[]
    {
      open, channel, pending, nextToken, readyCount := true, [], map[], 0, 0;
      sleeping, delays, issued := map[], map[], {};
      run := Run([M.Init], [], [], map[]);
      new;
      R.RefinesInit();
    }

    /** The object as a state of the atomic machine with no operation under way. */
    ghost function Snap(): M.State
      reads this
    {
      M.State(open, channel, pending, nextToken, readyCount, map[], map[], {}, map[], map[], map[], sleeping, issued)
    }

    ghost predicate Valid()
      reads this
    {
      EndsIn(run, Snap())
    }

    /** The count of ready items; never negative, even after the channel has closed. */
    method Pending() returns (n: int)
      requires Valid()
      ensures n >= 0 && (open ==> n == |channel| == |ReadyItems(run.queue)|)
    {
      n := readyCount;
      EndsInSteady(run, Snap());
      if open {
        ChannelIsReady(Snap(), run.queue);
      }
    }

    /** Increment, then send; a closed channel undoes the increment and reports the error. */
    method Enqueue(m: EmailId, uid: nat, ghost p: M.Proc) returns (r: Result<(), QueueError>)
      requires Valid() && uid !in issued && p !in M.Busy(Snap())
      modifies this
      ensures Valid() && open == old(open) && r == if old(open) then Ok(()) else Err(ChannelClosed)
      ensures run.labels == old(run.labels) + [M.Add(p, M.Item(uid, m, 1)), M.SendNew(p)]
                            + if old(open) then [] else [M.Undo(p)]
      ensures open ==> channel == old(channel) + [M.Item(uid, m, 1)]
      ensures open ==> uid !in old(run.queue) && run.queue == old(run.queue)[uid := A.Ready(1)]
      ensures nextToken == old(nextToken) && delays == old(delays)
    {
      var item := M.Item(uid, m, 1);
      ghost var after;
      if open {
        run, after := EnqueueRun(run, Snap(), p, item);
      } else {
        run, after := EnqueueClosedRun(run, Snap(), p, item);
      }
      readyCount := readyCount + 1;
      issued := issued + {uid};
      if open {
        channel := channel + [item];
        r := Ok(());
      } else {
        readyCount := readyCount - 1;
        r := Err(ChannelClosed);
      }
      assert Snap() == after;
    }

    /** Receive, decrement, take a token, insert. None stands for waiting on an empty open channel. */
    method Dequeue(ghost p: M.Proc) returns (r: Result<Option<Dequeued>, QueueError>, ghost uid: nat)
      requires Valid() && p !in M.Busy(Snap()) && nextToken <= U64_MAX
      modifies this
      ensures Valid() && open == old(open) && delays == old(delays)
      ensures old(channel) == [] ==>
        Snap() == old(Snap()) && run == old(run) && r == if old(open) then Ok(None) else Err(ChannelClosed)
      ensures old(channel) != [] ==>
        && run.labels == old(run.labels) + [M.Receive(p), M.Decrement(p), M.TakeToken(p), M.Insert(p)]
        && r.Ok? && r.value.Some?
        && r.value.value.id == old(channel)[0].email && r.value.value.attempt == old(channel)[0].attempt
        && |r.value.value.token| == 8 && FromLittleEndian(r.value.value.token) == old(nextToken)
        && channel == old(channel)[1..] && nextToken == old(nextToken) + 1
        && pending == old(pending)[old(nextToken) := old(channel)[0]]
      ensures old(channel) != [] && open ==>
        && uid in old(run.queue) && old(run.queue)[uid] == A.Ready(r.value.value.attempt)
        && run.queue == old(run.queue)[uid := A.Held(r.value.value.attempt)]
    {
      uid := 0;
      if channel == [] {
        return if open then Ok(None) else Err(ChannelClosed), uid;
      }
      var item := channel[0];
      uid := item.uid;
      ghost var after;
      run, after := ReceiveRun(run, Snap(), p);
      run, after := TokenRun(run, after, p, item);
      channel := channel[1..];
      readyCount := readyCount - 1;
      var token := nextToken;
      nextToken := nextToken + 1;
      pending := pending[token := item];
      assert Snap() == after;
      U64Range();
      TokenRoundTrip(token, 8);
      r := Ok(Some(Dequeued(item.email, item.attempt, ToLittleEndian(token, 8))));
    }

    /** A pending item is done; an unknown token changes nothing. */
    method Ack(token: Bytes) returns (r: Result<(), QueueError>)
      requires Valid()
      modifies this
      ensures Valid() && open == old(open) && delays == old(delays)
      ensures |token| != 8 ==> r == Err(InvalidTokenLength) && Snap() == old(Snap()) && run == old(run)
      ensures |token| == 8 ==>
        && r == Ok(()) && pending == old(pending) - {FromLittleEndian(token)}
        && run.labels == old(run.labels) + [M.Ack(FromLittleEndian(token))]
      ensures |token| == 8 && open ==>
        var id := FromLittleEndian(token);
        run.queue == if id in old(pending) then old(run.queue)[old(pending)[id].uid := A.Done] else old(run.queue)
    {
      if |token| != 8 {
        return Err(InvalidTokenLength);
      }
      var id := FromLittleEndian(token);
      if open && id in pending {
        PendingHeld(run.queue, Snap(), id);
      }
      ExtendedEnds(run, Snap(), M.Ack(id));
      run := Extended(run, Snap(), M.Ack(id));
      pending := pending - {id};
      r := Ok(());
    }

    /** A pending item goes to sleep as task `p` for `delayMs`; an unknown token changes nothing. */
    method Nack(token: Bytes, delayMs: nat, p: M.Proc) returns (r: Result<(), QueueError>)
      requires Valid() && p !in M.Busy(Snap())
      modifies this
      ensures Valid() && open == old(open)
      ensures |token| != 8 ==>
        r == Err(InvalidTokenLength) && Snap() == old(Snap()) && run == old(run) && delays == old(delays)
      ensures |token| == 8 ==>
        var id := FromLittleEndian(token);
        && r == Ok(()) && run.labels == old(run.labels) + [M.Nack(id, p)]
        && if id in old(pending) then
             && pending == old(pending) - {id} && sleeping == old(sleeping)[p := old(pending)[id]]
             && delays == old(delays)[p := delayMs]
           else Snap() == old(Snap()) && delays == old(delays)
      ensures |token| == 8 && open ==>
        var id := FromLittleEndian(token);
        run.queue == if id in old(pending)
                     then old(run.queue)[old(pending)[id].uid := A.Delayed(old(pending)[id].attempt + 1)]
                     else old(run.queue)
    {
      if |token| != 8 {
        return Err(InvalidTokenLength);
      }
      var id := FromLittleEndian(token);
      ghost var after;
      run, after := NackRun(run, Snap(), id, p);
      if id in pending {
        var item := pending[id];
        pending := pending - {id};
        sleeping := sleeping[p := item];
        delays := delays[p := delayMs];
      }
      assert Snap() == after;
      r := Ok(());
    }

    /** What the spawned task does once its delay is over. */
    method Wake(p: M.Proc)
      requires Valid() && p in sleeping
      modifies this
      ensures Valid() && open == old(open) && sleeping == old(sleeping) - {p} && delays == old(delays) - {p}
      ensures run.labels == old(run.labels) + [M.Wake(p), M.SendAgain(p)] + if old(open) then [] else [M.Undo(p)]
      ensures open ==>
        var item := old(sleeping)[p].Again();
        && channel == old(channel) + [item]
        && run.queue == old(run.queue)[item.uid := A.Ready(item.attempt)]
    {
      var item := sleeping[p];
      ghost var after;
      if open {
        run, after := WakeRun(run, Snap(), p);
      } else {
        run, after := WakeClosedRun(run, Snap(), p);
      }
      sleeping := sleeping - {p};
      delays := delays - {p};
      readyCount := readyCount + 1;
      if open {
        channel := channel + [M.Item(item.uid, item.email, item.attempt + 1)];
      } else {
        readyCount := readyCount - 1;
      }
      assert Snap() == after;
    }

    /** Dropping the queue closes its channel; tasks still asleep will find it closed. */
    method Drop()
      requires Valid()
      modifies this
      ensures Valid() && !open && channel == [] && sleeping == old(sleeping)
      ensures run.labels == old(run.labels) + [M.Close]
    {
      ExtendedEnds(run, Snap(), M.Close);
      run := Extended(run, Snap(), M.Close);
      open, channel := false, [];
    }
  }
}
