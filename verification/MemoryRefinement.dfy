/** At every atomic step the in-memory queue is the abstract queue: no item is lost or doubled, no token reused. */
module MemoryRefinement {
  import opened Core
  import opened MemoryAtoms
  import A = AbstractQueue

  // ---------------------------------------------------------------------------
  // Tokens
  // ---------------------------------------------------------------------------

  predicate TokensOk(s: State) {
    && (forall t :: t in s.pending ==> t < s.nextToken)
    && (forall p :: p in s.ticketed ==> s.ticketed[p].token < s.nextToken && s.ticketed[p].token !in s.pending)
    && (forall p, r :: p in s.ticketed && r in s.ticketed && p != r ==> s.ticketed[p].token != s.ticketed[r].token)
  }

  lemma TokensStep(s: State, l: Label)
    requires TokensOk(s) && Enabled(s, l)
    ensures TokensOk(Next(s, l)) && s.nextToken <= Next(s, l).nextToken
  {
  }

  /** `token` was handed out and has been settled. */
  predicate Spent(s: State, token: nat) {
    token < s.nextToken && token !in s.pending && forall p :: p in s.ticketed ==> s.ticketed[p].token != token
  }

  lemma SpentStep(s: State, l: Label, token: nat)
    requires TokensOk(s) && Enabled(s, l) && Spent(s, token)
    ensures Spent(Next(s, l), token)
    ensures (l == Ack(token) || (l.Nack? && l.token == token)) ==> Next(s, l) == s
  {
  }

  lemma {:induction false} ReachableTokens(states: seq<State>, labels: seq<Label>, i: nat)
    requires IsRun(states, labels) && i < |states|
    ensures TokensOk(states[i])
  {
    if i > 0 {
      ReachableTokens(states, labels, i - 1);
      TokensStep(states[i - 1], labels[i - 1]);
    }
  }

  lemma {:induction false} SpentForever(states: seq<State>, labels: seq<Label>, i: nat, j: nat, token: nat)
    requires IsRun(states, labels) && i <= j < |states| && Spent(states[i], token)
    ensures Spent(states[j], token)
    decreases j
  {
    if i < j {
      SpentForever(states, labels, i, j - 1, token);
      ReachableTokens(states, labels, j - 1);
      SpentStep(states[j - 1], labels[j - 1], token);
    }
  }

  /** Once a pending token has been acked or nacked, every later ack or nack of it changes nothing. */
  lemma SettlingTwice(states: seq<State>, labels: seq<Label>, i: nat, j: nat, token: nat)
    requires IsRun(states, labels) && i < j < |labels| && token in states[i].pending
    requires labels[i] == Ack(token) || (labels[i].Nack? && labels[i].token == token)
    requires labels[j] == Ack(token) || (labels[j].Nack? && labels[j].token == token)
    ensures states[j + 1] == states[j]
  {
    ReachableTokens(states, labels, i);
    assert Spent(states[i + 1], token);
    SpentForever(states, labels, i + 1, j, token);
    ReachableTokens(states, labels, j);
    SpentStep(states[j], labels[j], token);
  }

  // ---------------------------------------------------------------------------
  // Places
  // ---------------------------------------------------------------------------

  /** Everywhere an item can be. */
  datatype Place =
    | InChannel(i: nat)
    | BeingAdded(p: Proc)
    | BeingResent(p: Proc)
    | JustReceived(p: Proc)
    | JustCounted(p: Proc)
    | WithTicket(p: Proc)
    | InPending(token: nat)
    | Asleep(p: Proc)

  function At(s: State, x: Place): Option<Item> {
    match x
    case InChannel(i) => if i < |s.channel| then Some(s.channel[i]) else None
    case BeingAdded(p) => if p in s.adding then Some(s.adding[p]) else None
    case BeingResent(p) => if p in s.resending then Some(s.resending[p]) else None
    case JustReceived(p) => if p in s.received then Some(s.received[p]) else None
    case JustCounted(p) => if p in s.counted then Some(s.counted[p]) else None
    case WithTicket(p) => if p in s.ticketed then Some(s.ticketed[p].item) else None
    case InPending(t) => if t in s.pending then Some(s.pending[t]) else None
    case Asleep(p) => if p in s.sleeping then Some(s.sleeping[p]) else None
  }

  /** What being in a place means to the abstract queue; an item being added is not in it yet. */
  predicate Reads(q: A.Queue, x: Place, item: Item) {
    match x
    case BeingAdded(_) => item.uid !in q && item.attempt == 1
    case InChannel(_) => item.uid in q && q[item.uid] == A.Ready(item.attempt)
    case BeingResent(_) => item.uid in q && q[item.uid] == A.Delayed(item.attempt)
    case Asleep(_) => item.uid in q && q[item.uid] == A.Delayed(item.attempt + 1)
    case _ => item.uid in q && q[item.uid] == A.Held(item.attempt)
  }

  ghost predicate Agrees(s: State, q: A.Queue) {
    && (forall x :: At(s, x).Some? ==> At(s, x).value.uid in s.issued && Reads(q, x, At(s, x).value))
    && (forall u :: u in q ==> u in s.issued)
  }

  /** No item is in two places. */
  ghost predicate Unique(s: State) {
    forall x, y :: At(s, x).Some? && At(s, y).Some? && At(s, x).value.uid == At(s, y).value.uid ==> x == y
  }

  /** No item that is not done is nowhere. */
  ghost predicate Complete(s: State, q: A.Queue) {
    forall u :: u in q && !q[u].Done? ==> exists x :: At(s, x).Some? && At(s, x).value.uid == u
  }

  ghost predicate Refines(s: State, q: A.Queue) {
    Agrees(s, q) && Unique(s) && Complete(s, q)
  }

  predicate Steady(s: State) {
    s.open && Apart(s) && TokensOk(s)
  }

  /** Where the item at `y` after the step was before it; a freshly added item was nowhere. */
  function Back(s: State, l: Label, y: Place): Place {
    match l
    case SendNew(p) => if s.open && y == InChannel(|s.channel|) then BeingAdded(p) else y
    case SendAgain(p) => if s.open && y == InChannel(|s.channel|) then BeingResent(p) else y
    case Receive(p) =>
      if y == JustReceived(p) then InChannel(0) else if y.InChannel? then InChannel(y.i + 1) else y
    case Decrement(p) => if y == JustCounted(p) then JustReceived(p) else y
    case TakeToken(p) => if y == WithTicket(p) then JustCounted(p) else y
    case Insert(p) =>
      if p in s.ticketed && y == InPending(s.ticketed[p].token) then WithTicket(p) else y
    case Nack(token, p) => if token in s.pending && y == Asleep(p) then InPending(token) else y
    case Wake(p) => if y == BeingResent(p) then Asleep(p) else y
    case _ => y
  }

  /** Where the item at `x` before the step is after it. */
  function Onward(s: State, l: Label, x: Place): Place {
    match l
    case SendNew(p) => if s.open && x == BeingAdded(p) then InChannel(|s.channel|) else x
    case SendAgain(p) => if s.open && x == BeingResent(p) then InChannel(|s.channel|) else x
    case Receive(p) =>
      if x == InChannel(0) then JustReceived(p) else if x.InChannel? then InChannel(x.i - 1) else x
    case Decrement(p) => if x == JustReceived(p) then JustCounted(p) else x
    case TakeToken(p) => if x == JustCounted(p) then WithTicket(p) else x
    case Insert(p) =>
      if p in s.ticketed && x == WithTicket(p) then InPending(s.ticketed[p].token) else x
    case Nack(token, p) => if token in s.pending && x == InPending(token) then Asleep(p) else x
    case Wake(p) => if x == Asleep(p) then BeingResent(p) else x
    case _ => x
  }

  predicate CameFrom(s: State, l: Label, s': State, y: Place) {
    if l.Add? && y == BeingAdded(l.p) then At(s', y) == Some(l.item)
    else
      var x := Back(s, l, y);
      At(s, x).Some? && At(s', y).Some? && At(s, x).value.uid == At(s', y).value.uid && Onward(s, l, x) == y
  }

  predicate Sends(l: Label) {
    l.SendNew? || l.SendAgain?
  }

  predicate Settles(l: Label) {
    l.Ack? || l.Nack?
  }

  lemma BackSend(s: State, l: Label, s': State, y: Place)
    requires Steady(s) && Enabled(s, l) && s' == Next(s, l) && Sends(l) && At(s', y).Some?
    ensures CameFrom(s, l, s', y)
  {
  }

  lemma BackProducer(s: State, l: Label, s': State, y: Place)
    requires Steady(s) && Enabled(s, l) && s' == Next(s, l) && ByProducer(l) && !Sends(l) && At(s', y).Some?
    ensures CameFrom(s, l, s', y)
  {
  }

  lemma BackReceive(s: State, l: Label, s': State, y: Place)
    requires Steady(s) && Enabled(s, l) && s' == Next(s, l) && l.Receive? && At(s', y).Some?
    ensures CameFrom(s, l, s', y)
  {
  }

  lemma BackSettle(s: State, l: Label, s': State, y: Place)
    requires Steady(s) && Enabled(s, l) && s' == Next(s, l) && Settles(l) && At(s', y).Some?
    ensures CameFrom(s, l, s', y)
  {
  }

  lemma BackConsumer(s: State, l: Label, s': State, y: Place)
    requires Steady(s) && Enabled(s, l) && s' == Next(s, l) && !ByProducer(l) && !l.Receive? && !l.Close? && !Settles(l)
    requires At(s', y).Some?
    ensures CameFrom(s, l, s', y)
  {
  }

  /** Every item was somewhere before the step, unless the step added it. */
  lemma BackOk(s: State, l: Label, s': State, y: Place)
    requires Steady(s) && Enabled(s, l) && s' == Next(s, l) && !l.Close? && At(s', y).Some?
    ensures CameFrom(s, l, s', y)
  {
    if Sends(l) {
      BackSend(s, l, s', y);
    } else if ByProducer(l) {
      BackProducer(s, l, s', y);
    } else if l.Receive? {
      BackReceive(s, l, s', y);
    } else if Settles(l) {
      BackSettle(s, l, s', y);
    } else {
      BackConsumer(s, l, s', y);
    }
  }

  predicate WentOn(s: State, l: Label, s': State, x: Place) {
    var y := Onward(s, l, x);
    At(s, x).Some? && At(s', y).Some? && At(s, x).value.uid == At(s', y).value.uid
  }

  lemma OnwardSend(s: State, l: Label, s': State, x: Place)
    requires Steady(s) && Enabled(s, l) && s' == Next(s, l) && Sends(l) && At(s, x).Some?
    ensures WentOn(s, l, s', x)
  {
  }

  lemma OnwardProducer(s: State, l: Label, s': State, x: Place)
    requires Steady(s) && Enabled(s, l) && s' == Next(s, l) && ByProducer(l) && !Sends(l) && At(s, x).Some?
    ensures WentOn(s, l, s', x)
  {
  }

  lemma OnwardReceive(s: State, l: Label, s': State, x: Place)
    requires Steady(s) && Enabled(s, l) && s' == Next(s, l) && l.Receive? && At(s, x).Some?
    ensures WentOn(s, l, s', x)
  {
  }

  lemma OnwardSettle(s: State, l: Label, s': State, x: Place)
    requires Steady(s) && Enabled(s, l) && s' == Next(s, l) && Settles(l)
    requires At(s, x).Some? && !(l.Ack? && x == InPending(l.token))
    ensures WentOn(s, l, s', x)
  {
  }

  lemma OnwardConsumer(s: State, l: Label, s': State, x: Place)
    requires Steady(s) && Enabled(s, l) && s' == Next(s, l) && !ByProducer(l) && !l.Receive? && !l.Close? && !Settles(l)
    requires At(s, x).Some?
    ensures WentOn(s, l, s', x)
  {
  }

  /** Every item is somewhere after the step, unless the step acked it. */
  lemma OnwardOk(s: State, l: Label, s': State, x: Place)
    requires Steady(s) && Enabled(s, l) && s' == Next(s, l) && !l.Close?
    requires At(s, x).Some? && !(l.Ack? && x == InPending(l.token))
    ensures WentOn(s, l, s', x)
  {
    if Sends(l) {
      OnwardSend(s, l, s', x);
    } else if ByProducer(l) {
      OnwardProducer(s, l, s', x);
    } else if l.Receive? {
      OnwardReceive(s, l, s', x);
    } else if Settles(l) {
      OnwardSettle(s, l, s', x);
    } else {
      OnwardConsumer(s, l, s', x);
    }
  }

  // ---------------------------------------------------------------------------
  // Simulation
  // ---------------------------------------------------------------------------

  /** The place whose item changes its abstract state in this step, if any. */
  function Source(s: State, l: Label): Option<Place> {
    match l
    case SendNew(p) => Some(BeingAdded(p))
    case SendAgain(p) => Some(BeingResent(p))
    case Receive(p) => Some(InChannel(0))
    case Ack(token) => if token in s.pending then Some(InPending(token)) else None
    case Nack(token, _) => if token in s.pending then Some(InPending(token)) else None
    case _ => None
  }

  /** What a step is to the abstract queue. */
  function Acts(s: State, l: Label): seq<A.Act>
  {
    if Source(s, l).None? || At(s, Source(s, l).value).None? then []
    else
      var u := At(s, Source(s, l).value).value.uid;
      [ if l.SendNew? then A.Enqueue(u) else if l.SendAgain? then A.Release({u})
        else if l.Receive? then A.Claim(u) else if l.Ack? then A.Ack(u) else A.Nack(u) ]
  }

  function After(q: A.Queue, acts: seq<A.Act>): A.Queue {
    if |acts| == 1 && A.Enabled(q, acts[0]) then A.Perform(q, acts[0]) else q
  }

  lemma ActsEnabled(s: State, l: Label, q: A.Queue)
    requires Steady(s) && Refines(s, q) && Enabled(s, l)
    ensures A.Leads(q, Acts(s, l), After(q, Acts(s, l)))
    ensures |Acts(s, l)| == 1 ==> A.Enabled(q, Acts(s, l)[0])
  {
  }

  /** The abstract state of every item but the source's is untouched. */
  lemma OthersUntouched(s: State, l: Label, q: A.Queue, u: nat)
    requires Steady(s) && Refines(s, q) && Enabled(s, l)
    requires Acts(s, l) != [] ==> u != At(s, Source(s, l).value).value.uid
    ensures var q' := After(q, Acts(s, l)); (u in q' <==> u in q) && (u in q ==> q'[u] == q[u])
  {
  }

  /** The item that moves reads as the abstract queue now says. */
  lemma AgreesMoved(s: State, l: Label, s': State, q: A.Queue, y: Place)
    requires Steady(s) && Refines(s, q) && Enabled(s, l) && s' == Next(s, l) && !l.Close?
    requires At(s', y).Some? && Acts(s, l) != [] && Source(s, l) == Some(Back(s, l, y))
    ensures Reads(After(q, Acts(s, l)), y, At(s', y).value)
  {
    var x := Back(s, l, y);
    ActsEnabled(s, l, q);
    assert Reads(q, x, At(s, x).value);
  }

  lemma AgreesAt(s: State, l: Label, s': State, q: A.Queue, y: Place)
    requires Steady(s) && Refines(s, q) && Enabled(s, l) && s' == Next(s, l) && !l.Close?
    requires At(s', y).Some?
    ensures At(s', y).value.uid in s'.issued && Reads(After(q, Acts(s, l)), y, At(s', y).value)
  {
    BackOk(s, l, s', y);
    if !(l.Add? && y == BeingAdded(l.p)) {
      var x := Back(s, l, y);
      assert Reads(q, x, At(s, x).value) && s.issued <= s'.issued;
      if Acts(s, l) != [] && Source(s, l) == Some(x) {
        AgreesMoved(s, l, s', q, y);
      } else {
        AgreesRest(s, l, s', q, y);
      }
    }
  }

  lemma AgreesRest(s: State, l: Label, s': State, q: A.Queue, y: Place)
    requires Steady(s) && Refines(s, q) && Enabled(s, l) && s' == Next(s, l) && !l.Close?
    requires At(s', y).Some? && !(l.Add? && y == BeingAdded(l.p))
    requires Acts(s, l) == [] || Source(s, l) != Some(Back(s, l, y))
    ensures Reads(After(q, Acts(s, l)), y, At(s', y).value)
  {
    BackOk(s, l, s', y);
    var x := Back(s, l, y);
    assert Reads(q, x, At(s, x).value);
    OthersUntouched(s, l, q, At(s, x).value.uid);
    StaysAt(s, l, s', y);
  }

  /** An item whose abstract state does not change reads the same in its old and new place. */
  lemma StaysAt(s: State, l: Label, s': State, y: Place)
    requires Steady(s) && Enabled(s, l) && s' == Next(s, l) && !l.Close? && At(s', y).Some?
    requires !(l.Add? && y == BeingAdded(l.p))
    requires Acts(s, l) == [] || Source(s, l) != Some(Back(s, l, y))
    ensures At(s, Back(s, l, y)).Some?
    ensures forall q :: Reads(q, Back(s, l, y), At(s, Back(s, l, y)).value) ==> Reads(q, y, At(s', y).value)
  {
    BackOk(s, l, s', y);
  }

  lemma UniqueStep(s: State, l: Label, s': State)
    requires Steady(s) && Unique(s) && Enabled(s, l) && s' == Next(s, l) && !l.Close?
    requires forall x :: At(s, x).Some? ==> At(s, x).value.uid in s.issued
    ensures Unique(s')
  {
    forall x, y | At(s', x).Some? && At(s', y).Some? && At(s', x).value.uid == At(s', y).value.uid
      ensures x == y
    {
      BackOk(s, l, s', x);
      BackOk(s, l, s', y);
    }
  }

  lemma CompleteStep(s: State, l: Label, s': State, q: A.Queue)
    requires Steady(s) && Refines(s, q) && Enabled(s, l) && s' == Next(s, l) && !l.Close?
    ensures Complete(s', After(q, Acts(s, l)))
  {
    var q' := After(q, Acts(s, l));
    forall u | u in q' && !q'[u].Done? ensures exists y :: At(s', y).Some? && At(s', y).value.uid == u {
      var x: Place;
      if Acts(s, l) != [] && u == At(s, Source(s, l).value).value.uid {
        x := Source(s, l).value;
        ActsEnabled(s, l, q);
      } else {
        OthersUntouched(s, l, q, u);
        x :| At(s, x).Some? && At(s, x).value.uid == u;
      }
      OnwardOk(s, l, s', x);
      assert At(s', Onward(s, l, x)).Some?;
    }
  }

  lemma RefinesStep(s: State, l: Label, s': State, q: A.Queue)
    requires Steady(s) && Refines(s, q) && Enabled(s, l) && s' == Next(s, l) && !l.Close?
    ensures Refines(s', After(q, Acts(s, l)))
  {
    var q' := After(q, Acts(s, l));
    forall y | At(s', y).Some?
      ensures At(s', y).value.uid in s'.issued && Reads(q', y, At(s', y).value)
    {
      AgreesAt(s, l, s', q, y);
    }
    UniqueStep(s, l, s');
    CompleteStep(s, l, s', q);
    forall u | u in q' ensures u in s'.issued {
      if Acts(s, l) == [] || u != At(s, Source(s, l).value).value.uid {
        OthersUntouched(s, l, q, u);
      }
    }
  }

  ghost function Trace(states: seq<State>, labels: seq<Label>, k: nat): seq<A.Act>
    requires IsRun(states, labels) && k < |states|
  {
    if k == 0 then [] else Trace(states, labels, k - 1) + Acts(states[k - 1], labels[k - 1])
  }

  lemma RefinesInit()
    ensures Refines(Init, map[])
  {
  }

  ghost predicate NeverClosed(labels: seq<Label>) {
    forall i :: 0 <= i < |labels| ==> !labels[i].Close?
  }

  lemma OpenStep(s: State, l: Label)
    requires s.open && Enabled(s, l) && !l.Close?
    ensures Next(s, l).open
  {
  }

  lemma {:induction false} SteadyRun(states: seq<State>, labels: seq<Label>, k: nat)
    requires IsRun(states, labels) && k < |states| && NeverClosed(labels)
    ensures Steady(states[k])
  {
    CounterExact(states, labels, k);
    ReachableTokens(states, labels, k);
    if k > 0 {
      SteadyRun(states, labels, k - 1);
      OpenStep(states[k - 1], labels[k - 1]);
    }
  }

  lemma {:induction false} NeverAbandoned(states: seq<State>, labels: seq<Label>, k: nat, i: nat)
    requires IsRun(states, labels) && k < |states| && i < |Trace(states, labels, k)|
    ensures !Trace(states, labels, k)[i].Abandon?
  {
    if k > 0 && i < |Trace(states, labels, k - 1)| {
      NeverAbandoned(states, labels, k - 1, i);
    }
  }

  /** Every run of the in-memory queue whose channel stays open is a run of the abstract queue. */
  lemma {:induction false} RunRefines(states: seq<State>, labels: seq<Label>, k: nat) returns (q: A.Queue)
    requires IsRun(states, labels) && k < |states| && NeverClosed(labels)
    ensures Refines(states[k], q) && A.Leads(map[], Trace(states, labels, k), q)
  {
    if k == 0 {
      q := map[];
      RefinesInit();
    } else {
      var s, l := states[k - 1], labels[k - 1];
      var r := RunRefines(states, labels, k - 1);
      SteadyRun(states, labels, k - 1);
      q := After(r, Acts(s, l));
      ActsEnabled(s, l, r);
      RefinesStep(s, l, states[k], r);
      A.LeadsConcat(map[], Trace(states, labels, k - 1), r, Acts(s, l), q);
    }
  }

  /** The attempt number an item carries is one more than its nacks; one asleep is due for the next. */
  lemma AttemptNumber(states: seq<State>, labels: seq<Label>, k: nat, x: Place)
    requires IsRun(states, labels) && k < |states|
    requires NeverClosed(labels)
    requires At(states[k], x).Some? && !x.BeingAdded?
    ensures var item := At(states[k], x).value;
            item.attempt + (if x.Asleep? then 1 else 0) == 1 + A.Nacks(Trace(states, labels, k), item.uid)
  {
    var q := RunRefines(states, labels, k);
    assert Reads(q, x, At(states[k], x).value);
    var acts, uid := Trace(states, labels, k), At(states[k], x).value.uid;
    A.AttemptsCount(acts, q, uid);
    forall i | 0 <= i < |acts| ensures !acts[i].Abandon? {
      NeverAbandoned(states, labels, k, i);
    }
    A.SetbacksAreNacks(acts, uid);
  }
}
