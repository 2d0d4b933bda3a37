/**
 * The in-memory queue at the grain of its atomic operations: the counter, the channel, the token counter
 * and the pending map are touched one at a time by any number of tasks.
 */
module MemoryAtoms {
  import opened Core

  /** What travels through the channel; `uid` tells apart the items of different `enqueue` calls. */
  datatype Item = Item(uid: nat, email: EmailId, attempt: nat) {
    function Again(): Item {
      Item(uid, email, attempt + 1)
    }
  }

  type Proc = nat

  datatype Ticket = Ticket(item: Item, token: nat)

  /**
   * The shared state, then the tasks in the middle of an operation: `enqueue` and a woken nack between
   * increment and send (`adding`, `resending`) or after a failed send (`undoing`), `dequeue` between
   * receive, decrement, token and insertion, and nacked items waiting for their delay. `issued` only
   * keeps the identity of items apart.
   */
  datatype State = State(
    open: bool,
    channel: seq<Item>,
    pending: map<nat, Item>,
    nextToken: nat,
    ready: int,
    adding: map<Proc, Item>,
    resending: map<Proc, Item>,
    undoing: set<Proc>,
    received: map<Proc, Item>,
    counted: map<Proc, Item>,
    ticketed: map<Proc, Ticket>,
    sleeping: map<Proc, Item>,
    issued: set<nat>
  )

  const Init: State := State(true, [], map[], 0, 0, map[], map[], {}, map[], map[], map[], map[], {})

  datatype Label =
    | Add(p: Proc, item: Item)
    | SendNew(p: Proc)
    | SendAgain(p: Proc)
    | Undo(p: Proc)
    | Receive(p: Proc)
    | Decrement(p: Proc)
    | TakeToken(p: Proc)
    | Insert(p: Proc)
    | Ack(token: nat)
    | Nack(token: nat, p: Proc)
    | Wake(p: Proc)
    | Close

  function Busy(s: State): set<Proc> {
    s.adding.Keys + s.resending.Keys + s.undoing + s.received.Keys + s.counted.Keys + s.ticketed.Keys
    + s.sleeping.Keys
  }

  predicate Enabled(s: State, l: Label) {
    match l
    case Add(p, item) => p !in Busy(s) && item.attempt == 1 && item.uid !in s.issued
    case SendNew(p) => p in s.adding
    case SendAgain(p) => p in s.resending
    case Undo(p) => p in s.undoing
    case Receive(p) => p !in Busy(s) && s.channel != []
    case Decrement(p) => p in s.received
    case TakeToken(p) => p in s.counted
    case Insert(p) => p in s.ticketed
    case Ack(_) => true
    case Nack(_, p) => p !in Busy(s)
    case Wake(p) => p in s.sleeping
    case Close => true
  }

  function DoAdd(s: State, p: Proc, item: Item): State {
    s.(ready := s.ready + 1, adding := s.adding[p := item], issued := s.issued + {item.uid})
  }

  function DoSendNew(s: State, p: Proc): State
    requires p in s.adding
  {
    if s.open then s.(channel := s.channel + [s.adding[p]], adding := s.adding - {p})
    else s.(undoing := s.undoing + {p}, adding := s.adding - {p})
  }

  function DoSendAgain(s: State, p: Proc): State
    requires p in s.resending
  {
    if s.open then s.(channel := s.channel + [s.resending[p]], resending := s.resending - {p})
    else s.(undoing := s.undoing + {p}, resending := s.resending - {p})
  }

  function DoUndo(s: State, p: Proc): State {
    s.(ready := s.ready - 1, undoing := s.undoing - {p})
  }

  function DoReceive(s: State, p: Proc): State
    requires s.channel != []
  {
    s.(channel := s.channel[1..], received := s.received[p := s.channel[0]])
  }

  function DoDecrement(s: State, p: Proc): State
    requires p in s.received
  {
    s.(ready := s.ready - 1, received := s.received - {p}, counted := s.counted[p := s.received[p]])
  }

  function DoTakeToken(s: State, p: Proc): State
    requires p in s.counted
  {
    s.(nextToken := s.nextToken + 1, counted := s.counted - {p},
       ticketed := s.ticketed[p := Ticket(s.counted[p], s.nextToken)])
  }

  function DoInsert(s: State, p: Proc): State
    requires p in s.ticketed
  {
    var t := s.ticketed[p];
    s.(pending := s.pending[t.token := t.item], ticketed := s.ticketed - {p})
  }

  function DoAck(s: State, token: nat): State {
    s.(pending := s.pending - {token})
  }

  function DoNack(s: State, token: nat, p: Proc): State {
    if token in s.pending then s.(pending := s.pending - {token}, sleeping := s.sleeping[p := s.pending[token]])
    else s
  }

  function DoWake(s: State, p: Proc): State
    requires p in s.sleeping
  {
    s.(ready := s.ready + 1, sleeping := s.sleeping - {p},
       resending := s.resending[p := s.sleeping[p].Again()])
  }

  /** The last receiver goes away and takes the channel's contents with it. */
  function DoClose(s: State): State {
    s.(open := false, channel := [])
  }

  function Next(s: State, l: Label): State
    requires Enabled(s, l)
  {
    match l
    case Add(p, item) => DoAdd(s, p, item)
    case SendNew(p) => DoSendNew(s, p)
    case SendAgain(p) => DoSendAgain(s, p)
    case Undo(p) => DoUndo(s, p)
    case Receive(p) => DoReceive(s, p)
    case Decrement(p) => DoDecrement(s, p)
    case TakeToken(p) => DoTakeToken(s, p)
    case Insert(p) => DoInsert(s, p)
    case Ack(token) => DoAck(s, token)
    case Nack(token, p) => DoNack(s, token, p)
    case Wake(p) => DoWake(s, p)
    case Close => DoClose(s)
  }

  ghost predicate IsRun(states: seq<State>, labels: seq<Label>) {
    && |states| == |labels| + 1
    && states[0] == Init
    && forall i :: 0 <= i < |labels| ==> Enabled(states[i], labels[i]) && states[i + 1] == Next(states[i], labels[i])
  }

  // ---------------------------------------------------------------------------
  // The counter
  // ---------------------------------------------------------------------------

  /** Tasks between an increment and the matching send or rollback. */
  function Producing(s: State): int {
    |s.adding.Keys| + |s.resending.Keys| + |s.undoing|
  }

  /** Exact while the channel is open, and at no time less than what is about to be subtracted. */
  predicate CounterOk(s: State) {
    && (!s.open ==> s.channel == [])
    && (s.open ==> s.ready == |s.channel| + Producing(s) + |s.received.Keys|)
    && s.ready >= Producing(s) + |s.received.Keys|
  }

  /** A task is in the middle of one operation at a time. */
  predicate Apart(s: State) {
    && s.adding.Keys !! s.resending.Keys !! s.undoing !! s.received.Keys !! s.counted.Keys !! s.ticketed.Keys
       !! s.sleeping.Keys
  }

  lemma CardRemove(a: set<Proc>, p: Proc)
    requires p in a
    ensures |a - {p}| == |a| - 1
  {
  }

  lemma CounterAdd(s: State, p: Proc, item: Item)
    requires CounterOk(s) && p !in s.adding.Keys
    ensures CounterOk(DoAdd(s, p, item))
  {
  }

  lemma CounterSendNew(s: State, p: Proc)
    requires CounterOk(s) && p in s.adding && p !in s.undoing
    ensures CounterOk(DoSendNew(s, p))
  {
  }

  lemma CounterSendAgain(s: State, p: Proc)
    requires CounterOk(s) && p in s.resending && p !in s.undoing
    ensures CounterOk(DoSendAgain(s, p))
  {
  }

  lemma CounterUndo(s: State, p: Proc)
    requires CounterOk(s) && Apart(s) && p in s.undoing
    ensures CounterOk(DoUndo(s, p))
  {
  }

  lemma CounterReceive(s: State, p: Proc)
    requires CounterOk(s) && p !in s.received.Keys && s.channel != []
    ensures CounterOk(DoReceive(s, p))
  {
  }

  lemma CounterDecrement(s: State, p: Proc)
    requires CounterOk(s) && Apart(s) && p in s.received
    ensures CounterOk(DoDecrement(s, p))
  {
    CardRemove(s.received.Keys, p);
    assert DoDecrement(s, p).received.Keys == s.received.Keys - {p};
  }

  lemma CounterWake(s: State, p: Proc)
    requires CounterOk(s) && p in s.sleeping && p !in s.resending.Keys
    ensures CounterOk(DoWake(s, p))
  {
  }

  lemma CounterQuiet(s: State, s': State)
    requires CounterOk(s) && s'.open == s.open && s'.channel == s.channel && s'.ready == s.ready
    requires s'.adding == s.adding && s'.resending == s.resending && s'.undoing == s.undoing
    requires s'.received == s.received
    ensures CounterOk(s')
  {
  }

  predicate ByProducer(l: Label) {
    l.Add? || l.SendNew? || l.SendAgain? || l.Undo? || l.Wake?
  }

  lemma CounterProducer(s: State, l: Label, s': State)
    requires CounterOk(s) && Apart(s) && Enabled(s, l) && s' == Next(s, l) && ByProducer(l)
    ensures CounterOk(s')
  {
    match l
    case Add(p, item) => CounterAdd(s, p, item);
    case SendNew(p) => CounterSendNew(s, p);
    case SendAgain(p) => CounterSendAgain(s, p);
    case Undo(p) => CounterUndo(s, p);
    case Wake(p) => CounterWake(s, p);
  }

  lemma CounterStep(s: State, l: Label, s': State)
    requires CounterOk(s) && Apart(s) && Enabled(s, l) && s' == Next(s, l)
    ensures CounterOk(s')
  {
    if ByProducer(l) {
      CounterProducer(s, l, s');
    } else if l.Receive? {
      CounterReceive(s, l.p);
    } else if l.Decrement? {
      CounterDecrement(s, l.p);
    } else if !l.Close? {
      CounterQuiet(s, s');
    }
  }

  lemma ApartAdd(s: State, p: Proc, item: Item)
    requires Apart(s) && p !in Busy(s)
    ensures Apart(DoAdd(s, p, item))
  {
  }

  lemma ApartSendNew(s: State, p: Proc)
    requires Apart(s) && p in s.adding
    ensures Apart(DoSendNew(s, p))
  {
  }

  lemma ApartSendAgain(s: State, p: Proc)
    requires Apart(s) && p in s.resending
    ensures Apart(DoSendAgain(s, p))
  {
  }

  lemma ApartUndo(s: State, p: Proc)
    requires Apart(s) && p in s.undoing
    ensures Apart(DoUndo(s, p))
  {
  }

  lemma ApartWake(s: State, p: Proc)
    requires Apart(s) && p in s.sleeping
    ensures Apart(DoWake(s, p))
  {
  }

  lemma ApartProducer(s: State, l: Label)
    requires Apart(s) && Enabled(s, l) && ByProducer(l)
    ensures Apart(Next(s, l))
  {
    match l
    case Add(p, item) => ApartAdd(s, p, item);
    case SendNew(p) => ApartSendNew(s, p);
    case SendAgain(p) => ApartSendAgain(s, p);
    case Undo(p) => ApartUndo(s, p);
    case Wake(p) => ApartWake(s, p);
  }

  lemma ApartStep(s: State, l: Label)
    requires Apart(s) && Enabled(s, l)
    ensures Apart(Next(s, l))
  {
    if ByProducer(l) {
      ApartProducer(s, l);
    } else {
      match l
      case Receive(p) =>
      case Decrement(p) =>
      case TakeToken(p) =>
      case Insert(p) =>
      case Ack(token) =>
      case Nack(token, p) =>
      case Close =>
    }
  }

  /**
   * At every interleaved step the counter is the channel's length plus the operations under way, and no
   * subtraction ever takes it below zero, not even after the channel has closed.
   */
  lemma {:induction false} CounterExact(states: seq<State>, labels: seq<Label>, i: nat)
    requires IsRun(states, labels) && i < |states|
    ensures Apart(states[i]) && CounterOk(states[i]) && states[i].ready >= 0
  {
    if i > 0 {
      CounterExact(states, labels, i - 1);
      CounterStep(states[i - 1], labels[i - 1], states[i]);
      ApartStep(states[i - 1], labels[i - 1]);
    }
  }
}
