/** The queue as its users think of it: every item is ready, held, delayed or done, in no order. */
module AbstractQueue {

  type ItemId = nat

  /** `attempt` is the attempt under way for a held item and the next one for a ready or delayed item. */
  datatype Item = Ready(attempt: nat) | Held(attempt: nat) | Delayed(attempt: nat) | Done

  type Queue = map<ItemId, Item>

  /** `Abandon`: the holder vanished without settling. `Release`: delays ran out. */
  datatype Act =
    | Enqueue(i: ItemId)
    | Claim(i: ItemId)
    | Ack(i: ItemId)
    | Nack(i: ItemId)
    | Abandon(i: ItemId)
    | Release(due: set<ItemId>)

  predicate Enabled(q: Queue, a: Act) {
    match a
    case Enqueue(i) => i !in q
    case Claim(i) => i in q && q[i].Ready?
    case Ack(i) => i in q && q[i].Held?
    case Nack(i) => i in q && q[i].Held?
    case Abandon(i) => i in q && q[i].Held?
    case Release(due) => forall i :: i in due ==> i in q && q[i].Delayed?
  }

  function Perform(q: Queue, a: Act): Queue
    requires Enabled(q, a)
  {
    match a
    case Enqueue(i) => q[i := Ready(1)]
    case Claim(i) => q[i := Held(q[i].attempt)]
    case Ack(i) => q[i := Done]
    case Nack(i) => q[i := Delayed(q[i].attempt + 1)]
    case Abandon(i) => q[i := Delayed(q[i].attempt + 1)]
    case Release(due) => map i | i in q :: if i in due then Ready(q[i].attempt) else q[i]
  }

  /** `acts`, in order, lead from `q` to `r`. */
  predicate Leads(q: Queue, acts: seq<Act>, r: Queue)
    decreases |acts|
  {
    if acts == [] then q == r else Enabled(q, acts[0]) && Leads(Perform(q, acts[0]), acts[1..], r)
  }

  lemma {:induction false} LeadsConcat(q: Queue, a: seq<Act>, r: Queue, b: seq<Act>, t: Queue)
    requires Leads(q, a, r) && Leads(r, b, t)
    ensures Leads(q, a + b, t)
    decreases |a|
  {
    if a == [] {
      assert a + b == b;
    } else {
      LeadsConcat(Perform(q, a[0]), a[1..], r, b, t);
      assert (a + b)[1..] == a[1..] + b;
    }
  }

  /** How often an attempt at `i` ended without an ack. */
  function Setbacks(acts: seq<Act>, i: ItemId): nat {
    if acts == [] then 0
    else (if acts[0] == Nack(i) || acts[0] == Abandon(i) then 1 else 0) + Setbacks(acts[1..], i)
  }

  /** How often `i` was nacked. */
  function Nacks(acts: seq<Act>, i: ItemId): nat {
    if acts == [] then 0 else (if acts[0] == Nack(i) then 1 else 0) + Nacks(acts[1..], i)
  }

  /** Where nobody abandons an attempt, the setbacks are the nacks. */
  lemma {:induction false} SetbacksAreNacks(acts: seq<Act>, i: ItemId)
    requires forall x :: 0 <= x < |acts| ==> !acts[x].Abandon?
    ensures Setbacks(acts, i) == Nacks(acts, i)
  {
    if acts != [] {
      SetbacksAreNacks(acts[1..], i);
    }
  }

  lemma {:induction false} SetbacksFrom(q: Queue, acts: seq<Act>, r: Queue, i: ItemId)
    requires Leads(q, acts, r)
    ensures i in q ==> i in r
    ensures i in q && !r[i].Done? ==> !q[i].Done? && r[i].attempt == q[i].attempt + Setbacks(acts, i)
    ensures i !in q && i in r && !r[i].Done? ==> r[i].attempt == 1 + Setbacks(acts, i)
    decreases |acts|
  {
    if acts != [] {
      SetbacksFrom(Perform(q, acts[0]), acts[1..], r, i);
    }
  }

  /** From the empty queue on, an item's attempt number is one more than its setbacks. */
  lemma AttemptsCount(acts: seq<Act>, r: Queue, i: ItemId)
    requires Leads(map[], acts, r) && i in r && !r[i].Done?
    ensures r[i].attempt == 1 + Setbacks(acts, i)
  {
    SetbacksFrom(map[], acts, r, i);
  }

  /** A done item stays done: nothing claims, acks, nacks or releases it again. */
  lemma {:induction false} DoneStays(q: Queue, acts: seq<Act>, r: Queue, i: ItemId)
    requires Leads(q, acts, r) && i in q && q[i].Done?
    ensures i in r && r[i].Done?
    decreases |acts|
  {
    if acts != [] {
      DoneStays(Perform(q, acts[0]), acts[1..], r, i);
    }
  }
}
