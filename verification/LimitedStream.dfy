/** Size limits on attachment streams: the wrapping reader of the HTTP adapter and the fetcher's `take(max + 1)`. */
module LimitedStream {
  import opened Core

  datatype ReadError = TooLarge | Broken

  /** One poll of an asynchronous reader: an empty `Ready` into a non-empty buffer is the end of the stream. */
  datatype Poll = Pending | Ready(bytes: Bytes) | Failed(error: ReadError)

  /** What limiting a stream to `max` bytes means. */
  function Limited(data: Bytes, max: nat): Result<Bytes, ReadError> {
    if |data| <= max then Ok(data) else Err(TooLarge)
  }

  /**
   * Any reader of `data`: `chunk` decides how much each poll yields, `breaks` which polls fail; it may answer
   * Pending only finitely often, `patience` times.
   */
  class Source {
    const data: Bytes
    const chunk: nat -> nat
    const breaks: nat -> bool
    const stalls: nat -> bool
    var pos: nat
    var polls: nat
    var patience: nat

    predicate Valid()
      reads this
    {
      pos <= |data|
    }

    method PollRead(cap: nat) returns (r: Poll)
      requires Valid()
      modifies this
      ensures Valid() && polls == old(polls) + 1
      ensures r.Pending? ==> patience < old(patience) && pos == old(pos)
      ensures !r.Pending? ==> patience == old(patience)
      ensures r.Failed? ==> r.error == Broken && pos == old(pos) && breaks(old(polls))
      ensures r.Ready? ==>
        && |r.bytes| <= cap && pos == old(pos) + |r.bytes| && r.bytes == data[old(pos)..pos]
        && (r.bytes == [] ==> cap == 0 || pos == |data|)
    {
      var now := polls;
      polls := polls + 1;
      if stalls(now) && patience > 0 {
        patience := patience - 1;
        return Pending;
      }
      if breaks(now) {
        return Failed(Broken);
      }
      var most := Min(cap, |data| - pos);
      var n := if most == 0 then 0 else 1 + chunk(now) % most;
      r := Ready(data[pos..pos + n]);
      pos := pos + n;
    }
  }

  /** `LimitedReader`; `delivered` is what its caller has received so far. */
  class LimitedReader {
    const inner: Source
    const max: nat
    var remaining: nat
    var exhausted: bool
    ghost var delivered: Bytes

    constructor (inner: Source, max: nat)
      requires inner.Valid() && inner.pos == 0
      ensures Valid() && this.inner == inner && this.max == max && !exhausted && delivered == []
    {
      this.inner := inner;
      this.max := max;
      remaining := max;
      exhausted := false;
      delivered := [];
    }

    ghost predicate Valid()
      reads this, inner
    {
      && inner.Valid()
      && |delivered| + remaining == max
      && delivered <= inner.data
      && (if exhausted then remaining == 0 && |inner.data| > max else inner.pos == |delivered|)
    }

    method PollRead(cap: nat) returns (r: Poll)
      requires Valid()
      modifies this, inner
      ensures Valid()
      ensures r.Ready? ==> delivered == old(delivered) + r.bytes && |r.bytes| <= cap && remaining <= old(remaining)
      ensures !r.Ready? ==> delivered == old(delivered) && remaining == old(remaining)
      ensures r.Ready? && r.bytes == [] && cap > 0 ==> delivered == inner.data
      ensures r == Failed(TooLarge) ==> |inner.data| > max && delivered == inner.data[..max] && exhausted
      ensures r == Failed(Broken) ==> inner.breaks(old(inner.polls)) && inner.polls > old(inner.polls)
      ensures old(exhausted) ==> exhausted && r == Failed(TooLarge)
      ensures r.Pending? ==> inner.patience < old(inner.patience)
      ensures inner.patience <= old(inner.patience) && inner.polls >= old(inner.polls)
    {
      if exhausted {
        return Failed(TooLarge);
      }
      if remaining == 0 {
        var probe := inner.PollRead(1);
        if probe.Ready? && probe.bytes != [] {
          exhausted := true;
          return Failed(TooLarge);
        }
        return probe;
      }
      var child := inner.PollRead(Min(remaining, cap));
      if child.Ready? {
        remaining := remaining - |child.bytes|;
        delivered := delivered + child.bytes;
      }
      r := child;
    }
  }

  /** Some poll of the source from number `from` on failed. */
  ghost predicate Interrupted(s: Source, from: nat) {
    exists n :: n >= from && s.breaks(n)
  }

  /** Reads until the end with buffers of any sizes. */
  method ReadToEnd(l: LimitedReader, cap: nat -> nat) returns (r: Result<Bytes, ReadError>, got: Bytes)
    requires l.Valid() && l.delivered == [] && forall n :: cap(n) > 0
    modifies l, l.inner
    ensures l.Valid() && got == l.delivered
    ensures r == Limited(l.inner.data, l.max) || (r == Err(Broken) && Interrupted(l.inner, old(l.inner.polls)))
    ensures r.Ok? ==> got == l.inner.data
    ensures r == Err(TooLarge) ==> got == l.inner.data[..l.max] && l.exhausted
  {
    got := [];
    var n := 0;
    while true
      invariant l.Valid() && got == l.delivered && l.inner.polls >= old(l.inner.polls)
      decreases l.inner.patience + l.remaining
    {
      ghost var polls := l.inner.polls;
      var p := l.PollRead(cap(n));
      n := n + 1;
      match p {
        case Pending =>
        case Failed(e) =>
          if e.Broken? {
            assert l.inner.breaks(polls);
          }
          return Err(e), got;
        case Ready(bytes) =>
          got := got + bytes;
          if bytes == [] {
            return Ok(got), got;
          }
      }
    }
  }

  /** The fetcher: reject by announced length, else take at most one byte more than allowed and compare. */
  method FetchBody(s: Source, contentLength: Option<nat>, max: nat, cap: nat -> nat)
    returns (r: Result<Bytes, ReadError>)
    requires s.Valid() && s.pos == 0 && max < U64_MAX && forall n :: cap(n) > 0
    modifies s
    ensures
      if contentLength.Some? && contentLength.value > max then r == Err(TooLarge)
      else r == Limited(s.data, max) || (r == Err(Broken) && Interrupted(s, old(s.polls)))
  {
    if contentLength.Some? && contentLength.value > max {
      return Err(TooLarge);
    }
    var buf: Bytes := [];
    var limit := max + 1;
    var n := 0;
    while limit > 0
      invariant s.Valid() && s.pos == |buf| && buf == s.data[..s.pos] && limit >= 0 && |buf| + limit == max + 1
      invariant s.polls >= old(s.polls)
      decreases s.patience + limit
    {
      ghost var polls := s.polls;
      var p := s.PollRead(Min(limit, cap(n)));
      n := n + 1;
      match p {
        case Pending =>
        case Failed(e) =>
          assert s.breaks(polls);
          return Err(e);
        case Ready(bytes) =>
          buf := buf + bytes;
          limit := limit - |bytes|;
          assert buf == s.data[..s.pos];
          if bytes == [] {
            break;
          }
      }
    }
    assert buf == s.data[..s.pos];
    if |buf| == max + 1 {
      return Err(TooLarge);
    }
    assert buf == s.data;
    r := Ok(buf);
  }
}
