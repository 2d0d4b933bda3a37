/** What one worker task does with a dequeued email, one awaited call at a time. */
module WorkerTask {
  import opened Core

  datatype SendError = SendFailed(sender: SenderName) | NoMatchingRoute {
    predicate IsTransient() {
      SendFailed?
    }
  }

  datatype ProcessError =
    | Resolve
    | Interpolate
    | Render
    | AttachmentResolve
    | Send(source: SendError)
  {
    function Sender(): Option<SenderName> {
      match this
      case Send(SendFailed(s)) => Some(s)
      case _ => None
    }

    function Class(): ErrorClass {
      match this
      case Resolve => TemplateResolve
      case Interpolate => TemplateInterpolate
      case Render => TemplateRender
      case AttachmentResolve => Attachment
      case Send(SendFailed(_)) => Delivery
      case Send(NoMatchingRoute) => Routing
    }
  }

  datatype ErrorClass = TemplateResolve | TemplateInterpolate | TemplateRender | Attachment | Delivery | Routing

  datatype Event =
    | Queued(id: EmailId)
    | Sending(id: EmailId, attempt: nat)
    | Sent(id: EmailId, via: SenderName)
    | Retrying(id: EmailId, attempt: nat, errorClass: ErrorClass, sender: Option<SenderName>)
    | Failed(id: EmailId, attempt: nat, errorClass: ErrorClass, sender: Option<SenderName>)
  {
    predicate IsTerminal() {
      Sent? || Failed?
    }
  }

  /** The queue drops an email for good when retrying cannot help or the attempts are used up. */
  predicate GivesUp(err: ProcessError, attempt: nat) {
    (err.Send? && !err.source.IsTransient()) || attempt >= MAX_ATTEMPTS
  }

  // ---------------------------------------------------------------------------
  // The task as a state machine
  // ---------------------------------------------------------------------------

  /** The call the task is about to await. */
  datatype Pc =
    | Starting
    | Executing
    | AckingSent(via: SenderName)
    | ClearingRefs(via: SenderName)
    | DeletingBlobs(via: SenderName, next: nat)
    | AckingFailed(err: ProcessError)
    | Nacking(err: ProcessError)
    | Publishing(event: Event)
    | Done

  /** A finished call with its answer. */
  datatype Call =
    | PublishCall(event: Event, ok: bool)
    | ExecuteCall(outcome: Result<SenderName, ProcessError>)
    | AckCall(ok: bool)
    | NackCall(delayMs: nat, ok: bool)
    | ClearRefsCall(ok: bool)
    | DeleteBlobCall(key: Key, ok: bool)

  /** `resolvedAt` is when the task's ack or nack took effect. */
  datatype Task = Task(
    entry: EntryId,
    email: EmailId,
    refs: seq<Key>,
    attempt: nat,
    claimedAt: nat,
    resolvedAt: nat,
    pc: Pc
  ) {
    /** The task still has to settle its queue entry. */
    predicate Holding() {
      pc.Starting? || pc.Executing? || pc.AckingSent? || pc.AckingFailed? || pc.Nacking?
    }

    /** The task has acked its entry and not finished yet. */
    predicate Settled() {
      pc.ClearingRefs? || pc.DeletingBlobs? || (pc.Publishing? && pc.event.IsTerminal())
    }
  }

  function FreshTask(e: EntryId, m: EmailId, refs: seq<Key>, attempt: nat, now: nat): Task {
    Task(e, m, refs, attempt, now, now, Starting)
  }

  /** After `i` attachments have been handled. */
  function Cleanup(t: Task, via: SenderName, i: nat): Pc {
    if i < |t.refs| then DeletingBlobs(via, i) else Publishing(Sent(t.email, via))
  }

  /** `c` answers the call `t` is waiting for. */
  predicate Awaits(t: Task, c: Call) {
    match t.pc
    case Starting => c.PublishCall? && c.event == Sending(t.email, t.attempt)
    case Executing => c.ExecuteCall?
    case AckingSent(_) => c.AckCall?
    case ClearingRefs(_) => c.ClearRefsCall?
    case DeletingBlobs(_, i) => i < |t.refs| && c.DeleteBlobCall? && c.key == t.refs[i]
    case AckingFailed(_) => c.AckCall?
    case Nacking(err) =>
      !GivesUp(err, t.attempt) && c.NackCall? && c.delayMs == RetryDelayMs(t.attempt)
    case Publishing(ev) => c.PublishCall? && c.event == ev
    case Done => false
  }

  /** Where the task goes once `c` has answered at time `now`. */
  function After(t: Task, c: Call, now: nat): Task
    requires Awaits(t, c)
  {
    match t.pc
    case Starting => t.(pc := Executing)
    case Executing =>
      (match c.outcome
       case Ok(via) => t.(pc := AckingSent(via))
       case Err(err) => t.(pc := if GivesUp(err, t.attempt) then AckingFailed(err) else Nacking(err)))
    case AckingSent(via) => if c.ok then t.(pc := ClearingRefs(via), resolvedAt := now) else t.(pc := Done)
    case ClearingRefs(via) => t.(pc := Cleanup(t, via, 0))
    case DeletingBlobs(via, i) => t.(pc := Cleanup(t, via, i + 1))
    case AckingFailed(err) =>
      if c.ok then
        t.(pc := Publishing(Failed(t.email, t.attempt, err.Class(), err.Sender())), resolvedAt := now)
      else t.(pc := Done)
    case Nacking(err) =>
      if c.ok then
        t.(pc := Publishing(Retrying(t.email, t.attempt, err.Class(), err.Sender())), resolvedAt := now)
      else t.(pc := Done)
    case Publishing(_) => t.(pc := Done)
  }

  /** The calls in `log`, in order, take `t` to `u` with the clock standing at `now`. */
  predicate Runs(t: Task, log: seq<Call>, u: Task, now: nat)
    decreases |log|
  {
    if log == [] then t == u
    else Awaits(t, log[0]) && Runs(After(t, log[0], now), log[1..], u, now)
  }

  // ---------------------------------------------------------------------------
  // The task as the program the worker spawns
  // ---------------------------------------------------------------------------

  /** The ports a task calls; `script` decides which calls succeed, `outcome` what processing yields. */
  class Ports {
    var log: seq<Call>
    const script: nat -> bool
    const outcome: Result<SenderName, ProcessError>

    constructor (script: nat -> bool, outcome: Result<SenderName, ProcessError>)
      ensures log == [] && this.script == script && this.outcome == outcome
    {
      log := [];
      this.script := script;
      this.outcome := outcome;
    }

    method Publish(ev: Event) returns (ok: bool)
      modifies this
      ensures ok == script(|old(log)|) && log == old(log) + [PublishCall(ev, ok)]
    {
      ok := script(|log|);
      log := log + [PublishCall(ev, ok)];
    }

    method Execute() returns (r: Result<SenderName, ProcessError>)
      modifies this
      ensures r == outcome && log == old(log) + [ExecuteCall(r)]
    {
      r := outcome;
      log := log + [ExecuteCall(r)];
    }

    method Ack() returns (ok: bool)
      modifies this
      ensures ok == script(|old(log)|) && log == old(log) + [AckCall(ok)]
    {
      ok := script(|log|);
      log := log + [AckCall(ok)];
    }

    method Nack(delayMs: nat) returns (ok: bool)
      modifies this
      ensures ok == script(|old(log)|) && log == old(log) + [NackCall(delayMs, ok)]
    {
      ok := script(|log|);
      log := log + [NackCall(delayMs, ok)];
    }

    method ClearRefs() returns (ok: bool)
      modifies this
      ensures ok == script(|old(log)|) && log == old(log) + [ClearRefsCall(ok)]
    {
      ok := script(|log|);
      log := log + [ClearRefsCall(ok)];
    }

    method DeleteBlob(k: Key) returns (ok: bool)
      modifies this
      ensures ok == script(|old(log)|) && log == old(log) + [DeleteBlobCall(k, ok)]
    {
      ok := script(|log|);
      log := log + [DeleteBlobCall(k, ok)];
    }
  }

  /** The blob deletions after a successful send: one per attachment, in order, whatever they answer. */
  function Deletions(refs: seq<Key>, script: nat -> bool, at: nat): (calls: seq<Call>)
    ensures |calls| == |refs|
  {
    seq(|refs|, (i: nat) requires i < |refs| => DeleteBlobCall(refs[i], script(at + i)))
  }

  /** What follows a successful send. */
  function SentCalls(t: Task, via: SenderName, script: nat -> bool): seq<Call> {
    if !script(2) then [AckCall(false)]
    else [AckCall(true), ClearRefsCall(script(3))]
         + Deletions(t.refs, script, 4)
         + [PublishCall(Sent(t.email, via), script(4 + |t.refs|))]
  }

  /** What follows a failure: settle the entry, then announce it only if settling worked. */
  function FailedCalls(t: Task, err: ProcessError, script: nat -> bool): seq<Call> {
    var event := if GivesUp(err, t.attempt)
                 then Failed(t.email, t.attempt, err.Class(), err.Sender())
                 else Retrying(t.email, t.attempt, err.Class(), err.Sender());
    [if GivesUp(err, t.attempt) then AckCall(script(2)) else NackCall(RetryDelayMs(t.attempt), script(2))]
    + if script(2) then [PublishCall(event, script(3))] else []
  }

  /** Everything a task calls, given how its calls answer. */
  function Transcript(t: Task, outcome: Result<SenderName, ProcessError>, script: nat -> bool): seq<Call> {
    [PublishCall(Sending(t.email, t.attempt), script(0)), ExecuteCall(outcome)]
    + match outcome
      case Ok(via) => SentCalls(t, via, script)
      case Err(err) => FailedCalls(t, err, script)
  }

  lemma {:induction false} RunsConcat(t: Task, a: seq<Call>, u: Task, b: seq<Call>, v: Task, now: nat)
    requires Runs(t, a, u, now) && Runs(u, b, v, now)
    ensures Runs(t, a + b, v, now)
    decreases |a|
  {
    if a == [] {
      assert a + b == b;
    } else {
      RunsConcat(After(t, a[0], now), a[1..], u, b, v, now);
      assert (a + b)[1..] == a[1..] + b;
    }
  }

  lemma RunsOne(t: Task, c: Call, now: nat)
    requires Awaits(t, c)
    ensures Runs(t, [c], After(t, c, now), now)
  {
  }

  lemma RunsTwo(t: Task, c: Call, d: Call, now: nat)
    requires Awaits(t, c) && Awaits(After(t, c, now), d)
    ensures Runs(t, [c, d], After(After(t, c, now), d, now), now)
  {
  }

  lemma {:induction false} DeletionsRun(t: Task, via: SenderName, script: nat -> bool, n: nat, now: nat)
    requires n <= |t.refs| && t.pc == Cleanup(t, via, 0)
    ensures Runs(t, Deletions(t.refs, script, 4)[..n], t.(pc := Cleanup(t, via, n)), now)
  {
    if n > 0 {
      DeletionsRun(t, via, script, n - 1, now);
      var calls := Deletions(t.refs, script, 4);
      var u := t.(pc := Cleanup(t, via, n - 1));
      RunsOne(u, calls[n - 1], now);
      RunsConcat(t, calls[..n - 1], u, [calls[n - 1]], t.(pc := Cleanup(t, via, n)), now);
      assert calls[..n - 1] + [calls[n - 1]] == calls[..n];
    } else {
      assert Deletions(t.refs, script, 4)[..0] == [];
    }
  }

  lemma SentRuns(t: Task, via: SenderName, script: nat -> bool, now: nat) returns (end: Task)
    requires t.pc == AckingSent(via)
    ensures end.pc.Done? && Runs(t, SentCalls(t, via, script), end, now)
  {
    if !script(2) {
      end := t.(pc := Done);
      RunsOne(t, AckCall(false), now);
    } else {
      var cleared := t.(pc := Cleanup(t, via, 0), resolvedAt := now);
      RunsTwo(t, AckCall(true), ClearRefsCall(script(3)), now);
      var deletions := Deletions(t.refs, script, 4);
      DeletionsRun(cleared, via, script, |t.refs|, now);
      assert deletions[..|t.refs|] == deletions;
      var last := PublishCall(Sent(t.email, via), script(4 + |t.refs|));
      var tail := cleared.(pc := Publishing(Sent(t.email, via)));
      end := tail.(pc := Done);
      RunsOne(tail, last, now);
      RunsConcat(t, [AckCall(true), ClearRefsCall(script(3))], cleared, deletions, tail, now);
      RunsConcat(t, [AckCall(true), ClearRefsCall(script(3))] + deletions, tail, [last], end, now);
    }
  }

  lemma FailedRuns(t: Task, err: ProcessError, script: nat -> bool, now: nat) returns (end: Task)
    requires t.pc == if GivesUp(err, t.attempt) then AckingFailed(err) else Nacking(err)
    ensures end.pc.Done? && Runs(t, FailedCalls(t, err, script), end, now)
  {
    var calls := FailedCalls(t, err, script);
    var settled := After(t, calls[0], now);
    if script(2) {
      end := After(settled, calls[1], now);
      RunsTwo(t, calls[0], calls[1], now);
      assert calls == [calls[0], calls[1]];
    } else {
      end := settled;
      RunsOne(t, calls[0], now);
      assert calls == [calls[0]];
    }
  }

  /** Every transcript is a complete run of the task's state machine. */
  lemma TranscriptRuns(t: Task, outcome: Result<SenderName, ProcessError>, script: nat -> bool, now: nat)
    returns (end: Task)
    requires t.pc.Starting?
    ensures end.pc.Done? && Runs(t, Transcript(t, outcome, script), end, now)
  {
    var first := PublishCall(Sending(t.email, t.attempt), script(0));
    RunsTwo(t, first, ExecuteCall(outcome), now);
    var u := After(After(t, first, now), ExecuteCall(outcome), now);
    match outcome
    case Ok(via) =>
      end := SentRuns(u, via, script, now);
      assert SentCalls(u, via, script) == SentCalls(t, via, script);
      RunsConcat(t, [first, ExecuteCall(outcome)], u, SentCalls(t, via, script), end, now);
    case Err(err) =>
      end := FailedRuns(u, err, script, now);
      assert FailedCalls(u, err, script) == FailedCalls(t, err, script);
      RunsConcat(t, [first, ExecuteCall(outcome)], u, FailedCalls(t, err, script), end, now);
  }

  /** The arm of `process_one` for a delivered email. */
  method SettleSent(p: Ports, t: Task, via: SenderName)
    requires |p.log| == 2
    modifies p
    ensures p.log == old(p.log) + SentCalls(t, via, p.script)
  {
    var ok := p.Ack();
    if !ok {
      return;
    }
    ok := p.ClearRefs();
    ghost var head := p.log;
    ghost var deletions := Deletions(t.refs, p.script, 4);
    var i := 0;
    while i < |t.refs|
      invariant 0 <= i <= |t.refs|
      invariant p.log == head + deletions[..i]
    {
      ok := p.DeleteBlob(t.refs[i]);
      assert deletions[..i + 1] == deletions[..i] + [deletions[i]];
      i := i + 1;
    }
    assert deletions[..i] == deletions;
    ok := p.Publish(Sent(t.email, via));
  }

  /** The arm of `process_one` for a failed attempt. */
  method SettleFailed(p: Ports, t: Task, err: ProcessError)
    requires |p.log| == 2
    modifies p
    ensures p.log == old(p.log) + FailedCalls(t, err, p.script)
  {
    var event;
    var ok;
    if GivesUp(err, t.attempt) {
      ok := p.Ack();
      if !ok {
        return;
      }
      event := Failed(t.email, t.attempt, err.Class(), err.Sender());
    } else {
      ok := p.Nack(RetryDelayMs(t.attempt));
      if !ok {
        return;
      }
      event := Retrying(t.email, t.attempt, err.Class(), err.Sender());
    }
    ok := p.Publish(event);
  }

  /**
   * `process_one`, call for call. The second postcondition makes its calls a complete run of the
   * machine, so every theorem about interleaved machines speaks about this code.
   */
  method ProcessOne(p: Ports, t: Task, now: nat) returns (ghost end: Task)
    requires p.log == [] && t.pc.Starting?
    modifies p
    ensures p.log == Transcript(t, p.outcome, p.script)
    ensures end.pc.Done? && Runs(t, p.log, end, now)
  {
    var ok := p.Publish(Sending(t.email, t.attempt));
    var r := p.Execute();
    match r {
      case Ok(via) =>
        SettleSent(p, t, via);
      case Err(err) =>
        SettleFailed(p, t, err);
    }
    end := TranscriptRuns(t, p.outcome, p.script, now);
  }
}
