/** The calls of one `execute` are steps of the pipeline, and the pipeline gives a submission no other steps. */
module SubmitSteps {
  import opened Core
  import opened LeaseTable
  import opened Pipeline
  import opened PipelineInvariant
  import S = SubmitSaga
  import W = WorkerTask

  /** The step a call of `m` is; fetching a remote attachment changes nothing there. */
  function LabelOf(m: EmailId, c: S.PortCall, e: EntryId): Option<Label> {
    match c.op
    case Fetch(_) => if c.ok then None else Some(StoreFails(m))
    case PutBlob(k) => Some(if c.ok then Put(m, k) else StoreFails(m))
    case DeleteBlob(_) => Some(UndoBlob(m, c.ok))
    case Save => None
    case SetAttachments => Some(SetRefs(m, c.ok))
    case DeleteRow => Some(UndoRow(m, c.ok))
    case Enqueue => Some(Enqueue(m, e, c.ok))
    case Announce => Some(Announce(m, c.ok))
  }

  /** Generated ids are fresh. */
  predicate Fresh(s: State, c: S.PortCall, e: EntryId) {
    && (c.op.PutBlob? && c.ok ==> c.op.key !in s.ids.keys)
    && (c.op.Enqueue? ==> e !in s.ids.entryOf.Values)
  }

  function Moved(submits: map<EmailId, Submit>, m: EmailId, next: Option<Submit>): map<EmailId, Submit> {
    if next.Some? then submits[m := next.value] else submits - {m}
  }

  function EventsOf(events: seq<Logged>): (out: seq<W.Event>)
    ensures |out| == |events|
  {
    seq(|events|, (i: nat) requires i < |events| => events[i].event)
  }

  function Enqueued<Message>(queue: seq<S.Queued<Message>>): set<EmailId> {
    set i | 0 <= i < |queue| :: queue[i].id
  }

  /** The email rows as the pipeline and as a submission's ports see them. */
  ghost predicate SameEmails<Message>(s: State, w: S.World<Message>) {
    && s.db.emails.Keys == w.emails.Keys
    && forall m :: m in w.emails ==> s.db.emails[m] == S.KeyList(w.emails[m].attachments)
  }

  /** Tables, store, queue and event log on both sides. */
  ghost predicate Mirrors<Message>(s: State, w: S.World<Message>) {
    SameEmails(s, w) && SameElsewhere(s, w)
  }

  ghost predicate SameElsewhere<Message>(s: State, w: S.World<Message>) {
    && s.db.blobs.Keys == w.blobs.Keys
    && s.past.accepted == Enqueued(w.queue)
    && EventsOf(s.db.events) == w.events
  }

  /** What a call does to the entries of the queue. */
  function RowsAfter(s: State, m: EmailId, c: S.PortCall, e: EntryId): Table {
    if c.op.Enqueue? && c.ok then Inserted(s.db.rows, e, m, s.now) else s.db.rows
  }

  lemma EnqueuedMore<Message>(queue: seq<S.Queued<Message>>, q: S.Queued<Message>)
    ensures Enqueued(queue + [q]) == Enqueued(queue) + {q.id}
  {
    var longer := queue + [q];
    forall m | m in Enqueued(queue) + {q.id} ensures m in Enqueued(longer) {
      if m == q.id {
        assert longer[|queue|].id == m;
      } else {
        var i :| 0 <= i < |queue| && queue[i].id == m;
        assert longer[i].id == m;
      }
    }
  }

  /** The pipeline's state after a call that is one of its steps. */
  function StateAfter(c: Config, s: State, m: EmailId, call: S.PortCall, e: EntryId): State
    requires var l := LabelOf(m, call, e); l.Some? ==> Enabled(c, s, l.value)
  {
    var l := LabelOf(m, call, e);
    if l.Some? then Next(c, s, l.value) else s
  }

  lemma CallEnabled(c: Config, s: State, m: EmailId, call: S.PortCall, e: EntryId)
    requires Links(s) && m in s.submits && S.Expects(s.submits[m], call) && Fresh(s, call, e)
    ensures var l := LabelOf(m, call, e); l.Some? ==> Enabled(c, s, l.value)
    ensures call.op.SetAttachments? ==> m in s.db.emails
  {
    assert SubmitOk(s, m);
  }

  /** The submission stands at the same place afterwards. */
  lemma CallMoves(c: Config, s: State, m: EmailId, call: S.PortCall, e: EntryId, s': State)
    requires Links(s) && m in s.submits && S.Expects(s.submits[m], call) && Fresh(s, call, e)
    requires (var l := LabelOf(m, call, e); l.Some? ==> Enabled(c, s, l.value)) && s' == StateAfter(c, s, m, call, e)
    ensures s'.submits == Moved(s.submits, m, S.After(s.submits[m], call)) && s'.db.rows == RowsAfter(s, m, call, e)
  {
    assert SubmitOk(s, m);
  }

  lemma EmailsMirrored<Message(!new)>(
    c: Config, s: State, m: EmailId, call: S.PortCall, e: EntryId, s': State, w: S.World<Message>,
    w': S.World<Message>)
    requires m in s.submits && S.Expects(s.submits[m], call) && (call.op.SetAttachments? ==> m in s.db.emails)
    requires (var l := LabelOf(m, call, e); l.Some? ==> Enabled(c, s, l.value)) && s' == StateAfter(c, s, m, call, e)
    requires SameEmails(s, w) && S.Does(w, w', m, call)
    requires call.op.SetAttachments? && call.ok ==> S.KeyList(w'.emails[m].attachments) == s.submits[m].written
    ensures SameEmails(s', w')
  {
  }

  lemma RestMirrored<Message(!new)>(
    c: Config, s: State, m: EmailId, call: S.PortCall, e: EntryId, s': State, w: S.World<Message>,
    w': S.World<Message>)
    requires m in s.submits && S.Expects(s.submits[m], call)
    requires (var l := LabelOf(m, call, e); l.Some? ==> Enabled(c, s, l.value)) && s' == StateAfter(c, s, m, call, e)
    requires SameElsewhere(s, w) && S.Does(w, w', m, call)
    ensures SameElsewhere(s', w')
  {
    if call.op.Enqueue? && call.ok {
      EnqueuedMore(w.queue, w'.queue[|w.queue|]);
    }
  }

  /**
   * A call the submission may make is a step the pipeline may take. Both go on alike: the submission stands at
   * the same place, a successful enqueue and nothing else adds an entry, and the email rows with their
   * references, the blobs, the accepted emails and the event log are still the same on both sides.
   */
  lemma CallIsStep<Message(!new)>(
    c: Config, s: State, m: EmailId, call: S.PortCall, e: EntryId, w: S.World<Message>, w': S.World<Message>)
    requires Links(s) && m in s.submits && S.Expects(s.submits[m], call) && Fresh(s, call, e)
    requires Mirrors(s, w) && S.Does(w, w', m, call)
    requires call.op.SetAttachments? && call.ok ==> S.KeyList(w'.emails[m].attachments) == s.submits[m].written
    ensures var l := LabelOf(m, call, e); l.Some? ==> Enabled(c, s, l.value)
    ensures var s' := StateAfter(c, s, m, call, e);
      && s'.submits == Moved(s.submits, m, S.After(s.submits[m], call))
      && s'.db.rows == RowsAfter(s, m, call, e) && Mirrors(s', w')
  {
    CallEnabled(c, s, m, call, e);
    var s' := StateAfter(c, s, m, call, e);
    CallMoves(c, s, m, call, e, s');
    EmailsMirrored(c, s, m, call, e, s', w, w');
    RestMirrored(c, s, m, call, e, s', w, w');
  }

  predicate StepOf(l: Label, m: EmailId) {
    (l.Put? || l.StoreFails? || l.SetRefs? || l.Enqueue? || l.Announce? || l.UndoBlob? || l.UndoRow?) && l.m == m
  }

  /** Every step the pipeline gives a submission is one of the calls it may make. */
  lemma StepIsCall(c: Config, s: State, m: EmailId, l: Label) returns (call: S.PortCall, e: EntryId)
    requires m in s.submits && StepOf(l, m) && Enabled(c, s, l)
    ensures S.Expects(s.submits[m], call) && LabelOf(m, call, e) == Some(l) && Fresh(s, call, e)
  {
    e := if l.Enqueue? then l.entry else 0;
    call := match l
      case Put(_, k) => S.PortCall(S.PutBlob(k), true)
      case StoreFails(_) => S.PortCall(S.PutBlob(0), false)
      case SetRefs(_, ok) => S.PortCall(S.SetAttachments, ok)
      case Enqueue(_, _, ok) => S.PortCall(S.Enqueue, ok)
      case Announce(_, ok) => S.PortCall(S.Announce, ok)
      case UndoBlob(_, ok) => S.PortCall(S.DeleteBlob(s.submits[m].pc.todo[0]), ok)
      case UndoRow(_, ok) => S.PortCall(S.DeleteRow, ok);
  }

  /** A put that fails and leaves its blob behind moves the submission as any failing put does. */
  lemma LostPutIsFailedPut(c: Config, s: State, m: EmailId, k: Key)
    requires Enabled(c, s, PutLost(m, k))
    ensures var call := S.PortCall(S.PutBlob(k), false);
      && S.Expects(s.submits[m], call)
      && Next(c, s, PutLost(m, k)).submits == Moved(s.submits, m, S.After(s.submits[m], call))
  {
  }
}
