/** `SubmitEmailService::execute`: reserve a row, store blobs, reference them, enqueue; undo everything on failure. */
module SubmitSaga {
  import opened Core
  import P = Pipeline
  import WorkerTask

  datatype Input =
    | Inline(filename: string, contentType: string, bytes: Bytes)
    | Stream(filename: string, contentType: string, bytes: Bytes)
    | Remote(filename: string, contentType: string, url: string)

  datatype AttachmentRef = AttachmentRef(filename: string, contentType: string, size: nat, key: Key)

  /** `Message` is everything the submission only passes through: subject, recipients, body, variables. */
  datatype Envelope<Message> = Envelope(
    idempotencyKey: Option<string>, message: Message, attachments: seq<AttachmentRef>)

  datatype Queued<Message> = Queued(id: EmailId, envelope: Envelope<Message>)

  datatype SaveResult = Created | Duplicate(existing: EmailId)

  datatype SubmitError = Persist | AttachmentFetch | AttachmentStore | EnqueueFailed

  datatype Op =
    | Fetch(url: string)
    | PutBlob(key: Key)
    | DeleteBlob(key: Key)
    | Save
    | SetAttachments
    | DeleteRow
    | Enqueue
    | Announce

  /** A port call and whether it worked. */
  datatype PortCall = PortCall(op: Op, ok: bool)

  predicate Failed(calls: seq<PortCall>, op: Op) {
    PortCall(op, false) in calls
  }

  /** Some call that explains `e` failed. */
  ghost predicate Explains(calls: seq<PortCall>, e: SubmitError) {
    match e
    case Persist => Failed(calls, Save) || Failed(calls, SetAttachments)
    case AttachmentFetch => exists url :: Failed(calls, Fetch(url))
    case AttachmentStore => exists k :: Failed(calls, PutBlob(k))
    case EnqueueFailed => Failed(calls, Enqueue)
  }

  // ---------------------------------------------------------------------------
  // The calls a submission may make: the submission machine of the pipeline
  // ---------------------------------------------------------------------------

  function Kept(u: P.Submit, k: Key): P.Submit {
    P.Submit(P.AfterStore(u.written + [k], u.total), u.written + [k], u.total)
  }

  function Backing(u: P.Submit): P.Submit {
    u.(pc := P.Undoing(u.written))
  }

  /** `c` is a call the submission may be waiting for. */
  predicate Expects(u: P.Submit, c: PortCall) {
    match u.pc
    case Storing => c.op.Fetch? || c.op.PutBlob?
    case Referencing => c.op.SetAttachments?
    case Enqueueing => c.op.Enqueue?
    case Announcing => c.op.Announce?
    case Undoing(todo) => if todo == [] then c.op.DeleteRow? else c.op == DeleteBlob(todo[0])
  }

  /** Where the submission goes once `c` has answered; None when it has ended. */
  function After(u: P.Submit, c: PortCall): Option<P.Submit>
    requires Expects(u, c)
  {
    match u.pc
    case Storing => if !c.ok then Some(Backing(u)) else if c.op.Fetch? then Some(u) else Some(Kept(u, c.op.key))
    case Referencing => Some(if c.ok then u.(pc := P.Enqueueing) else Backing(u))
    case Enqueueing => Some(if c.ok then u.(pc := P.Announcing) else Backing(u))
    case Announcing => None
    case Undoing(todo) => if todo == [] then None else Some(u.(pc := P.Undoing(todo[1..])))
  }

  /** The calls in order take `u` to `v`. */
  predicate Runs(u: P.Submit, calls: seq<PortCall>, v: Option<P.Submit>)
    decreases |calls|
  {
    if calls == [] then v == Some(u)
    else Expects(u, calls[0])
         && match After(u, calls[0])
            case None => |calls| == 1 && v == None
            case Some(w) => Runs(w, calls[1..], v)
  }

  lemma {:induction false} RunsConcat(
    u: P.Submit, a: seq<PortCall>, v: P.Submit, b: seq<PortCall>, w: Option<P.Submit>)
    requires Runs(u, a, Some(v)) && Runs(v, b, w)
    ensures Runs(u, a + b, w)
    decreases |a|
  {
    if a == [] {
      assert a + b == b;
    } else {
      RunsConcat(After(u, a[0]).value, a[1..], v, b, w);
      assert (a + b)[1..] == a[1..] + b;
    }
  }

  lemma RunsOne(u: P.Submit, c: PortCall)
    requires Expects(u, c)
    ensures Runs(u, [c], After(u, c))
  {
  }

  /** The row was reserved, and the calls since have taken a submission of `n` attachments to `v`. */
  predicate Played(n: nat, calls: seq<PortCall>, v: Option<P.Submit>) {
    && calls != [] && calls[0] == PortCall(Save, true)
    && Runs(P.Submit(P.AfterStore([], n), [], n), calls[1..], v)
  }

  lemma PlayedMore(n: nat, calls: seq<PortCall>, v: P.Submit, more: seq<PortCall>, w: Option<P.Submit>)
    requires Played(n, calls, Some(v)) && Runs(v, more, w)
    ensures Played(n, calls + more, w)
  {
    RunsConcat(P.Submit(P.AfterStore([], n), [], n), calls[1..], v, more, w);
    assert (calls + more)[1..] == calls[1..] + more;
  }

  lemma PlayedOne(n: nat, calls: seq<PortCall>, v: P.Submit, c: PortCall)
    requires Played(n, calls, Some(v)) && Expects(v, c)
    ensures Played(n, calls + [c], After(v, c))
  {
    RunsOne(v, c);
    PlayedMore(n, calls, v, [c], After(v, c));
  }

  /** The whole transcript of one `execute`; `known` says whether its idempotency key was taken. */
  predicate Transcript(n: nat, calls: seq<PortCall>, known: bool) {
    && calls != [] && calls[0].op == Save
    && if calls[0].ok && !known then Played(n, calls, None) else |calls| == 1
  }

  function KeyList(refs: seq<AttachmentRef>): (ks: seq<Key>)
    ensures |ks| == |refs| && forall i :: 0 <= i < |refs| ==> ks[i] == refs[i].key
  {
    seq(|refs|, (i: nat) requires i < |refs| => refs[i].key)
  }

  /** With `refs` stored out of `n` attachments. */
  function Progress(refs: seq<AttachmentRef>, n: nat): P.Submit {
    P.Submit(P.AfterStore(KeyList(refs), n), KeyList(refs), n)
  }

  // ---------------------------------------------------------------------------
  // The tables, the store and the queue
  // ---------------------------------------------------------------------------

  ghost predicate HasKey<Message(!new)>(emails: map<EmailId, Envelope<Message>>, key: Option<string>) {
    key.Some? && exists m :: m in emails && emails[m].idempotencyKey == key
  }

  predicate KeysUnique<Message(!new)>(emails: map<EmailId, Envelope<Message>>) {
    forall a, b :: a in emails && b in emails && a != b && emails[a].idempotencyKey.Some? ==>
      emails[a].idempotencyKey != emails[b].idempotencyKey
  }

  /** What the reader of an attachment yields. */
  function Content(web: string -> Bytes, a: Input): Bytes {
    if a.Remote? then web(a.url) else a.bytes
  }

  /** `r` describes the stored attachment `a`. */
  predicate Describes(web: string -> Bytes, blobs: map<Key, Bytes>, a: Input, r: AttachmentRef) {
    && r.filename == a.filename && r.contentType == a.contentType
    && r.key in blobs && blobs[r.key] == Content(web, a) && r.size == |blobs[r.key]|
  }

  function KeysOf(refs: seq<AttachmentRef>): set<Key> {
    set r | r in refs :: r.key
  }

  predicate Described(web: string -> Bytes, blobs: map<Key, Bytes>, input: seq<Input>, refs: seq<AttachmentRef>) {
    |refs| == |input| && forall i :: 0 <= i < |refs| ==> Describes(web, blobs, input[i], refs[i])
  }

  /** From `before` to `after` exactly the attachments were stored: one new blob each, in input order. */
  ghost predicate Stored(
    web: string -> Bytes, before: map<Key, Bytes>, after: map<Key, Bytes>, input: seq<Input>, refs: seq<AttachmentRef>)
  {
    && Described(web, after, input, refs) && DistinctKeys(refs)
    && (forall k :: k in after <==> k in before || k in KeysOf(refs))
    && (forall k :: k in before ==> after[k] == before[k] && k !in KeysOf(refs))
  }

  predicate IsUndo(c: PortCall) {
    c.op.DeleteBlob? || c.op.DeleteRow?
  }

  /** Rows and blobs are back as before, except exactly what an undo call failed to remove. */
  ghost predicate RolledBack<Message(!new)>(
    emails: map<EmailId, Envelope<Message>>, emails': map<EmailId, Envelope<Message>>,
    blobs: map<Key, Bytes>, blobs': map<Key, Bytes>, id: EmailId, key: Option<string>, calls: seq<PortCall>)
  {
    && (forall m :: m in emails' <==> m in emails || (m == id && Failed(calls, DeleteRow)))
    && (forall m :: m in emails ==> emails'[m] == emails[m])
    && (id in emails' && id !in emails ==> emails'[id].idempotencyKey == key)
    && (forall k :: k in blobs' <==> k in blobs || Failed(calls, DeleteBlob(k)))
    && (forall k :: k in blobs ==> blobs'[k] == blobs[k])
  }

  /** What the four ports hold between two calls. */
  datatype World<Message> = World(
    emails: map<EmailId, Envelope<Message>>, blobs: map<Key, Bytes>, queue: seq<Queued<Message>>,
    events: seq<WorkerTask.Event>)

  /** What a call made for email `id` may do to them: one change at most, and none where it fails. */
  ghost predicate Does<Message(!new)>(w: World<Message>, w': World<Message>, id: EmailId, c: PortCall) {
    if !c.ok then w' == w
    else
      match c.op
      case Fetch(_) => w' == w
      case PutBlob(k) => k !in w.blobs && k in w'.blobs && w' == w.(blobs := w.blobs[k := w'.blobs[k]])
      case DeleteBlob(k) => w' == w.(blobs := w.blobs - {k})
      case Save =>
        || w' == w
        || (id !in w.emails && id in w'.emails && w' == w.(emails := w.emails[id := w'.emails[id]]))
      case SetAttachments =>
        && id in w.emails && id in w'.emails
        && w' == w.(emails := w.emails[id := w.emails[id].(attachments := w'.emails[id].attachments)])
      case DeleteRow => w' == w.(emails := w.emails - {id})
      case Enqueue =>
        && |w'.queue| == |w.queue| + 1 && w'.queue[|w.queue|].id == id
        && w' == w.(queue := w.queue + [w'.queue[|w.queue|]])
      case Announce => w' == w.(events := w.events + [WorkerTask.Queued(id)])
  }

  /** The repository, queue, blob store and event publisher; `script` says which calls work. */
  class Ports<Message(!new)> {
    var emails: map<EmailId, Envelope<Message>>
    var blobs: map<Key, Bytes>
    var queue: seq<Queued<Message>>
    var events: seq<WorkerTask.Event>
    var nextKey: Key
    var calls: seq<PortCall>
    const script: nat -> bool
    const web: string -> Bytes

    constructor (script: nat -> bool, web: string -> Bytes)
      ensures Valid() && this.script == script && this.web == web
      ensures emails == map[] && blobs == map[] && queue == [] && events == [] && calls == []
    {
      this.script := script;
      this.web := web;
      emails, blobs, queue, events, nextKey, calls := map[], map[], [], [], 0, [];
    }

    predicate Valid()
      reads this
    {
      && KeysUnique(emails) && (forall k :: k in blobs ==> k < nextKey)
      && forall i :: 0 <= i < |calls| && calls[i].ok ==> script(i)
    }

    function Snap(): World<Message>
      reads this
    {
      World(emails, blobs, queue, events)
    }

    method Ask(op: Op) returns (ok: bool)
      requires Valid()
      modifies this`calls
      ensures Valid() && ok == script(|old(calls)|)
      ensures calls == old(calls) + [PortCall(op, ok)]
    {
      ok := script(|calls|);
      calls := calls + [PortCall(op, ok)];
    }

    /** `save`: a clash on id or key inserts nothing; without a row of that key the clash is an error. */
    method SaveRow(id: EmailId, e: Envelope<Message>) returns (r: Result<SaveResult, ()>)
      requires Valid()
      modifies this`emails, this`calls
      ensures Valid() && calls == old(calls) + [PortCall(Save, r.Ok?)]
      ensures r.Ok? <==> script(|old(calls)|) && (id !in old(emails) || HasKey(old(emails), e.idempotencyKey))
      ensures r.Err? ==> emails == old(emails)
      ensures r.Ok? && r.value.Created? ==>
        id !in old(emails) && !HasKey(old(emails), e.idempotencyKey) && emails == old(emails)[id := e]
      ensures r.Ok? && r.value.Duplicate? ==>
        e.idempotencyKey.Some? && emails == old(emails)
        && r.value.existing in emails && emails[r.value.existing].idempotencyKey == e.idempotencyKey
      ensures Does(old(Snap()), Snap(), id, calls[|old(calls)|])
    {
      var clash := e.idempotencyKey.Some? && exists m :: m in emails && emails[m].idempotencyKey == e.idempotencyKey;
      var works := script(|calls|) && (id !in emails || clash);
      calls := calls + [PortCall(Save, works)];
      if !works {
        return Err(());
      }
      if clash {
        var m :| m in emails && emails[m].idempotencyKey == e.idempotencyKey;
        return Ok(Duplicate(m));
      }
      emails := emails[id := e];
      return Ok(Created);
    }

    /** `set_attachments`: a missing row is an error. */
    method SetRefs(id: EmailId, refs: seq<AttachmentRef>) returns (ok: bool)
      requires Valid()
      modifies this`emails, this`calls
      ensures Valid() && calls == old(calls) + [PortCall(SetAttachments, ok)]
      ensures ok <==> script(|old(calls)|) && id in old(emails)
      ensures emails == if ok then old(emails)[id := old(emails)[id].(attachments := refs)] else old(emails)
      ensures Does(old(Snap()), Snap(), id, calls[|old(calls)|])
    {
      ok := script(|calls|) && id in emails;
      calls := calls + [PortCall(SetAttachments, ok)];
      if ok {
        emails := emails[id := emails[id].(attachments := refs)];
      }
    }

    method Remove(id: EmailId) returns (ok: bool)
      requires Valid()
      modifies this`emails, this`calls
      ensures Valid() && calls == old(calls) + [PortCall(DeleteRow, ok)] && ok == script(|old(calls)|)
      ensures emails == if ok then old(emails) - {id} else old(emails)
      ensures Does(old(Snap()), Snap(), id, calls[|old(calls)|])
    {
      ok := Ask(DeleteRow);
      if ok {
        emails := emails - {id};
      }
    }

    method Put(bytes: Bytes) returns (r: Option<Key>)
      requires Valid()
      modifies this`blobs, this`nextKey, this`calls
      ensures Valid() && calls == old(calls) + [PortCall(PutBlob(old(nextKey)), r.Some?)]
      ensures r.Some? == script(|old(calls)|)
      ensures r.None? ==> blobs == old(blobs)
      ensures r.Some? ==>
        r.value == old(nextKey) && r.value !in old(blobs) && blobs == old(blobs)[r.value := bytes]
      ensures forall id :: Does(old(Snap()), Snap(), id, calls[|old(calls)|])
    {
      var ok := Ask(PutBlob(nextKey));
      if !ok {
        return None;
      }
      r := Some(nextKey);
      blobs := blobs[nextKey := bytes];
      nextKey := nextKey + 1;
    }

    method Delete(k: Key) returns (ok: bool)
      requires Valid()
      modifies this`blobs, this`calls
      ensures Valid() && calls == old(calls) + [PortCall(DeleteBlob(k), ok)] && ok == script(|old(calls)|)
      ensures blobs == if ok then old(blobs) - {k} else old(blobs)
      ensures forall id :: Does(old(Snap()), Snap(), id, calls[|old(calls)|])
    {
      ok := Ask(DeleteBlob(k));
      if ok {
        blobs := blobs - {k};
      }
    }

    method Push(id: EmailId, e: Envelope<Message>) returns (ok: bool)
      requires Valid()
      modifies this`queue, this`calls
      ensures Valid() && calls == old(calls) + [PortCall(Enqueue, ok)] && ok == script(|old(calls)|)
      ensures queue == if ok then old(queue) + [Queued(id, e)] else old(queue)
      ensures Does(old(Snap()), Snap(), id, calls[|old(calls)|])
    {
      ok := Ask(Enqueue);
      if ok {
        queue := queue + [Queued(id, e)];
      }
    }

    /** Publishing may fail; nobody minds. */
    method Publish(id: EmailId) returns (ok: bool)
      requires Valid()
      modifies this`events, this`calls
      ensures Valid() && calls == old(calls) + [PortCall(Announce, ok)] && ok == script(|old(calls)|)
      ensures events == if ok then old(events) + [WorkerTask.Queued(id)] else old(events)
      ensures Does(old(Snap()), Snap(), id, calls[|old(calls)|])
    {
      ok := Ask(Announce);
      if ok {
        events := events + [WorkerTask.Queued(id)];
      }
    }

    method DeleteAll(refs: seq<AttachmentRef>, ghost u: P.Submit)
      requires Valid() && DistinctKeys(refs) && u.pc == P.Undoing(KeyList(refs))
      modifies this`blobs, this`calls
      ensures Valid() && old(calls) <= calls
      ensures Runs(u, calls[|old(calls)|..], Some(u.(pc := P.Undoing([]))))
      ensures forall c :: c in calls[|old(calls)|..] ==> c.op.DeleteBlob? && c.op.key in KeysOf(refs)
      ensures forall k :: k in blobs <==>
        k in old(blobs) && (k in KeysOf(refs) ==> Failed(calls[|old(calls)|..], DeleteBlob(k)))
      ensures forall k :: k in blobs ==> blobs[k] == old(blobs)[k]
    {
      var i := 0;
      while i < |refs|
        invariant 0 <= i <= |refs| && Valid() && old(calls) <= calls
        invariant Runs(u, calls[|old(calls)|..], Some(u.(pc := P.Undoing(KeyList(refs)[i..]))))
        invariant forall c :: c in calls[|old(calls)|..] ==> c.op.DeleteBlob? && c.op.key in KeysOf(refs[..i])
        invariant forall k :: k in blobs <==>
          k in old(blobs) && (k in KeysOf(refs[..i]) ==> Failed(calls[|old(calls)|..], DeleteBlob(k)))
        invariant forall k :: k in blobs ==> blobs[k] == old(blobs)[k]
      {
        ghost var before := calls[|old(calls)|..];
        var k := refs[i].key;
        var ok := Delete(k);
        assert calls[|old(calls)|..] == before + [PortCall(DeleteBlob(k), ok)];
        RunsDelete(u, before, KeyList(refs)[i..], ok);
        assert KeyList(refs)[i..][1..] == KeyList(refs)[i + 1..];
        DeletedMore(refs, i, before, ok);
        i := i + 1;
      }
      assert refs[..i] == refs && KeyList(refs)[i..] == [];
    }

    /** The undo block: delete every blob written so far, then the row, whatever the answers. */
    method Undo(id: EmailId, refs: seq<AttachmentRef>, ghost u: P.Submit)
      requires Valid() && DistinctKeys(refs) && forall r :: r in refs ==> r.key in blobs
      requires u.pc == P.Undoing(KeyList(refs))
      modifies this`emails, this`blobs, this`calls
      ensures Valid() && old(calls) <= calls && Runs(u, calls[|old(calls)|..], None)
      ensures forall c :: c in calls[|old(calls)|..] ==> IsUndo(c)
      ensures forall k :: k in blobs <==>
        (k in old(blobs) && k !in KeysOf(refs)) || Failed(calls[|old(calls)|..], DeleteBlob(k))
      ensures forall k :: k in blobs ==> k in old(blobs) && blobs[k] == old(blobs)[k]
      ensures emails == if Failed(calls[|old(calls)|..], DeleteRow) then old(emails) else old(emails) - {id}
    {
      DeleteAll(refs, u);
      ghost var before := calls[|old(calls)|..];
      var ok := Remove(id);
      assert calls[|old(calls)|..] == before + [PortCall(DeleteRow, ok)];
      RunsConcat(u, before, u.(pc := P.Undoing([])), [PortCall(DeleteRow, ok)], None);
      forall k ensures Failed(calls[|old(calls)|..], DeleteBlob(k)) <==> Failed(before, DeleteBlob(k)) {
      }
    }
  }

  predicate DistinctKeys(refs: seq<AttachmentRef>) {
    forall i, j :: 0 <= i < j < |refs| ==> refs[i].key != refs[j].key
  }

  lemma DeletedMore(refs: seq<AttachmentRef>, i: nat, before: seq<PortCall>, ok: bool)
    requires DistinctKeys(refs) && i < |refs|
    requires forall c :: c in before ==> c.op.DeleteBlob? && c.op.key in KeysOf(refs[..i])
    ensures var k, calls := refs[i].key, before + [PortCall(DeleteBlob(refs[i].key), ok)];
      && k !in KeysOf(refs[..i]) && KeysOf(refs[..i + 1]) == KeysOf(refs[..i]) + {k}
      && (forall x :: Failed(calls, DeleteBlob(x)) <==> Failed(before, DeleteBlob(x)) || (x == k && !ok))
      && (forall c :: c in calls ==> c.op.DeleteBlob? && c.op.key in KeysOf(refs[..i + 1]))
  {
    assert refs[..i + 1] == refs[..i] + [refs[i]];
  }

  lemma RunsDelete(u: P.Submit, before: seq<PortCall>, todo: seq<Key>, ok: bool)
    requires Runs(u, before, Some(u.(pc := P.Undoing(todo)))) && todo != []
    ensures Runs(u, before + [PortCall(DeleteBlob(todo[0]), ok)], Some(u.(pc := P.Undoing(todo[1..]))))
  {
    RunsOne(u.(pc := P.Undoing(todo)), PortCall(DeleteBlob(todo[0]), ok));
    RunsConcat(u, before, u.(pc := P.Undoing(todo)), [PortCall(DeleteBlob(todo[0]), ok)],
               Some(u.(pc := P.Undoing(todo[1..]))));
  }

  /** Fetch if remote, then store. */
  method Write<Message(!new)>(p: Ports<Message>, a: Input, ghost u: P.Submit)
    returns (r: Result<AttachmentRef, SubmitError>)
    requires p.Valid() && u.pc.Storing?
    modifies p`blobs, p`nextKey, p`calls
    ensures p.Valid() && old(p.calls) <= p.calls
    ensures Runs(u, p.calls[|old(p.calls)|..], Some(if r.Ok? then Kept(u, r.value.key) else Backing(u)))
    ensures forall c :: c in p.calls[|old(p.calls)|..] ==> !IsUndo(c)
    ensures r.Err? ==> p.blobs == old(p.blobs) && Explains(p.calls[|old(p.calls)|..], r.error)
    ensures r.Ok? ==>
      && r.value.key !in old(p.blobs)
      && p.blobs == old(p.blobs)[r.value.key := Content(p.web, a)]
      && Describes(p.web, p.blobs, a, r.value)
  {
    ghost var start := |p.calls|;
    if a.Remote? {
      var ok := p.Ask(Fetch(a.url));
      assert p.calls[start..] == [PortCall(Fetch(a.url), ok)];
      if !ok {
        assert Failed(p.calls[start..], Fetch(a.url));
        return Err(AttachmentFetch);
      }
    }
    ghost var fetched := p.calls[start..];
    var bytes := Content(p.web, a);
    ghost var next := p.nextKey;
    var key := p.Put(bytes);
    assert p.calls[start..] == fetched + [PortCall(PutBlob(next), key.Some?)];
    assert Runs(u, fetched, Some(u));
    RunsConcat(u, fetched, u, [PortCall(PutBlob(next), key.Some?)], After(u, PortCall(PutBlob(next), key.Some?)));
    if key.None? {
      assert Failed(p.calls[start..], PutBlob(next));
      return Err(AttachmentStore);
    }
    r := Ok(AttachmentRef(a.filename, a.contentType, |bytes|, key.value));
  }

  /** The submission so far: its row reserved, the blobs of `refs` stored, nothing undone. */
  ghost predicate Partial<Message(!new)>(
    emails: map<EmailId, Envelope<Message>>, emails': map<EmailId, Envelope<Message>>,
    blobs: map<Key, Bytes>, blobs': map<Key, Bytes>, id: EmailId, refs: seq<AttachmentRef>, calls: seq<PortCall>)
  {
    && id !in emails && id in emails' && emails' == emails[id := emails'[id]]
    && DistinctKeys(refs) && (forall r :: r in refs ==> r.key in blobs' && r.key !in blobs)
    && (forall k :: k in blobs' <==> k in blobs || k in KeysOf(refs))
    && (forall k :: k in blobs ==> blobs'[k] == blobs[k])
    && (forall c :: c in calls ==> !IsUndo(c))
  }

  lemma OneMore<Message(!new)>(
    web: string -> Bytes, emails: map<EmailId, Envelope<Message>>, emails': map<EmailId, Envelope<Message>>,
    blobs: map<Key, Bytes>, blobs1: map<Key, Bytes>, blobs2: map<Key, Bytes>, id: EmailId,
    input: seq<Input>, refs: seq<AttachmentRef>, r: AttachmentRef, calls: seq<PortCall>, more: seq<PortCall>)
    requires Partial(emails, emails', blobs, blobs1, id, refs, calls) && forall c :: c in more ==> !IsUndo(c)
    requires |refs| < |input| && Described(web, blobs1, input[..|refs|], refs)
    requires r.key !in blobs1 && blobs2 == blobs1[r.key := Content(web, input[|refs|])]
    requires Describes(web, blobs2, input[|refs|], r)
    ensures Partial(emails, emails', blobs, blobs2, id, refs + [r], calls + more)
    ensures Described(web, blobs2, input[..|refs| + 1], refs + [r])
  {
    var longer := refs + [r];
    assert KeysOf(longer) == KeysOf(refs) + {r.key} by {
      assert forall x :: x in longer <==> x in refs || x == r;
    }
    forall i | 0 <= i < |longer| ensures Describes(web, blobs2, input[..|refs| + 1][i], longer[i]) {
      if i < |refs| {
        assert refs[i] in refs;
        assert Describes(web, blobs1, input[..|refs|][i], refs[i]);
      }
    }
    forall i | 0 <= i < |refs| ensures refs[i].key != r.key {
      assert refs[i] in refs;
    }
  }

  lemma FailedConcat(a: seq<PortCall>, b: seq<PortCall>, e: SubmitError)
    ensures forall op :: Failed(a + b, op) <==> Failed(a, op) || Failed(b, op)
    ensures Explains(a, e) ==> Explains(a + b, e)
  {
  }

  lemma FailedSuffix(a: seq<PortCall>, b: seq<PortCall>, e: SubmitError)
    requires Explains(b, e)
    ensures Explains(a + b, e)
  {
  }

  lemma Undone<Message(!new)>(
    emails: map<EmailId, Envelope<Message>>, emails1: map<EmailId, Envelope<Message>>,
    emails2: map<EmailId, Envelope<Message>>, blobs: map<Key, Bytes>, blobs1: map<Key, Bytes>, blobs2: map<Key, Bytes>,
    id: EmailId, refs: seq<AttachmentRef>, calls: seq<PortCall>, undo: seq<PortCall>)
    requires Partial(emails, emails1, blobs, blobs1, id, refs, calls)
    requires forall k :: k in blobs2 <==> (k in blobs1 && k !in KeysOf(refs)) || Failed(undo, DeleteBlob(k))
    requires forall k :: k in blobs2 ==> k in blobs1 && blobs2[k] == blobs1[k]
    requires emails2 == if Failed(undo, DeleteRow) then emails1 else emails1 - {id}
    ensures RolledBack(emails, emails2, blobs, blobs2, id, emails1[id].idempotencyKey, calls + undo)
  {
    forall op | IsUndo(PortCall(op, false)) ensures Failed(calls + undo, op) <==> Failed(undo, op) {
    }
  }

  /** Gives up: undoes everything and reports `e`. */
  method Abandon<Message(!new)>(
    p: Ports<Message>, id: EmailId, refs: seq<AttachmentRef>, e: SubmitError,
    ghost emails: map<EmailId, Envelope<Message>>, ghost blobs: map<Key, Bytes>, ghost start: nat, ghost n: nat)
    returns (r: Result<EmailId, SubmitError>)
    requires p.Valid() && start <= |p.calls| && Explains(p.calls[start..], e)
    requires Partial(emails, p.emails, blobs, p.blobs, id, refs, p.calls[start..])
    requires Played(n, p.calls[start..], Some(Backing(Progress(refs, n))))
    modifies p`emails, p`blobs, p`calls
    ensures p.Valid() && old(p.calls) <= p.calls && r == Err(e) && Played(n, p.calls[start..], None)
    ensures RolledBack(emails, p.emails, blobs, p.blobs, id, old(p.emails)[id].idempotencyKey, p.calls[start..])
    ensures Explains(p.calls[start..], e)
  {
    ghost var before, mid := p.calls, p.calls[start..];
    p.Undo(id, refs, Backing(Progress(refs, n)));
    ghost var undo := p.calls[|before|..];
    assert p.calls[start..] == mid + undo;
    PlayedMore(n, mid, Backing(Progress(refs, n)), undo, None);
    Undone(emails, old(p.emails), p.emails, blobs, old(p.blobs), p.blobs, id, refs, mid, undo);
    FailedConcat(mid, undo, e);
    r := Err(e);
  }

  lemma WriteGoesOn(
    refs: seq<AttachmentRef>, n: nat, calls: seq<PortCall>, more: seq<PortCall>, r: Result<AttachmentRef, SubmitError>)
    requires Played(n, calls, Some(Progress(refs, n)))
    requires Runs(Progress(refs, n), more,
                  Some(if r.Ok? then Kept(Progress(refs, n), r.value.key) else Backing(Progress(refs, n))))
    ensures Played(n, calls + more,
                   Some(if r.Ok? then Progress(refs + [r.value], n) else Backing(Progress(refs, n))))
  {
    if r.Ok? {
      PlayedMore(n, calls, Progress(refs, n), more, Some(Kept(Progress(refs, n), r.value.key)));
      assert KeyList(refs + [r.value]) == KeyList(refs) + [r.value.key];
    } else {
      PlayedMore(n, calls, Progress(refs, n), more, Some(Backing(Progress(refs, n))));
    }
  }

  /** Stores the next attachment after `refs`; a failure undoes everything. */
  method StoreOne<Message(!new)>(
    p: Ports<Message>, id: EmailId, input: seq<Input>, refs: seq<AttachmentRef>,
    ghost emails: map<EmailId, Envelope<Message>>, ghost blobs: map<Key, Bytes>, ghost start: nat)
    returns (r: Result<AttachmentRef, SubmitError>)
    requires p.Valid() && start <= |p.calls| && |refs| < |input|
    requires Partial(emails, p.emails, blobs, p.blobs, id, refs, p.calls[start..])
    requires Described(p.web, p.blobs, input[..|refs|], refs)
    requires Played(|input|, p.calls[start..], Some(Progress(refs, |input|)))
    modifies p`emails, p`blobs, p`nextKey, p`calls
    ensures p.Valid() && old(p.calls) <= p.calls
    ensures Played(|input|, p.calls[start..], if r.Ok? then Some(Progress(refs + [r.value], |input|)) else None)
    ensures r.Ok? ==>
      && p.emails == old(p.emails)
      && Partial(emails, p.emails, blobs, p.blobs, id, refs + [r.value], p.calls[start..])
      && Described(p.web, p.blobs, input[..|refs| + 1], refs + [r.value])
    ensures r.Err? ==>
      && RolledBack(emails, p.emails, blobs, p.blobs, id, old(p.emails)[id].idempotencyKey, p.calls[start..])
      && Explains(p.calls[start..], r.error)
  {
    ghost var calls, stored := p.calls, p.blobs;
    r := Write(p, input[|refs|], Progress(refs, |input|));
    ghost var more := p.calls[|calls|..];
    assert p.calls[start..] == calls[start..] + more;
    WriteGoesOn(refs, |input|, calls[start..], more, r);
    if r.Err? {
      FailedSuffix(calls[start..], more, r.error);
      var failed := Abandon(p, id, refs, r.error, emails, blobs, start, |input|);
    } else {
      OneMore(p.web, emails, p.emails, blobs, stored, p.blobs, id, input, refs, r.value, calls[start..], more);
    }
  }

  /** Stores the attachments in order; the first failure undoes everything. */
  method StoreAll<Message(!new)>(
    p: Ports<Message>, id: EmailId, input: seq<Input>,
    ghost emails: map<EmailId, Envelope<Message>>, ghost blobs: map<Key, Bytes>, ghost start: nat)
    returns (r: Result<seq<AttachmentRef>, SubmitError>)
    requires p.Valid() && start <= |p.calls|
    requires Partial(emails, p.emails, blobs, p.blobs, id, [], p.calls[start..])
    requires Played(|input|, p.calls[start..], Some(Progress([], |input|)))
    modifies p`emails, p`blobs, p`nextKey, p`calls
    ensures p.Valid() && old(p.calls) <= p.calls
    ensures Played(|input|, p.calls[start..], if r.Ok? then Some(Progress(r.value, |input|)) else None)
    ensures r.Ok? ==>
      && p.emails == old(p.emails)
      && Partial(emails, p.emails, blobs, p.blobs, id, r.value, p.calls[start..])
      && Described(p.web, p.blobs, input, r.value)
    ensures r.Err? ==>
      && RolledBack(emails, p.emails, blobs, p.blobs, id, old(p.emails)[id].idempotencyKey, p.calls[start..])
      && Explains(p.calls[start..], r.error)
  {
    var refs: seq<AttachmentRef> := [];
    var i := 0;
    while i < |input|
      invariant 0 <= i <= |input| && p.Valid() && old(p.calls) <= p.calls && p.emails == old(p.emails)
      invariant Partial(emails, p.emails, blobs, p.blobs, id, refs, p.calls[start..])
      invariant Described(p.web, p.blobs, input[..i], refs)
      invariant Played(|input|, p.calls[start..], Some(Progress(refs, |input|)))
    {
      var written := StoreOne(p, id, input, refs, emails, blobs, start);
      if written.Err? {
        return Err(written.error);
      }
      refs := refs + [written.value];
      i := i + 1;
    }
    assert input[..i] == input;
    r := Ok(refs);
  }

  /** The last two calls enqueued the email and then announced it; only a failing announcement is missing. */
  predicate Announced(
    calls: seq<PortCall>, before: seq<WorkerTask.Event>, after: seq<WorkerTask.Event>, id: EmailId)
  {
    && |calls| >= 2 && calls[|calls| - 2] == PortCall(Enqueue, true) && calls[|calls| - 1].op == Announce
    && after == if calls[|calls| - 1].ok then before + [WorkerTask.Queued(id)] else before
  }

  /** References the stored blobs; a row without attachments needs no second write. */
  method Reference<Message(!new)>(
    p: Ports<Message>, id: EmailId, refs: seq<AttachmentRef>,
    ghost emails: map<EmailId, Envelope<Message>>, ghost blobs: map<Key, Bytes>, ghost start: nat)
    returns (ok: bool)
    requires p.Valid() && start <= |p.calls|
    requires Partial(emails, p.emails, blobs, p.blobs, id, refs, p.calls[start..])
    requires Played(|refs|, p.calls[start..], Some(Progress(refs, |refs|)))
    requires p.emails[id].attachments == []
    modifies p`emails, p`calls
    ensures p.Valid() && old(p.calls) <= p.calls
    ensures Played(|refs|, p.calls[start..], Some(if ok then Referenced(refs) else Backing(Progress(refs, |refs|))))
    ensures Partial(emails, p.emails, blobs, p.blobs, id, refs, p.calls[start..])
    ensures ok ==> p.emails[id] == old(p.emails)[id].(attachments := refs)
    ensures !ok ==> p.emails == old(p.emails) && Failed(p.calls[start..], SetAttachments)
  {
    ok := true;
    if refs != [] {
      ghost var calls := p.calls[start..];
      ok := p.SetRefs(id, refs);
      assert p.calls[start..] == calls + [PortCall(SetAttachments, ok)];
      PlayedOne(|refs|, calls, Progress(refs, |refs|), PortCall(SetAttachments, ok));
    }
  }

  /** All of `refs` stored and listed in the row. */
  function Referenced(refs: seq<AttachmentRef>): P.Submit {
    P.Submit(P.Enqueueing, KeyList(refs), |refs|)
  }

  lemma NotQueued<Message(!new)>(
    emails: map<EmailId, Envelope<Message>>, emails': map<EmailId, Envelope<Message>>,
    blobs: map<Key, Bytes>, blobs': map<Key, Bytes>, id: EmailId, refs: seq<AttachmentRef>, calls: seq<PortCall>)
    requires Partial(emails, emails', blobs, blobs', id, refs, calls)
    ensures Partial(emails, emails', blobs, blobs', id, refs, calls + [PortCall(Enqueue, false)])
    ensures Explains(calls + [PortCall(Enqueue, false)], EnqueueFailed)
  {
    assert (calls + [PortCall(Enqueue, false)])[|calls|] == PortCall(Enqueue, false);
  }

  /** Announces the email that the last call enqueued. */
  method Confirm<Message(!new)>(
    p: Ports<Message>, id: EmailId, refs: seq<AttachmentRef>, ghost start: nat, ghost calls: seq<PortCall>)
    requires p.Valid() && start <= |p.calls| && p.calls[start..] == calls + [PortCall(Enqueue, true)]
    requires Played(|refs|, calls, Some(Referenced(refs)))
    modifies p`events, p`calls
    ensures p.Valid() && old(p.calls) <= p.calls && Played(|refs|, p.calls[start..], None)
    ensures Announced(p.calls, old(p.events), p.events, id)
  {
    PlayedOne(|refs|, calls, Referenced(refs), PortCall(Enqueue, true));
    ghost var before := p.calls[start..];
    assert p.calls[|p.calls| - 1] == before[|before| - 1];
    var announced := p.Publish(id);
    assert p.calls[start..] == before + [PortCall(Announce, announced)];
    PlayedOne(|refs|, before, Referenced(refs).(pc := P.Announcing), PortCall(Announce, announced));
  }

  /** The queue refused the email: undoes everything. */
  method Refused<Message(!new)>(
    p: Ports<Message>, id: EmailId, refs: seq<AttachmentRef>,
    ghost emails: map<EmailId, Envelope<Message>>, ghost blobs: map<Key, Bytes>, ghost start: nat,
    ghost calls: seq<PortCall>)
    returns (r: Result<EmailId, SubmitError>)
    requires p.Valid() && start <= |p.calls| && p.calls[start..] == calls + [PortCall(Enqueue, false)]
    requires Partial(emails, p.emails, blobs, p.blobs, id, refs, calls)
    requires Played(|refs|, calls, Some(Referenced(refs)))
    modifies p`emails, p`blobs, p`calls
    ensures p.Valid() && old(p.calls) <= p.calls && r == Err(EnqueueFailed)
    ensures Played(|refs|, p.calls[start..], None)
    ensures RolledBack(emails, p.emails, blobs, p.blobs, id, old(p.emails)[id].idempotencyKey, p.calls[start..])
    ensures Explains(p.calls[start..], EnqueueFailed)
  {
    PlayedOne(|refs|, calls, Referenced(refs), PortCall(Enqueue, false));
    NotQueued(emails, p.emails, blobs, p.blobs, id, refs, calls);
    r := Abandon(p, id, refs, EnqueueFailed, emails, blobs, start, |refs|);
  }

  method HandOver<Message(!new)>(
    p: Ports<Message>, id: EmailId, envelope: Envelope<Message>,
    ghost emails: map<EmailId, Envelope<Message>>, ghost blobs: map<Key, Bytes>, ghost start: nat)
    returns (r: Result<EmailId, SubmitError>)
    requires p.Valid() && start <= |p.calls|
    requires Partial(emails, p.emails, blobs, p.blobs, id, envelope.attachments, p.calls[start..])
    requires Played(|envelope.attachments|, p.calls[start..], Some(Referenced(envelope.attachments)))
    modifies p
    ensures p.Valid() && old(p.calls) <= p.calls && Played(|envelope.attachments|, p.calls[start..], None)
    ensures r.Err? ==>
      && p.queue == old(p.queue) && p.events == old(p.events)
      && RolledBack(emails, p.emails, blobs, p.blobs, id, old(p.emails)[id].idempotencyKey, p.calls[start..])
      && Explains(p.calls[start..], r.error)
    ensures r.Ok? ==>
      && r.value == id && p.emails == old(p.emails) && p.blobs == old(p.blobs)
      && p.queue == old(p.queue) + [Queued(id, envelope)]
      && Announced(p.calls, old(p.events), p.events, id)
  {
    ghost var calls := p.calls[start..];
    var queued := p.Push(id, envelope);
    assert p.calls[start..] == calls + [PortCall(Enqueue, queued)];
    if queued {
      Confirm(p, id, envelope.attachments, start, calls);
      r := Ok(id);
    } else {
      r := Refused(p, id, envelope.attachments, emails, blobs, start, calls);
    }
  }

  /** Everything after the attachments have been stored. */
  method Finish<Message(!new)>(
    p: Ports<Message>, id: EmailId, key: Option<string>, message: Message, refs: seq<AttachmentRef>,
    ghost emails: map<EmailId, Envelope<Message>>, ghost blobs: map<Key, Bytes>, ghost start: nat)
    returns (r: Result<EmailId, SubmitError>)
    requires p.Valid() && start < |p.calls|
    requires Partial(emails, p.emails, blobs, p.blobs, id, refs, p.calls[start..])
    requires p.emails[id] == Envelope(key, message, [])
    requires Played(|refs|, p.calls[start..], Some(Progress(refs, |refs|)))
    modifies p
    ensures p.Valid() && old(p.calls) <= p.calls && Played(|refs|, p.calls[start..], None)
    ensures r.Err? ==>
      && p.queue == old(p.queue) && p.events == old(p.events)
      && RolledBack(emails, p.emails, blobs, p.blobs, id, key, p.calls[start..])
      && Explains(p.calls[start..], r.error)
    ensures r.Ok? ==>
      && r.value == id && p.emails == emails[id := Envelope(key, message, refs)] && p.blobs == old(p.blobs)
      && p.queue == old(p.queue) + [Queued(id, Envelope(key, message, refs))]
      && Announced(p.calls, old(p.events), p.events, id)
  {
    var referenced := Reference(p, id, refs, emails, blobs, start);
    if !referenced {
      r := Abandon(p, id, refs, Persist, emails, blobs, start, |refs|);
      return;
    }
    r := HandOver(p, id, Envelope(key, message, refs), emails, blobs, start);
  }

  /** Everything after the row has been reserved. */
  method Fulfil<Message(!new)>(
    p: Ports<Message>, id: EmailId, key: Option<string>, message: Message, input: seq<Input>,
    ghost emails: map<EmailId, Envelope<Message>>, ghost blobs: map<Key, Bytes>, ghost start: nat)
    returns (r: Result<EmailId, SubmitError>)
    requires p.Valid() && start < |p.calls|
    requires Partial(emails, p.emails, blobs, p.blobs, id, [], p.calls[start..])
    requires p.emails[id] == Envelope(key, message, [])
    requires Played(|input|, p.calls[start..], Some(Progress([], |input|)))
    modifies p
    ensures p.Valid() && old(p.calls) <= p.calls && Played(|input|, p.calls[start..], None)
    ensures r.Err? ==>
      && p.queue == old(p.queue) && p.events == old(p.events)
      && RolledBack(emails, p.emails, blobs, p.blobs, id, key, p.calls[start..])
      && Explains(p.calls[start..], r.error)
    ensures r.Ok? ==>
      && r.value == id && id in p.emails
      && var refs := p.emails[id].attachments;
         var envelope := Envelope(key, message, refs);
      && p.emails == emails[id := envelope]
      && p.queue == old(p.queue) + [Queued(id, envelope)]
      && Stored(p.web, blobs, p.blobs, input, refs)
      && Announced(p.calls, old(p.events), p.events, id)
  {
    var stored := StoreAll(p, id, input, emails, blobs, start);
    if stored.Err? {
      return Err(stored.error);
    }
    r := Finish(p, id, key, message, stored.value, emails, blobs, start);
  }

  /**
   * `execute`. A known idempotency key answers with its email and changes nothing; otherwise the email, its
   * blobs and its entry all appear, or nothing does beyond what an undo call itself failed to remove.
   */
  method Execute<Message(!new)>(
    p: Ports<Message>, id: EmailId, key: Option<string>, message: Message, input: seq<Input>)
    returns (r: Result<EmailId, SubmitError>)
    requires p.Valid()
    modifies p
    ensures p.Valid() && old(p.calls) <= p.calls
    ensures Transcript(|input|, p.calls[|old(p.calls)|..], HasKey(old(p.emails), key))
    ensures p.calls[|old(p.calls)|].ok <==>
      p.script(|old(p.calls)|) && (id !in old(p.emails) || HasKey(old(p.emails), key))
    ensures r.Ok? ==> p.calls[|old(p.calls)|].ok
    ensures r.Err? ==>
      var calls := p.calls[|old(p.calls)|..];
      && p.queue == old(p.queue) && p.events == old(p.events)
      && RolledBack(old(p.emails), p.emails, old(p.blobs), p.blobs, id, key, calls)
      && Explains(calls, r.error)
    ensures r.Ok? && HasKey(old(p.emails), key) ==>
      && p.emails == old(p.emails) && p.blobs == old(p.blobs)
      && p.queue == old(p.queue) && p.events == old(p.events)
      && r.value in p.emails && p.emails[r.value].idempotencyKey == key
    ensures r.Ok? && !HasKey(old(p.emails), key) ==>
      && r.value == id && id !in old(p.emails) && id in p.emails
      && var refs := p.emails[id].attachments;
         var envelope := Envelope(key, message, refs);
      && p.emails == old(p.emails)[id := envelope]
      && p.queue == old(p.queue) + [Queued(id, envelope)]
      && Stored(p.web, old(p.blobs), p.blobs, input, refs)
      && Announced(p.calls, old(p.events), p.events, id)
  {
    ghost var start, emails, blobs := |p.calls|, p.emails, p.blobs;
    var saved := p.SaveRow(id, Envelope(key, message, []));
    assert p.calls[start..] == [PortCall(Save, saved.Ok?)];
    if saved.Err? {
      return Err(Persist);
    }
    if saved.value.Duplicate? {
      return Ok(saved.value.existing);
    }
    assert KeyList([]) == [];
    r := Fulfil(p, id, key, message, input, emails, blobs, start);
  }

  /** Submitting twice under one key yields one email: the second call names it and changes nothing. */
  method Resubmit<Message(!new)>(
    p: Ports<Message>, id1: EmailId, id2: EmailId, key: string,
    message1: Message, message2: Message, input1: seq<Input>, input2: seq<Input>)
    returns (a: Result<EmailId, SubmitError>, b: Result<EmailId, SubmitError>, ghost between: seq<Queued<Message>>)
    requires p.Valid()
    modifies p
    ensures a.Ok? && b.Ok? ==> a == b && p.queue == between && |between| <= |old(p.queue)| + 1
  {
    a := Execute(p, id1, Some(key), message1, input1);
    between := p.queue;
    b := Execute(p, id2, Some(key), message2, input2);
  }

  /** With its key taken, an execution makes one call, and fails only if that does. */
  lemma AnsweredAtOnce(n: nat, calls: seq<PortCall>, r: Result<EmailId, SubmitError>)
    requires Transcript(n, calls, true) && (r.Err? ==> Explains(calls, r.error))
    ensures r.Err? ==> !calls[0].ok
  {
    if r.Err? && calls[0].ok {
      assert calls == [PortCall(Save, true)];
      NothingFailed(r.error);
      assert false;
    }
  }

  /**
   * Retrying a failed submission under its key. Unless the first call could not remove its row, a retry that
   * answers Ok has enqueued the email. Otherwise the row swallows the retry: it answers Ok for the email that
   * failed, whatever that failed of, exactly if its first call to the repository works, and enqueues nothing.
   */
  method Retry<Message(!new)>(
    p: Ports<Message>, id1: EmailId, id2: EmailId, key: string,
    message1: Message, message2: Message, input1: seq<Input>, input2: seq<Input>)
    returns (a: Result<EmailId, SubmitError>, b: Result<EmailId, SubmitError>,
             ghost middle: seq<PortCall>, ghost undone: bool)
    requires p.Valid() && id1 !in p.emails && !HasKey(p.emails, Some(key))
    modifies p
    ensures a.Err? && b.Ok? ==>
      if undone then |p.queue| == |old(p.queue)| + 1 && p.queue[|old(p.queue)|].id == id2 == b.value
      else p.queue == old(p.queue) && b.value == id1
    ensures a.Err? && !undone ==>
      && (b.Ok? <==> p.script(|middle|))
      && p.queue == old(p.queue) && p.events == old(p.events) && id1 in p.emails
    ensures old(p.calls) <= middle <= p.calls && (undone <==> !Failed(middle[|old(p.calls)|..], DeleteRow))
  {
    ghost var start := |p.calls|;
    a := Execute(p, id1, Some(key), message1, input1);
    middle := p.calls;
    undone := !Failed(middle[start..], DeleteRow);
    b := Execute(p, id2, Some(key), message2, input2);
    if a.Err? && !undone {
      AnsweredAtOnce(|input2|, p.calls[|middle|..], b);
    }
  }

  /** An email without attachments whose entry is refused and whose row then cannot be deleted. */
  predicate QueueAndUndoFail(script: nat -> bool) {
    script(0) && !script(1) && !script(2) && script(3)
  }

  lemma RefusedThenStuck(calls: seq<PortCall>, script: nat -> bool)
    requires QueueAndUndoFail(script) && Played(0, calls, None)
    requires forall i :: 0 <= i < |calls| && calls[i].ok ==> script(i)
    ensures calls == [PortCall(Save, true), PortCall(Enqueue, false), PortCall(DeleteRow, false)]
  {
    var u := P.Submit(P.Enqueueing, [], 0);
    assert Runs(u, calls[1..], None) && calls[1..][0] == calls[1];
    assert Runs(Backing(u), calls[2..], None) && calls[1..][1..] == calls[2..];
    assert calls[2..][0] == calls[2];
  }

  lemma NothingFailed(e: SubmitError)
    ensures !Explains([PortCall(Save, true)], e)
  {
  }

  /** It happens: every such retry answers Ok for the email that failed, and the queue stays empty for ever. */
  method SwallowedRetry<Message(!new)>(
    script: nat -> bool, web: string -> Bytes, id1: EmailId, id2: EmailId, key: string,
    message1: Message, message2: Message, input2: seq<Input>)
    returns (p: Ports<Message>, a: Result<EmailId, SubmitError>, b: Result<EmailId, SubmitError>)
    requires QueueAndUndoFail(script)
    ensures a.Err? && b == Ok(id1) && p.queue == [] && p.events == []
  {
    p := new Ports(script, web);
    a := Execute(p, id1, Some(key), message1, []);
    assert p.calls[0..] == p.calls;
    RefusedThenStuck(p.calls, script);
    ghost var calls := p.calls;
    assert Failed(calls, DeleteRow) by {
      assert calls[2] == PortCall(DeleteRow, false);
    }
    b := Execute(p, id2, Some(key), message2, input2);
    assert p.calls[|calls|..] == [PortCall(Save, true)];
    if b.Err? {
      NothingFailed(b.error);
    }
  }
}
