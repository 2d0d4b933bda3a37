/** What the worker reads back for a queued email is what was submitted: names, types, bytes, order. */
module AttachmentRoundTrip {
  import opened Core
  import opened SubmitSaga

  datatype ResolvedAttachment = ResolvedAttachment(filename: string, contentType: string, bytes: Bytes)

  /** One reference read from a store. */
  function ReadBack(blobs: map<Key, Bytes>, r: AttachmentRef): ResolvedAttachment
    requires r.key in blobs
  {
    ResolvedAttachment(r.filename, r.contentType, blobs[r.key])
  }

  /** `resolve_attachments`: the first unreadable blob fails the whole email; `works` says which reads work. */
  method ResolveAttachments(blobs: map<Key, Bytes>, refs: seq<AttachmentRef>, works: nat -> bool)
    returns (r: Option<seq<ResolvedAttachment>>)
    ensures r.Some? <==> forall i :: 0 <= i < |refs| ==> refs[i].key in blobs && works(i)
    ensures r.Some? ==> |r.value| == |refs| && forall i :: 0 <= i < |refs| ==> r.value[i] == ReadBack(blobs, refs[i])
  {
    var resolved := [];
    for i := 0 to |refs|
      invariant |resolved| == i
      invariant forall j :: 0 <= j < i ==> refs[j].key in blobs && works(j) && resolved[j] == ReadBack(blobs, refs[j])
    {
      if refs[i].key !in blobs || !works(i) {
        return None;
      }
      resolved := resolved + [ReadBack(blobs, refs[i])];
    }
    r := Some(resolved);
  }

  /** The attachments as their sender meant them. */
  function Intended(web: string -> Bytes, input: seq<Input>): (out: seq<ResolvedAttachment>)
    ensures |out| == |input|
  {
    seq(|input|, (i: nat) requires i < |input| =>
      ResolvedAttachment(input[i].filename, input[i].contentType, Content(web, input[i])))
  }

  predicate Kept(blobs: map<Key, Bytes>, later: map<Key, Bytes>, refs: seq<AttachmentRef>) {
    forall r :: r in refs && r.key in blobs ==> r.key in later && later[r.key] == blobs[r.key]
  }

  /** As long as the stored blobs are kept, and whatever else the store receives or loses, nothing is altered. */
  method SubmitThenResolve<Message(!new)>(
    p: Ports<Message>, id: EmailId, message: Message, input: seq<Input>, later: map<Key, Bytes>, works: nat -> bool)
    returns (submitted: Result<EmailId, SubmitError>, resolved: Option<seq<ResolvedAttachment>>)
    requires p.Valid() && forall i :: works(i)
    modifies p
    ensures submitted.Ok? ==>
      && submitted.value in p.emails
      && (Kept(p.blobs, later, p.emails[submitted.value].attachments) ==> resolved == Some(Intended(p.web, input)))
  {
    submitted := Execute(p, id, None, message, input);
    resolved := None;
    if submitted.Ok? {
      var refs := p.emails[submitted.value].attachments;
      resolved := ResolveAttachments(later, refs, works);
      if Kept(p.blobs, later, refs) {
        assert Described(p.web, p.blobs, input, refs);
        forall i | 0 <= i < |refs| ensures refs[i].key in later && later[refs[i].key] == Content(p.web, input[i]) {
          assert refs[i] in refs;
        }
        assert resolved.value == Intended(p.web, input);
      }
    }
  }
}
