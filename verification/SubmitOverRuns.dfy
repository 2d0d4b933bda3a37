/** Submissions among everything else that runs: one that gives up leaves nothing behind, whoever interferes. */
module SubmitOverRuns {
  import opened Core
  import opened WorkerTask
  import opened Pipeline
  import opened PipelineInvariant
  import opened QueueHistory

  /** The undo calls work, no submission dies halfway, and no failing put leaves its blob behind. */
  predicate UndoWorks(l: Label) {
    (l.UndoBlob? || l.UndoRow? ==> l.ok) && !l.SubmitCrash? && !l.PutLost?
  }

  predicate OwnedBlob(s: State, m: EmailId, k: Key) {
    k in s.db.blobs && Owns(s, m, k)
  }

  predicate NoTrace(s: State, m: EmailId) {
    && m !in s.db.emails && m !in s.ids.entryOf && m !in s.past.accepted
    && (forall k :: k in s.db.blobs ==> !Owns(s, m, k))
    && (forall e :: e in s.db.rows ==> s.db.rows[e].email != m)
  }

  /** All of a submission's keys are in its list; while it undoes, what is stored is still to be deleted. */
  ghost predicate Traceable(s: State, m: EmailId)
    requires m in s.submits
  {
    var u := s.submits[m];
    && (forall k :: Owns(s, m, k) ==> k in u.written)
    && (u.pc.Undoing? ==> m !in s.ids.entryOf && forall k :: OwnedBlob(s, m, k) ==> k in u.pc.todo)
  }

  ghost predicate Clean(s: State) {
    && (forall m :: m in s.submits ==> Traceable(s, m))
    && (forall m :: m in s.past.accepted ==> m in s.ids.entryOf)
    && (forall m :: m in s.ids.known && m !in s.submits && m !in s.ids.entryOf ==> NoTrace(s, m))
  }

  lemma CleanPut(s: State, m: EmailId, k: Key)
    requires Links(s) && Clean(s) && InPc(s, m, Storing) && k !in s.ids.keys
    ensures Clean(DoPut(s, m, k))
  {
  }

  lemma CleanRollback(s: State, m: EmailId)
    requires Links(s) && Clean(s) && m in s.submits && s.submits[m].Ongoing()
    ensures Clean(DoRollback(s, m))
  {
  }

  lemma CleanEnqueue(s: State, m: EmailId, e: EntryId)
    requires Links(s) && Clean(s) && InPc(s, m, Enqueueing)
    ensures Clean(DoEnqueue(s, m, e))
  {
  }

  lemma CleanUndoBlob(s: State, m: EmailId)
    requires Links(s) && Clean(s) && m in s.submits && s.submits[m].pc.Undoing? && s.submits[m].pc.todo != []
    ensures Clean(DoUndoBlob(s, m, true))
  {
    var s' := DoUndoBlob(s, m, true);
    assert Traceable(s, m);
    forall k | OwnedBlob(s', m, k) ensures k in s'.submits[m].pc.todo {
      assert OwnedBlob(s, m, k);
    }
    forall n, k | n in s'.submits && OwnedBlob(s', n, k) ensures OwnedBlob(s, n, k) {
    }
  }

  lemma CleanUndoRow(s: State, m: EmailId)
    requires Links(s) && Clean(s) && InPc(s, m, Undoing([]))
    ensures Clean(DoUndoRow(s, m, true))
  {
    var s' := DoUndoRow(s, m, true);
    assert Traceable(s, m);
    forall k | k in s'.db.blobs ensures !Owns(s', m, k) {
      assert !OwnedBlob(s, m, k);
    }
    forall e | e in s'.db.rows ensures s'.db.rows[e].email != m {
      assert RowOk(s, e);
    }
  }

  /** Workers, the sweeper and the clock only take things away. */
  lemma CleanShrink(s: State, s': State)
    requires Clean(s) && s'.submits == s.submits && s'.ids.(nextTask := 0) == s.ids.(nextTask := 0)
    requires s'.past.accepted == s.past.accepted && s'.db.emails.Keys == s.db.emails.Keys
    requires forall k :: k in s'.db.blobs ==> k in s.db.blobs
    requires forall e :: e in s'.db.rows ==> e in s.db.rows && s'.db.rows[e].email == s.db.rows[e].email
    ensures Clean(s')
  {
  }

  lemma CleanSave(s: State, m: EmailId, n: nat)
    requires Links(s) && Clean(s) && m !in s.ids.known
    ensures Clean(DoSave(s, m, n))
  {
  }

  lemma CleanSetRefs(s: State, m: EmailId)
    requires Clean(s) && InPc(s, m, Referencing) && m in s.db.emails
    ensures Clean(DoSetRefs(s, m))
  {
  }

  lemma CleanAnnounce(s: State, m: EmailId, ok: bool)
    requires Links(s) && Clean(s) && InPc(s, m, Announcing)
    ensures Clean(DoAnnounce(s, m, ok))
  {
  }

  predicate OfSubmission(l: Label) {
    l.Save? || l.Put? || l.PutLost? || l.StoreFails? || l.SetRefs? || l.Enqueue? || l.Announce? || l.UndoBlob?
    || l.UndoRow? || l.SubmitCrash?
  }

  lemma CleanSubmitStep(c: Config, s: State, l: Label, s': State)
    requires Links(s) && Clean(s) && Enabled(c, s, l) && s' == Next(c, s, l) && UndoWorks(l) && OfSubmission(l)
    ensures Clean(s')
  {
    if l.Save? {
      CleanSave(s, l.m, l.attachments);
    } else if l.Put? {
      CleanPut(s, l.m, l.key);
    } else if l.StoreFails? {
      CleanRollback(s, l.m);
    } else if l.SetRefs? {
      assert SubmitOk(s, l.m);
      CleanRollback(s, l.m);
      CleanSetRefs(s, l.m);
    } else if l.Enqueue? {
      CleanRollback(s, l.m);
      CleanEnqueue(s, l.m, l.entry);
    } else if l.Announce? {
      CleanAnnounce(s, l.m, l.ok);
    } else if l.UndoBlob? {
      CleanUndoBlob(s, l.m);
    } else {
      CleanUndoRow(s, l.m);
    }
  }

  lemma CleanOtherStep(c: Config, s: State, l: Label, s': State)
    requires Links(s) && Clean(s) && Enabled(c, s, l) && s' == Next(c, s, l) && !OfSubmission(l)
    ensures Clean(s')
  {
    if l.TaskCall? {
      CallShrinks(s.db, s.tasks[l.task], l.call, s.now);
    }
    CleanShrink(s, s');
  }

  lemma {:induction false} CleanRun(c: Config, states: seq<State>, labels: seq<Label>, i: nat)
    requires IsRun(c, states, labels) && i < |states|
    requires forall j :: 0 <= j < |labels| ==> UndoWorks(labels[j])
    ensures Links(states[i]) && Clean(states[i])
  {
    Reachable(c, states, labels, i);
    if i > 0 {
      CleanRun(c, states, labels, i - 1);
      var s, l := states[i - 1], labels[i - 1];
      if OfSubmission(l) {
        CleanSubmitStep(c, s, l, states[i]);
      } else {
        CleanOtherStep(c, s, l, states[i]);
      }
    }
  }

  /**
   * In every interleaving whose undo calls work, a submission that has ended either was accepted, or left no
   * row, no entry and no blob.
   */
  lemma AcceptedOrNoTrace(c: Config, states: seq<State>, labels: seq<Label>, i: nat, m: EmailId)
    requires IsRun(c, states, labels) && i < |states|
    requires forall j :: 0 <= j < |labels| ==> UndoWorks(labels[j])
    requires m in states[i].ids.known && m !in states[i].submits
    ensures m in states[i].ids.entryOf || NoTrace(states[i], m)
  {
    CleanRun(c, states, labels, i);
  }

  // ---------------------------------------------------------------------------
  // A failing put that leaves its blob behind
  // ---------------------------------------------------------------------------

  /** Blob `k`, stored for `m` at time `at`, is in no email's list, and `m` will never enter it into one. */
  predicate Lost(s: State, m: EmailId, k: Key, at: nat) {
    && k in s.ids.keys && s.ids.keys[k] == KeyInfo(m, at)
    && m in s.ids.known && (m in s.submits ==> s.submits[m].pc.Undoing?)
    && (forall n :: n in s.db.emails ==> k !in s.db.emails[n])
  }

  lemma LostRefs(s: State, n: EmailId, m: EmailId, k: Key, at: nat)
    requires Links(s) && Lost(s, m, k, at) && InPc(s, n, Referencing)
    ensures Lost(DoSetRefs(s, n), m, k, at)
  {
    assert SubmitOk(s, n) && OwnsAll(s, n, s.submits[n].written);
  }

  lemma LostCall(s: State, t: TaskId, call: Call, m: EmailId, k: Key, at: nat)
    requires Lost(s, m, k, at) && t in s.tasks && Awaits(s.tasks[t], call)
    ensures Lost(DoCall(s, t, call), m, k, at)
  {
  }

  lemma LostOther(c: Config, s: State, l: Label, s': State, m: EmailId, k: Key, at: nat)
    requires Lost(s, m, k, at) && Enabled(c, s, l) && s' == Next(c, s, l)
    requires !(l.SetRefs? && l.m in s.db.emails) && !l.TaskCall?
    ensures Lost(s', m, k, at)
  {
  }

  lemma LostStep(c: Config, s: State, l: Label, s': State, m: EmailId, k: Key, at: nat)
    requires Links(s) && Lost(s, m, k, at) && Enabled(c, s, l) && s' == Next(c, s, l)
    ensures Lost(s', m, k, at)
  {
    if l.SetRefs? && l.m in s.db.emails {
      LostRefs(s, l.m, m, k, at);
    } else if l.TaskCall? {
      LostCall(s, l.task, l.call, m, k, at);
    } else {
      LostOther(c, s, l, s', m, k, at);
    }
  }

  lemma LostAtOnce(c: Config, s: State, m: EmailId, k: Key, s': State)
    requires Links(s) && Enabled(c, s, PutLost(m, k)) && s' == Next(c, s, PutLost(m, k))
    ensures Lost(s', m, k, s.now)
  {
    assert SubmitOk(s, m);
    forall n | n in s.db.emails ensures k !in s.db.emails[n] {
      assert OwnsAll(s, n, s.db.emails[n]);
    }
  }

  lemma LostNext(c: Config, states: seq<State>, labels: seq<Label>, j: nat, m: EmailId, k: Key, at: nat)
    requires IsRun(c, states, labels) && j < |labels| && Lost(states[j], m, k, at)
    ensures Lost(states[j + 1], m, k, at)
  {
    Reachable(c, states, labels, j);
    LostStep(c, states[j], labels[j], states[j + 1], m, k, at);
  }

  lemma {:induction false} LostAlong(
    c: Config, states: seq<State>, labels: seq<Label>, x: nat, j: nat, m: EmailId, k: Key, at: nat)
    requires IsRun(c, states, labels) && x <= j < |states| && Lost(states[x], m, k, at)
    ensures Lost(states[j], m, k, at)
    decreases j
  {
    if j > x {
      LostAlong(c, states, labels, x, j - 1, m, k, at);
      LostNext(c, states, labels, j - 1, m, k, at);
    }
  }

  /** No email ever refers to such a blob, so as long as it is there only its age keeps the sweeper away. */
  lemma LostForEver(c: Config, states: seq<State>, labels: seq<Label>, x: nat, j: nat, m: EmailId, k: Key)
    requires IsRun(c, states, labels) && x < j < |states| && labels[x] == PutLost(m, k)
    ensures forall n :: n in states[j].db.emails ==> k !in states[j].db.emails[n]
    ensures k in states[j].db.blobs ==> states[j].db.blobs[k] == states[x].now
  {
    Reachable(c, states, labels, x);
    LostAtOnce(c, states[x], m, k, states[x + 1]);
    LostAlong(c, states, labels, x + 1, j, m, k, states[x].now);
    Reachable(c, states, labels, j);
  }

  // ---------------------------------------------------------------------------
  // Answering a duplicate while the first submission is still running
  // ---------------------------------------------------------------------------

  /** An email has an entry exactly if it was accepted. */
  lemma {:induction false} AcceptedHasEntry(c: Config, states: seq<State>, labels: seq<Label>, i: nat)
    requires IsRun(c, states, labels) && i < |states|
    ensures states[i].past.accepted == states[i].ids.entryOf.Keys
  {
    if i > 0 {
      AcceptedHasEntry(c, states, labels, i - 1);
      AcceptedStep(c, states[i - 1], labels[i - 1]);
    }
  }

  lemma AcceptedStep(c: Config, s: State, l: Label)
    requires Enabled(c, s, l) && s.past.accepted == s.ids.entryOf.Keys
    ensures Next(c, s, l).past.accepted == Next(c, s, l).ids.entryOf.Keys
  {
  }

  /** A way on in which every undo call works and the submission of `m` ends. */
  ghost predicate EndsSubmission(c: Config, s: State, later: seq<Label>, t: State, m: EmailId) {
    Leads(c, s, later, t) && (forall l :: l in later ==> UndoWorks(l)) && m !in t.submits
  }

  /** `m` is accounted for however things go on, once its submission has ended. */
  ghost predicate SafeToConfirm(c: Config, s: State, m: EmailId) {
    forall later: seq<Label>, t: State :: EndsSubmission(c, s, later, t, m) ==> Accounted(t, m)
  }

  lemma EndsOneEarlier(c: Config, s: State, l: Label, later: seq<Label>, t: State, m: EmailId)
    requires Enabled(c, s, l) && UndoWorks(l) && EndsSubmission(c, Next(c, s, l), later, t, m)
    ensures EndsSubmission(c, s, [l] + later, t, m)
  {
    assert ([l] + later)[1..] == later;
  }

  lemma {:induction false} UndoingEnds(c: Config, s: State, m: EmailId) returns (later: seq<Label>, t: State)
    requires m in s.submits && s.submits[m].pc.Undoing?
    ensures EndsSubmission(c, s, later, t, m) && t.ids.entryOf == s.ids.entryOf
    decreases |s.submits[m].pc.todo|
  {
    if s.submits[m].pc.todo == [] {
      var l := UndoRow(m, true);
      t := Next(c, s, l);
      EndsOneEarlier(c, s, l, [], t, m);
      later := [l] + [];
    } else {
      var l := UndoBlob(m, true);
      later, t := UndoingEnds(c, Next(c, s, l), m);
      EndsOneEarlier(c, s, l, later, t, m);
      later := [l] + later;
    }
  }

  lemma FreshEntry(used: set<EntryId>) returns (e: EntryId)
    ensures e !in used
  {
    if used == {} {
      e := 0;
    } else {
      var top := HighestOf(used);
      e := top + 1;
    }
  }

  lemma {:induction false} HighestOf(used: set<EntryId>) returns (top: EntryId)
    requires used != {}
    ensures forall e :: e in used ==> e <= top
  {
    var some :| some in used;
    if used == {some} {
      top := some;
    } else {
      var rest := HighestOf(used - {some});
      top := if rest < some then some else rest;
      assert forall e :: e in used ==> e == some || e in used - {some};
    }
  }

  /** A submission that is not yet in the queue may still fail, and then its row goes. */
  lemma OngoingMayEnd(c: Config, s: State, m: EmailId) returns (later: seq<Label>, t: State)
    requires m in s.submits && s.submits[m].Ongoing()
    ensures EndsSubmission(c, s, later, t, m) && t.ids.entryOf == s.ids.entryOf
  {
    var e := FreshEntry(s.ids.entryOf.Values);
    var pc := s.submits[m].pc;
    var l := if pc.Storing? then StoreFails(m) else if pc.Referencing? then SetRefs(m, false) else Enqueue(m, e, false);
    later, t := UndoingEnds(c, Next(c, s, l), m);
    EndsOneEarlier(c, s, l, later, t, m);
    later := [l] + later;
  }

  lemma NotYetSafe(c: Config, s: State, m: EmailId)
    requires Links(s) && m !in s.ids.entryOf
    ensures !SafeToConfirm(c, s, m)
  {
    var later: seq<Label>, t := [], s;
    if m in s.submits {
      assert SubmitOk(s, m);
      if s.submits[m].pc.Undoing? {
        later, t := UndoingEnds(c, s, m);
      } else {
        later, t := OngoingMayEnd(c, s, m);
      }
    }
    assert EndsSubmission(c, s, later, t, m) && !Accounted(t, m);
  }

  /** However a run goes on, an email with an entry stays accounted for. */
  lemma EntryStays(c: Config, states: seq<State>, labels: seq<Label>, i: nat, m: EmailId, later: seq<Label>, t: State)
    requires IsRun(c, states, labels) && i < |states| && m in states[i].ids.entryOf && Leads(c, states[i], later, t)
    ensures Accounted(t, m)
  {
    AcceptedHasEntry(c, states, labels, i);
    var upTo := states[..i + 1];
    var states' := Continue(c, upTo, labels[..i], later, t);
    assert states'[i] == upTo[i];
    NoLoss(c, states', labels[..i] + later, i, |states'| - 1, m);
  }

  /**
   * A second call with the same key is told Ok as soon as the row of the first, `m`, exists. That promise is
   * kept in every way things can go on, with all undo calls working, exactly if the first call has enqueued
   * `m` already; up to then it may still fail and take its row away.
   */
  lemma DuplicateExactly(c: Config, states: seq<State>, labels: seq<Label>, i: nat, m: EmailId)
    requires IsRun(c, states, labels) && i < |states|
    ensures SafeToConfirm(c, states[i], m) <==> m in states[i].ids.entryOf
  {
    if m in states[i].ids.entryOf {
      forall later: seq<Label>, t: State | EndsSubmission(c, states[i], later, t, m) ensures Accounted(t, m) {
        EntryStays(c, states, labels, i, m, later, t);
      }
    } else {
      Reachable(c, states, labels, i);
      NotYetSafe(c, states[i], m);
    }
  }
}
