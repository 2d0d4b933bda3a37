/** `AttachmentGc::sweep_once`, a program whose every effect is a sweeper step of the pipeline. */
module AttachmentGc {
  import opened Core
  import opened BlobAge
  import opened Pipeline
  import opened EmailStatus
  import opened StatusOverRuns

  /** `list_keys_older_than`'s answer. */
  ghost predicate AllOld(c: Config, s: State, keys: seq<Key>) {
    && (forall k :: k in keys <==> k in s.db.blobs && Lists(c.store, s.now, s.db.blobs[k], c.graceMs))
    && (forall i, j :: 0 <= i < j < |keys| ==> keys[i] != keys[j])
  }

  /** Storage, blob store and cancellation token as the sweeper meets them. */
  class World {
    const config: Config
    const backend: string
    const works: nat -> bool
    const cancels: nat -> bool
    var state: State
    var rows: seq<LifecycleRow>
    var emails: map<EmailId, seq<BlobRef>>
    var calls: nat
    var checks: nat

    /** Tables and pipeline state are two views of one database, all of whose blobs are in this backend. */
    ghost predicate Valid()
      reads this
    {
      && |rows| == |state.db.events| && UniqueIds(rows)
      && (forall i :: 0 <= i < |rows| ==>
            rows[i].event == state.db.events[i].event && rows[i].createdAt == state.db.events[i].at)
      && emails.Keys == state.db.emails.Keys
      && (forall m, k :: m in state.db.emails && k in state.db.emails[m] ==> BlobRef(backend, k) in emails[m])
    }

    method Attempt() returns (ok: bool)
      modifies this`calls
      ensures ok == works(old(calls))
    {
      ok := works(calls);
      calls := calls + 1;
    }

    method IsCancelled() returns (yes: bool)
      modifies this`checks
      ensures yes == cancels(old(checks))
    {
      yes := cancels(checks);
      checks := checks + 1;
    }

    /** The live references, filtered to this backend; the query may fail. */
    method ListLive() returns (r: Option<set<Key>>)
      requires Valid()
      modifies this`calls
      ensures r.Some? <==> works(old(calls))
      ensures r.Some? ==> IsSnapshot(state, r.value)
      ensures r.Some? ==> forall k :: k in r.value <==> IsLive(emails, rows, BlobRef(backend, k))
    {
      var ok := Attempt();
      if !ok {
        return None;
      }
      var blobs := ListAllAttachmentBlobs(emails, rows);
      var live := LiveKeys(blobs, backend);
      LiveIsSnapshot(state, rows, emails, backend, live);
      r := Some(live);
    }

    /** `list_keys_older_than`: each old enough blob once; the call itself may fail. */
    method ListKeysOlderThan() returns (r: Option<seq<Key>>)
      modifies this`calls
      ensures r.Some? <==> works(old(calls))
      ensures r.Some? ==> AllOld(config, state, r.value)
    {
      var ok := Attempt();
      if !ok {
        return None;
      }
      var keys := [];
      var left := state.db.blobs.Keys;
      while left != {}
        invariant left <= state.db.blobs.Keys
        invariant forall k :: k in keys <==>
          k in state.db.blobs.Keys - left && Lists(config.store, state.now, state.db.blobs[k], config.graceMs)
        invariant forall i, j :: 0 <= i < j < |keys| ==> keys[i] != keys[j]
        decreases |left|
      {
        var k :| k in left;
        if Lists(config.store, state.now, state.db.blobs[k], config.graceMs) {
          keys := keys + [k];
        }
        left := left - {k};
      }
      r := Some(keys);
    }

    /** `delete` of one blob. */
    method Delete(k: Key) returns (ok: bool)
      requires Enabled(config, state, SweepDelete(k, true))
      modifies this`state, this`calls
      ensures state == Next(config, old(state), SweepDelete(k, ok)) && ok == works(old(calls))
    {
      ok := Attempt();
      state := Next(config, state, SweepDelete(k, ok));
    }
  }

  /** Old enough to be listed, and no unfinished email refers to it. */
  ghost predicate Garbage(c: Config, s: State, live: set<Key>, k: Key) {
    k in s.db.blobs && Lists(c.store, s.now, s.db.blobs[k], c.graceMs) && k !in live
  }

  /** Between the first and the last deletion: which keys have been tried, and what is left of the store. */
  ghost predicate Sweeping(c: Config, s0: State, s: State, live: set<Key>, keys: seq<Key>, i: nat) {
    && i <= |keys| && s.sweep.Deleting? && s.sweep.live == live
    && (forall j :: i <= j < |keys| ==> keys[j] in s.sweep.todo)
    && s == s0.(sweep := s.sweep, db := s0.db.(blobs := s.db.blobs))
    && (forall k :: k in s.db.blobs ==> k in s0.db.blobs && s.db.blobs[k] == s0.db.blobs[k])
    && (forall k :: k in s0.db.blobs && k !in s.db.blobs ==> Garbage(c, s0, live, k) && k in keys[..i])
  }

  lemma SweepingStep(c: Config, s0: State, s: State, live: set<Key>, keys: seq<Key>, i: nat, ok: bool)
    requires Sweeping(c, s0, s, live, keys, i) && i < |keys| && keys[i] !in live
    requires forall j :: i < j < |keys| ==> keys[j] != keys[i]
    requires keys[i] in s0.db.blobs ==> Garbage(c, s0, live, keys[i])
    ensures Enabled(c, s, SweepDelete(keys[i], ok))
    ensures var s' := Next(c, s, SweepDelete(keys[i], ok));
            && Sweeping(c, s0, s', live, keys, i + 1)
            && s'.db.blobs == if ok then s.db.blobs - {keys[i]} else s.db.blobs
  {
  }

  lemma SweepingSkip(c: Config, s0: State, s: State, live: set<Key>, keys: seq<Key>, i: nat)
    requires Sweeping(c, s0, s, live, keys, i) && i < |keys|
    ensures Sweeping(c, s0, s, live, keys, i + 1)
  {
  }

  /** What was tried and not live is gone unless its deletion failed. */
  ghost predicate Tried(s: State, live: set<Key>, keys: seq<Key>, i: nat, missed: set<Key>)
    requires i <= |keys|
  {
    && (forall k :: k in keys[..i] && k !in live ==> (k in s.db.blobs <==> k in missed))
    && (forall k :: k in missed ==> k in keys[..i])
  }

  lemma MayDelete(c: Config, s0: State, s: State, live: set<Key>, keys: seq<Key>, i: nat)
    requires Sweeping(c, s0, s, live, keys, i) && i < |keys| && keys[i] !in live
    ensures Enabled(c, s, SweepDelete(keys[i], true))
  {
  }

  lemma TriedOne(s: State, s': State, live: set<Key>, keys: seq<Key>, i: nat, missed: set<Key>, ok: bool)
    requires i < |keys| && Tried(s, live, keys, i, missed) && keys[i] in s.db.blobs
    requires forall j :: 0 <= j < i ==> keys[j] != keys[i]
    requires s'.db.blobs == if ok then s.db.blobs - {keys[i]} else s.db.blobs
    ensures Tried(s', live, keys, i + 1, if ok then missed else missed + {keys[i]})
  {
    assert keys[..i + 1] == keys[..i] + [keys[i]];
  }

  method DeleteOne(
    w: World, live: set<Key>, keys: seq<Key>, i: nat, ghost s0: State, ghost before: seq<Label>, ghost missed: set<Key>)
    returns (ok: bool, ghost labels: seq<Label>)
    requires i < |keys| && keys[i] !in live && AllOld(w.config, s0, keys) && Tried(w.state, live, keys, i, missed)
    requires Leads(w.config, s0, before, w.state) && Sweeping(w.config, s0, w.state, live, keys, i)
    requires Untouched(w.state, keys, i)
    modifies w`state, w`calls
    ensures ok == w.works(old(w.calls))
    ensures Leads(w.config, s0, labels, w.state) && Sweeping(w.config, s0, w.state, live, keys, i + 1)
    ensures Tried(w.state, live, keys, i + 1, if ok then missed else missed + {keys[i]})
    ensures Untouched(w.state, keys, i + 1)
  {
    var k := keys[i];
    ghost var s := w.state;
    MayDelete(w.config, s0, s, live, keys, i);
    ok := w.Delete(k);
    SweepingStep(w.config, s0, s, live, keys, i, ok);
    LeadsOneMore(w.config, s0, before, s, SweepDelete(k, ok));
    labels := before + [SweepDelete(k, ok)];
    TriedOne(s, w.state, live, keys, i, missed, ok);
  }

  ghost predicate Untouched(s: State, keys: seq<Key>, i: nat) {
    forall j :: i <= j < |keys| ==> keys[j] in s.db.blobs
  }

  lemma TriedSkip(s: State, live: set<Key>, keys: seq<Key>, i: nat, missed: set<Key>)
    requires i < |keys| && keys[i] in live && Tried(s, live, keys, i, missed)
    ensures Tried(s, live, keys, i + 1, missed)
  {
  }

  /** Deletes what is garbage among `keys`, stopping early when cancelled. */
  method DeleteGarbage(w: World, live: set<Key>, keys: seq<Key>, ghost s0: State, ghost before: seq<Label>)
    returns (ghost labels: seq<Label>, ghost cancelled: bool, ghost missed: set<Key>)
    requires Leads(w.config, s0, before, w.state) && Sweeping(w.config, s0, w.state, live, keys, 0)
    requires AllOld(w.config, s0, keys) && w.state.db.blobs == s0.db.blobs
    modifies w`state, w`calls, w`checks
    ensures Leads(w.config, s0, labels, w.state) && Sweeping(w.config, s0, w.state, live, keys, |keys|)
    ensures !cancelled ==> Tried(w.state, live, keys, |keys|, missed)
    ensures (forall n :: w.works(n)) ==> missed == {}
    ensures (forall n :: !w.cancels(n)) ==> !cancelled
  {
    labels, cancelled, missed := before, false, {};
    var i := 0;
    while i < |keys|
      invariant Sweeping(w.config, s0, w.state, live, keys, i) && Untouched(w.state, keys, i)
      invariant Leads(w.config, s0, labels, w.state) && !cancelled
      invariant Tried(w.state, live, keys, i, missed)
      invariant (forall n :: w.works(n)) ==> missed == {}
    {
      var stop := w.IsCancelled();
      if stop {
        cancelled := true;
        SweepingAll(w.config, s0, w.state, live, keys, i);
        return;
      }
      if keys[i] !in live {
        var ok;
        ok, labels := DeleteOne(w, live, keys, i, s0, labels, missed);
        missed := if ok then missed else missed + {keys[i]};
      } else {
        SweepingSkip(w.config, s0, w.state, live, keys, i);
        TriedSkip(w.state, live, keys, i, missed);
      }
      i := i + 1;
    }
  }

  lemma SweepingAll(c: Config, s0: State, s: State, live: set<Key>, keys: seq<Key>, i: nat)
    requires Sweeping(c, s0, s, live, keys, i)
    ensures Sweeping(c, s0, s, live, keys, |keys|)
  {
  }

  /** From an idle sweeper to the first deletion. */
  lemma SweepBegins(c: Config, s0: State, live: set<Key>, keys: seq<Key>) returns (s2: State)
    requires s0.sweep.Idle? && IsSnapshot(s0, live) && AllOld(c, s0, keys)
    ensures Leads(c, s0, [Snapshot(live), ListOld(set k | k in keys)], s2)
    ensures s2 == s0.(sweep := Deleting(live, set k | k in keys)) && Sweeping(c, s0, s2, live, keys, 0)
  {
    var todo := set k | k in keys;
    var s1 := Next(c, s0, Snapshot(live));
    s2 := Next(c, s1, ListOld(todo));
    LeadsOneMore(c, s0, [], s0, Snapshot(live));
    LeadsOneMore(c, s0, [Snapshot(live)], s1, ListOld(todo));
    assert [] + [Snapshot(live)] == [Snapshot(live)];
    assert [Snapshot(live)] + [ListOld(todo)] == [Snapshot(live), ListOld(todo)];
  }

  /** The sweep ends; what is gone was garbage. */
  lemma SweepEnds(c: Config, s0: State, labels: seq<Label>, s: State, live: set<Key>, keys: seq<Key>)
    returns (s': State)
    requires s0.sweep.Idle? && Leads(c, s0, labels, s) && Sweeping(c, s0, s, live, keys, |keys|)
    ensures s' == s.(sweep := Idle) && Leads(c, s0, labels + [SweepEnd], s') && OnlyGarbageGone(c, s0, s', live)
  {
    s' := Next(c, s, SweepEnd);
    LeadsOneMore(c, s0, labels, s, SweepEnd);
  }

  /** The two states differ in deleted garbage only. */
  ghost predicate OnlyGarbageGone(c: Config, s: State, s': State, live: set<Key>) {
    && s' == s.(db := s.db.(blobs := s'.db.blobs))
    && (forall k :: k in s'.db.blobs ==> k in s.db.blobs && s'.db.blobs[k] == s.db.blobs[k])
    && (forall k :: k in s.db.blobs && k !in s'.db.blobs ==> Garbage(c, s, live, k))
  }

  /**
   * `sweep_once`. Whatever fails, its effects are sweeper steps of the pipeline and only garbage is
   * deleted; when it runs to its end, exactly the garbage whose deletion failed is left.
   */
  method SweepOnce(w: World)
    returns (r: Result<(), ()>, ghost labels: seq<Label>, ghost live: set<Key>, ghost cancelled: bool,
             ghost missed: set<Key>)
    requires w.Valid() && w.state.sweep.Idle?
    modifies w`state, w`calls, w`checks
    ensures Leads(w.config, old(w.state), labels, w.state)
    ensures labels != [] ==> forall k :: k in live <==> IsLive(w.emails, w.rows, BlobRef(w.backend, k))
    ensures OnlyGarbageGone(w.config, old(w.state), w.state, live)
    ensures r.Ok? && !cancelled ==>
      labels != [] && forall k :: Garbage(w.config, old(w.state), live, k) ==> (k in w.state.db.blobs <==> k in missed)
    ensures (forall n :: w.works(n)) ==> r.Ok? && missed == {}
    ensures (forall n :: !w.cancels(n)) ==> !cancelled
  {
    labels, live, cancelled, missed, r := [], {}, false, {}, Ok(());
    ghost var s0 := w.state;
    var stop := w.IsCancelled();
    if stop {
      cancelled := true;
      return;
    }
    var answer := w.ListLive();
    if answer.None? {
      r := Err(());
      return;
    }
    live := answer.value;
    var listed := w.ListKeysOlderThan();
    if listed.None? {
      r := Err(());
      return;
    }
    var keys := listed.value;
    ghost var begun := SweepBegins(w.config, s0, live, keys);
    w.state := w.state.(sweep := Deleting(answer.value, set k | k in keys));
    labels, cancelled, missed := DeleteGarbage(w, answer.value, keys, s0, [Snapshot(live), ListOld(set k | k in keys)]);
    ghost var ended := SweepEnds(w.config, s0, labels, w.state, live, keys);
    assert keys[..|keys|] == keys;
    w.state := w.state.(sweep := Idle);
    labels := labels + [SweepEnd];
  }

  /** A blob that no email refers to, old enough to be listed, is gone after a sweep in which nothing fails. */
  method CollectUnreferenced(w: World, k: Key)
    requires w.Valid() && w.state.sweep.Idle? && (forall n :: w.works(n) && !w.cancels(n))
    requires forall m :: m in w.emails ==> BlobRef(w.backend, k) !in w.emails[m]
    requires k in w.state.db.blobs && Lists(w.config.store, w.state.now, w.state.db.blobs[k], w.config.graceMs)
    modifies w`state, w`calls, w`checks
    ensures k !in w.state.db.blobs
  {
    ghost var s := w.state;
    var r;
    ghost var labels, live, cancelled, missed;
    r, labels, live, cancelled, missed := SweepOnce(w);
    assert Garbage(w.config, s, live, k);
  }
}
