/** The `email_queue` table as a value: what each SQL statement of the lease queue does to it. */
module LeaseTable {
  import opened Core

  datatype Row = Row(email: EmailId, enqueuedAt: nat, claimedUntil: Option<nat>, attempts: nat)

  type Table = map<EntryId, Row>

  predicate Claimable(r: Row, now: nat) {
    r.claimedUntil.None? || r.claimedUntil.value < now
  }

  /** The rows `pending` counts. */
  function Ready(t: Table, now: nat): set<EntryId> {
    set e | e in t && Claimable(t[e], now)
  }

  /** `e` may be what `ORDER BY enqueued_at LIMIT 1` returns; ties are left open. */
  predicate IsNext(t: Table, now: nat, e: EntryId) {
    && e in Ready(t, now)
    && forall f :: f in Ready(t, now) ==> t[e].enqueuedAt <= t[f].enqueuedAt
  }

  function Inserted(t: Table, e: EntryId, m: EmailId, now: nat): Table {
    t[e := Row(m, now, None, 0)]
  }

  function Claimed(t: Table, e: EntryId, now: nat): Table
    requires e in t
  {
    t[e := t[e].(claimedUntil := Some(now + LEASE_MS), attempts := t[e].attempts + 1)]
  }

  function Acked(t: Table, e: EntryId): Table {
    t - {e}
  }

  function Nacked(t: Table, e: EntryId, now: nat, delayMs: nat): Table {
    if e in t then t[e := t[e].(claimedUntil := Some(now + delayMs))] else t
  }

  lemma {:induction false} OldestExists(t: Table, now: nat, s: set<EntryId>) returns (e: EntryId)
    requires s <= Ready(t, now) && s != {}
    ensures e in s && forall f :: f in s ==> t[e].enqueuedAt <= t[f].enqueuedAt
    decreases s
  {
    e :| e in s;
    if s != {e} {
      var g := OldestExists(t, now, s - {e});
      if t[g].enqueuedAt < t[e].enqueuedAt {
        e := g;
      }
    }
  }

  /** Something can be claimed exactly when `pending` is positive. */
  lemma NextExists(t: Table, now: nat)
    ensures (exists e :: IsNext(t, now, e)) <==> |Ready(t, now)| > 0
  {
    if Ready(t, now) != {} {
      var e := OldestExists(t, now, Ready(t, now));
      assert IsNext(t, now, e);
    }
  }

  /** A claim of any claimable entry, and likewise its removal as an orphan, lowers `pending` by one. */
  lemma ClaimLowersPending(t: Table, now: nat, e: EntryId)
    requires e in Ready(t, now)
    ensures |Ready(Claimed(t, e, now), now)| == |Ready(t, now)| - 1
    ensures |Ready(Acked(t, e), now)| == |Ready(t, now)| - 1
  {
    assert Ready(Claimed(t, e, now), now) == Ready(t, now) - {e};
    assert Ready(Acked(t, e), now) == Ready(t, now) - {e};
  }
}

/** The SQL queue as an object: SQLite's statement-by-statement version and Postgres' transaction. */
module SqlQueue {
  import opened Core
  import opened LeaseTable

  datatype Dequeued<Envelope> = Dequeued(id: EmailId, envelope: Envelope, attempt: nat, token: EntryId)

  /** Which statement of a dequeue the database refuses, if any. */
  datatype Fault = NoFault | AtClaim | AtFetch | AtOrphanDelete

  datatype QueueError = Storage

  type Claim<Envelope> = Result<Option<Dequeued<Envelope>>, QueueError>

  class LeaseQueue<Envelope> {
    var rows: Table
    var emails: map<EmailId, Envelope>
    var now: nat

    constructor ()
      ensures rows == map[] && emails == map[] && now == 0
    {
      rows, emails, now := map[], map[], 0;
    }

    /** Entries whose email row is missing. */
    function Orphans(): set<EntryId>
      reads this`rows, this`emails
    {
      set e | e in rows && rows[e].email !in emails
    }

    method Pending() returns (n: nat)
      ensures n == |Ready(rows, now)|
      ensures n > 0 <==> exists e :: IsNext(rows, now, e)
    {
      NextExists(rows, now);
      n := |Ready(rows, now)|;
    }

    method Enqueue(e: EntryId, m: EmailId)
      requires e !in rows
      modifies this`rows
      ensures rows == Inserted(old(rows), e, m, now)
    {
      rows := rows[e := Row(m, now, None, 0)];
    }

    method Ack(token: EntryId)
      modifies this`rows
      ensures token !in rows
      ensures forall e :: e in old(rows) && e != token ==> e in rows && rows[e] == old(rows)[e]
      ensures rows == Acked(old(rows), token)
    {
      rows := map e | e in rows && e != token :: rows[e];
    }

    method Nack(token: EntryId, delayMs: nat)
      modifies this`rows
      ensures rows == Nacked(old(rows), token, now, delayMs)
      ensures rows.Keys == old(rows).Keys
    {
      if token in rows {
        var row := rows[token];
        rows := rows[token := Row(row.email, row.enqueuedAt, Some(now + delayMs), row.attempts)];
      }
    }

    /** SQLite: the claim, the email lookup and the orphan's removal are separate statements. */
    method TryDequeue(fault: Fault) returns (r: Claim<Envelope>, ghost e: EntryId)
      modifies this`rows
      ensures fault == AtClaim ==> r == Err(Storage) && rows == old(rows)
      ensures fault != AtClaim && Ready(old(rows), now) == {} ==> r == Ok(None) && rows == old(rows)
      ensures fault != AtClaim && Ready(old(rows), now) != {} ==>
        && IsNext(old(rows), now, e)
        && var row := old(rows)[e];
        if fault == AtFetch then r == Err(Storage) && rows == Claimed(old(rows), e, now)
        else if row.email in emails then
          && r == Ok(Some(Dequeued(row.email, emails[row.email], row.attempts + 1, e)))
          && rows == Claimed(old(rows), e, now)
        else if fault == AtOrphanDelete then r == Err(Storage) && rows == Claimed(old(rows), e, now)
        else r == Ok(None) && rows == Acked(old(rows), e)
    {
      e := 0;
      if fault == AtClaim {
        return Err(Storage), e;
      }
      var ready := Ready(rows, now);
      if ready == {} {
        return Ok(None), e;
      }
      NextExists(rows, now);
      var next :| IsNext(rows, now, next);
      e := next;
      ghost var before := rows;
      var row := rows[next];
      rows := rows[next := Row(row.email, row.enqueuedAt, Some(now + LEASE_MS), row.attempts + 1)];
      if fault == AtFetch {
        r := Err(Storage);
      } else if row.email in emails {
        r := Ok(Some(Dequeued(row.email, emails[row.email], row.attempts + 1, next)));
      } else if fault == AtOrphanDelete {
        r := Err(Storage);
      } else {
        Ack(next);
        assert rows == Acked(before, next);
        r := Ok(None);
      }
    }

    /** Postgres: one transaction that skips rows other transactions hold locked; a fault rolls it back. */
    method TryDequeueTx(fault: Fault, locked: set<EntryId>) returns (r: Claim<Envelope>, ghost e: EntryId)
      modifies this`rows
      ensures r.Err? ==> rows == old(rows)
      ensures r.Ok? && Ready(old(rows) - locked, now) == {} ==> r == Ok(None) && rows == old(rows)
      ensures r.Ok? && Ready(old(rows) - locked, now) != {} ==>
        && IsNext(old(rows) - locked, now, e)
        && e !in locked
        && var row := old(rows)[e];
        if row.email in emails then
          && r == Ok(Some(Dequeued(row.email, emails[row.email], row.attempts + 1, e)))
          && rows == Claimed(old(rows), e, now)
        else r == Ok(None) && rows == Acked(old(rows), e)
      ensures r.Err? ==> fault != NoFault
    {
      e := 0;
      if fault == AtClaim {
        return Err(Storage), e;
      }
      var visible := rows - locked;
      if Ready(visible, now) == {} {
        return Ok(None), e;
      }
      NextExists(visible, now);
      var next :| IsNext(visible, now, next);
      e := next;
      var row := rows[next];
      if fault == AtFetch || (fault == AtOrphanDelete && row.email !in emails) {
        return Err(Storage), e;
      }
      if row.email in emails {
        rows := rows[next := Row(row.email, row.enqueuedAt, Some(now + LEASE_MS), row.attempts + 1)];
        r := Ok(Some(Dequeued(row.email, emails[row.email], row.attempts + 1, next)));
      } else {
        rows := rows - {next};
        r := Ok(None);
      }
    }

    /**
     * The polling loop, observed for `polls` rounds with nobody else touching the tables. A refused statement
     * ends it with an error. Each round without a result costs 100 ms and, once an entry with an email is
     * ready, removes one orphan.
     */
    method Dequeue(polls: nat, faults: nat -> Fault) returns (r: Claim<Envelope>, ghost before: Table, ghost at: nat)
      modifies this`rows, this`now
      ensures old(now) <= at <= now && before.Keys <= old(rows).Keys
      ensures forall e :: e in before ==> before[e] == old(rows)[e]
      ensures forall e :: e in old(rows) && e !in before ==> old(rows)[e].email !in emails
      ensures r.Ok? && r.value.Some? ==>
        var d := r.value.value;
        && IsNext(before, at, d.token) && rows == Claimed(before, d.token, at)
        && d.id == before[d.token].email && d.id in emails && d.envelope == emails[d.id]
        && d.attempt == before[d.token].attempts + 1
      ensures r.Ok? && r.value.None? ==> rows == before
      ensures r.Err? ==> (exists n :: faults(n) != NoFault) && rows.Keys == before.Keys
      ensures polls > |old(Orphans())| && Ready(old(rows), old(now)) - old(Orphans()) != {} ==>
        r.Err? || r.value.Some?
    {
      var left := polls;
      ghost var startOrphans := Orphans();
      ghost var sure := Ready(rows, now) - startOrphans;
      before, at := rows, now;
      while left > 0
        invariant 0 <= left <= polls
        invariant old(now) <= now && at == now && before == rows
        invariant rows.Keys <= old(rows).Keys
        invariant forall e :: e in rows ==> rows[e] == old(rows)[e]
        invariant forall e :: e in old(rows) && e !in rows ==> old(rows)[e].email !in emails
        invariant sure <= Ready(rows, now)
        invariant sure != {} ==> |Orphans()| + (polls - left) <= |startOrphans|
        decreases left
      {
        ghost var orphans := Orphans();
        assert sure != {} ==> Ready(rows, now) != {};
        var fault := faults(left);
        var claim, e := TryDequeue(fault);
        if claim.Err? {
          return claim, before, at;
        }
        if claim.value.Some? {
          return claim, before, at;
        }
        if Ready(before, now) != {} {
          assert Orphans() == orphans - {e};
        }
        now := now + 100;
        left := left - 1;
        before, at := rows, now;
      }
      r := Ok(None);
    }

    /** Ready, with an email, and in no round locked by another transaction. */
    ghost predicate Free(locks: nat -> set<EntryId>, e: EntryId)
      reads this
    {
      e in Ready(rows, now) && rows[e].email in emails && forall n :: e !in locks(n)
    }

    ghost predicate SomeFree(locks: nat -> set<EntryId>)
      reads this
    {
      exists e :: Free(locks, e)
    }

    /**
     * The same loop on Postgres: `locks` says what other transactions hold locked in each round. It makes
     * progress as long as some entry with an email is ready and in no round locked.
     */
    method DequeueTx(polls: nat, faults: nat -> Fault, locks: nat -> set<EntryId>)
      returns (r: Claim<Envelope>, ghost before: Table, ghost at: nat)
      modifies this`rows, this`now
      ensures old(now) <= at <= now && before.Keys <= old(rows).Keys
      ensures forall e :: e in before ==> before[e] == old(rows)[e]
      ensures forall e :: e in old(rows) && e !in before ==> old(rows)[e].email !in emails
      ensures r.Ok? && r.value.Some? ==>
        var d := r.value.value;
        && d.token in Ready(before, at) && rows == Claimed(before, d.token, at)
        && (exists n :: IsNext(before - locks(n), at, d.token))
        && d.id == before[d.token].email && d.id in emails && d.envelope == emails[d.id]
        && d.attempt == before[d.token].attempts + 1
      ensures !(r.Ok? && r.value.Some?) ==> rows == before
      ensures r.Err? ==> exists n :: faults(n) != NoFault
      ensures polls > |old(Orphans())| && old(SomeFree(locks)) ==> r.Err? || r.value.Some?
    {
      var left := polls;
      ghost var startOrphans := Orphans();
      ghost var free: EntryId := 0;
      ghost var some := SomeFree(locks);
      if some {
        free :| Free(locks, free);
      }
      before, at := rows, now;
      while left > 0
        invariant 0 <= left <= polls
        invariant old(now) <= now && at == now && before == rows
        invariant rows.Keys <= old(rows).Keys
        invariant forall e :: e in rows ==> rows[e] == old(rows)[e]
        invariant forall e :: e in old(rows) && e !in rows ==> old(rows)[e].email !in emails
        invariant some ==> Free(locks, free) && |Orphans()| + (polls - left) <= |startOrphans|
        decreases left
      {
        ghost var orphans := Orphans();
        var locked := locks(left);
        assert some ==> free in Ready(rows - locked, now);
        var claim, e := TryDequeueTx(faults(left), locked);
        if claim.Err? || claim.value.Some? {
          return claim, before, at;
        }
        if Ready(before - locked, now) != {} {
          assert Orphans() == orphans - {e};
        }
        now := now + 100;
        left := left - 1;
        before, at := rows, now;
      }
      r := Ok(None);
    }
  }
}
