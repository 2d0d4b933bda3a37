/** Asking for usage window by window: requests grouped by window start, one query a group, any map order. */
module WindowedUsage {
  import opened Core
  import opened SenderUsage

  /** A sender and the start of its quota window. */
  datatype Request = Request(name: SenderName, since: nat)

  type Windows = map<nat, seq<SenderName>>

  /** The names asked about for window `w`, in request order. */
  function NamesIn(reqs: seq<Request>, w: nat): seq<SenderName> {
    if reqs == [] then []
    else NamesIn(reqs[..|reqs| - 1], w) + if reqs[|reqs| - 1].since == w then [reqs[|reqs| - 1].name] else []
  }

  lemma {:induction false} NamesInMembers(reqs: seq<Request>, w: nat)
    ensures forall n :: n in NamesIn(reqs, w) <==> Request(n, w) in reqs
  {
    if reqs != [] {
      var init, last := reqs[..|reqs| - 1], reqs[|reqs| - 1];
      NamesInMembers(init, w);
      assert reqs == init + [last];
    }
  }

  predicate DistinctNames(reqs: seq<Request>) {
    forall i, j :: 0 <= i < j < |reqs| ==> reqs[i].name != reqs[j].name
  }

  lemma {:induction false} NamesInDistinct(reqs: seq<Request>, w: nat)
    requires DistinctNames(reqs)
    ensures Distinct(NamesIn(reqs, w))
  {
    if reqs != [] {
      var init := reqs[..|reqs| - 1];
      NamesInDistinct(init, w);
      NamesInMembers(init, w);
      forall n | n in NamesIn(init, w) ensures n != reqs[|reqs| - 1].name {
        assert Request(n, w) in init;
      }
    }
  }

  ghost predicate Asked(reqs: seq<Request>, w: nat) {
    exists n :: Request(n, w) in reqs
  }

  lemma AskedSnoc(reqs: seq<Request>, r: Request, w: nat)
    ensures Asked(reqs + [r], w) <==> Asked(reqs, w) || r.since == w
  {
    if Asked(reqs, w) {
      var n :| Request(n, w) in reqs;
      assert Request(n, w) in reqs + [r];
    }
    assert Request(r.name, r.since) in reqs + [r];
  }

  method GroupWindows(reqs: seq<Request>) returns (groups: Windows)
    ensures forall w :: w in groups <==> Asked(reqs, w)
    ensures forall w :: w in groups ==> groups[w] == NamesIn(reqs, w)
  {
    groups := map[];
    var i := 0;
    while i < |reqs|
      invariant 0 <= i <= |reqs|
      invariant forall w :: w in groups ==> groups[w] == NamesIn(reqs[..i], w)
      invariant forall w :: w in groups <==> Asked(reqs[..i], w)
      invariant forall w :: w !in groups ==> NamesIn(reqs[..i], w) == []
    {
      var r := reqs[i];
      assert reqs[..i + 1][..i] == reqs[..i] && reqs[..i + 1] == reqs[..i] + [r];
      groups := groups[r.since := (if r.since in groups then groups[r.since] else []) + [r.name]];
      forall w ensures w in groups <==> Asked(reqs[..i + 1], w) {
        AskedSnoc(reqs[..i], r, w);
      }
      i := i + 1;
    }
    assert reqs[..i] == reqs;
  }

  // ---------------------------------------------------------------------------
  // Collecting the answers
  // ---------------------------------------------------------------------------

  type Answers = map<SenderName, Stats>

  /** One answer list entered into the map, later entries overwriting earlier ones. */
  function Record(known: Answers, stats: seq<Stats>): Answers
    decreases |stats|
  {
    if stats == [] then known else Record(known[stats[0].name := stats[0]], stats[1..])
  }

  lemma {:induction false} RecordLookup(known: Answers, stats: seq<Stats>)
    requires forall i, j :: 0 <= i < j < |stats| ==> stats[i].name != stats[j].name
    ensures forall i :: 0 <= i < |stats| ==> stats[i].name in Record(known, stats)
                                             && Record(known, stats)[stats[i].name] == stats[i]
    ensures forall n :: (forall i :: 0 <= i < |stats| ==> stats[i].name != n) ==>
      (n in Record(known, stats) <==> n in known)
      && (n in known ==> Record(known, stats)[n] == known[n])
    decreases |stats|
  {
    if stats != [] {
      RecordLookup(known[stats[0].name := stats[0]], stats[1..]);
    }
  }

  /** The answer for `r` once the windows `done` have been queried, those in `down` without success. */
  predicate Answered(rows: seq<EventRow>, kinds: Kinds, known: Answers, r: Request, done: set<nat>, down: set<nat>) {
    if r.since in done - down then r.name in known && known[r.name] == Counted(rows, kinds, r.name, r.since)
    else r.name !in known
  }

  /** Every request has its own sender's counts so far, provided no name is asked for twice. */
  ghost predicate AllAnswered(
    rows: seq<EventRow>, kinds: Kinds, known: Answers, reqs: seq<Request>, done: set<nat>, down: set<nat>)
  {
    DistinctNames(reqs) ==> forall r :: r in reqs ==> Answered(rows, kinds, known, r, done, down)
  }

  function Answer(rows: seq<EventRow>, kinds: Kinds, reqs: seq<Request>, w: nat): seq<Stats> {
    HandOut(NamesIn(reqs, w), Grouped(rows, kinds, NamesIn(reqs, w), w))
  }

  lemma OneWindow(
    rows: seq<EventRow>, kinds: Kinds, reqs: seq<Request>, known: Answers, w: nat, done: set<nat>, down: set<nat>)
    requires w !in done && w !in down && AllAnswered(rows, kinds, known, reqs, done, down)
    ensures AllAnswered(rows, kinds, Record(known, Answer(rows, kinds, reqs, w)), reqs, done + {w}, down)
  {
    if DistinctNames(reqs) {
      var names := NamesIn(reqs, w);
      var stats := Answer(rows, kinds, reqs, w);
      NamesInDistinct(reqs, w);
      NamesInMembers(reqs, w);
      forall i | 0 <= i < |names| ensures |stats| == |names| && stats[i] == Counted(rows, kinds, names[i], w) {
        HandOutLooksUp(names, Grouped(rows, kinds, names, w), i);
        GroupedCounts(rows, kinds, names, w, names[i]);
      }
      assert |stats| == |names|;
      RecordLookup(known, stats);
      forall r | r in reqs ensures Answered(rows, kinds, Record(known, stats), r, done + {w}, down) {
        assert Answered(rows, kinds, known, r, done, down);
        if r.since == w {
          var i :| 0 <= i < |names| && names[i] == r.name;
          assert stats[i].name == r.name;
        } else {
          forall i | 0 <= i < |stats| ensures stats[i].name != r.name {
            assert stats[i].name == names[i] && names[i] in names;
            assert Request(names[i], w) in reqs;
          }
        }
      }
    }
  }

  lemma SkippedWindow(
    rows: seq<EventRow>, kinds: Kinds, reqs: seq<Request>, known: Answers, w: nat, done: set<nat>, down: set<nat>)
    requires w in down && AllAnswered(rows, kinds, known, reqs, done, down)
    ensures AllAnswered(rows, kinds, known, reqs, done + {w}, down)
  {
  }

  /** One query, its answers entered into the map. */
  method Query(rows: seq<EventRow>, kinds: Kinds, reqs: seq<Request>, names: seq<SenderName>, w: nat, known: Answers)
    returns (all: Answers)
    requires names == NamesIn(reqs, w)
    ensures all == Record(known, Answer(rows, kinds, reqs, w))
  {
    var stats := GetStats(rows, kinds, names, w);
    all := known;
    var i := 0;
    while i < |stats|
      invariant 0 <= i <= |stats|
      invariant Record(all, stats[i..]) == Record(known, stats)
    {
      assert stats[i..][0] == stats[i] && stats[i..][1..] == stats[i + 1..];
      all := all[stats[i].name := stats[i]];
      i := i + 1;
    }
  }

  /** Every window is the window of some request, so querying all groups answers every request. */
  predicate Covers(groups: Windows, reqs: seq<Request>) {
    forall r :: r in reqs ==> r.since in groups
  }

  method Group(reqs: seq<Request>) returns (groups: Windows)
    ensures Covers(groups, reqs)
    ensures forall w :: w in groups ==> groups[w] == NamesIn(reqs, w)
    ensures forall w :: w in groups ==> Asked(reqs, w)
  {
    groups := GroupWindows(reqs);
    forall r | r in reqs ensures r.since in groups {
      assert Request(r.name, r.since) in reqs;
    }
  }

  /** The router's way: a window whose query fails is skipped. The order of the windows is arbitrary. */
  method CollectOpen(rows: seq<EventRow>, kinds: Kinds, reqs: seq<Request>, down: set<nat>) returns (known: Answers)
    ensures DistinctNames(reqs) ==>
      forall r :: r in reqs ==>
        if r.since in down then r.name !in known
        else r.name in known && known[r.name] == Counted(rows, kinds, r.name, r.since)
  {
    var groups := Group(reqs);
    known := map[];
    var left := groups.Keys;
    while left != {}
      invariant left <= groups.Keys
      invariant AllAnswered(rows, kinds, known, reqs, groups.Keys - left, down)
      decreases |left|
    {
      var w :| w in left;
      ghost var done := groups.Keys - left;
      if w in down {
        SkippedWindow(rows, kinds, reqs, known, w, done, down);
      } else {
        OneWindow(rows, kinds, reqs, known, w, done, down);
        known := Query(rows, kinds, reqs, groups[w], w, known);
      }
      left := left - {w};
      assert groups.Keys - left == done + {w};
    }
    if DistinctNames(reqs) {
      forall r | r in reqs ensures Answered(rows, kinds, known, r, groups.Keys, down) {
        assert groups.Keys - left == groups.Keys;
      }
    }
  }

  datatype Snapshot = Snapshot(name: SenderName, sent: nat, failed: nat)

  /** One snapshot per configured sender, in configured order; a sender nobody answered for counts zero. */
  method Assemble(reqs: seq<Request>, known: Answers) returns (out: seq<Snapshot>)
    ensures |out| == |reqs|
    ensures forall j :: 0 <= j < |reqs| ==>
      out[j] == if reqs[j].name in known
                then Snapshot(reqs[j].name, known[reqs[j].name].sent, known[reqs[j].name].failed)
                else Snapshot(reqs[j].name, 0, 0)
  {
    out := [];
    for i := 0 to |reqs|
      invariant |out| == i
      invariant forall j :: 0 <= j < i ==>
        out[j] == if reqs[j].name in known
                  then Snapshot(reqs[j].name, known[reqs[j].name].sent, known[reqs[j].name].failed)
                  else Snapshot(reqs[j].name, 0, 0)
    {
      var name := reqs[i].name;
      out := out + [if name in known then Snapshot(name, known[name].sent, known[name].failed)
                    else Snapshot(name, 0, 0)];
    }
  }

  /** What the listing should say: each sender's own counts since the start of its own window. */
  function DirectSnapshot(rows: seq<EventRow>, r: Request): Snapshot {
    Snapshot(r.name, SentSince(rows, r.name, r.since), FailedSince(rows, r.name, r.since))
  }

  /** What it says with a query that looks for `kinds`. */
  function CountedSnapshot(rows: seq<EventRow>, kinds: Kinds, r: Request): Snapshot {
    Snapshot(r.name, CountOf(rows, kinds.sent, r.name, r.since), CountOf(rows, kinds.failed, r.name, r.since))
  }

  lemma SnapshotOfDatabase(rows: seq<EventRow>, r: Request)
    ensures CountedSnapshot(rows, SQLITE, r) == DirectSnapshot(rows, r)
    ensures CountedSnapshot(rows, POSTGRES, r) == Snapshot(r.name, 0, 0)
  {
    SqliteTypesMatch(rows, r.name, r.since);
    PostgresCountsNothing(rows, r.name, r.since);
  }

  predicate AnyDown(reqs: seq<Request>, down: set<nat>) {
    exists i :: 0 <= i < |reqs| && reqs[i].since in down
  }

  /** The listing's way: any failing window fails the listing; senders keep their configured order. */
  method ListSenders(rows: seq<EventRow>, kinds: Kinds, reqs: seq<Request>, down: set<nat>)
    returns (r: Result<seq<Snapshot>, ()>)
    ensures r.Err? <==> AnyDown(reqs, down)
    ensures r.Ok? ==> |r.value| == |reqs|
    ensures r.Ok? && DistinctNames(reqs) ==>
      forall i :: 0 <= i < |reqs| ==> r.value[i] == CountedSnapshot(rows, kinds, reqs[i])
    ensures r.Ok? && DistinctNames(reqs) && kinds == SQLITE ==>
      forall i :: 0 <= i < |reqs| ==> r.value[i] == DirectSnapshot(rows, reqs[i])
    ensures r.Ok? && DistinctNames(reqs) && kinds == POSTGRES ==>
      forall i :: 0 <= i < |reqs| ==> r.value[i] == Snapshot(reqs[i].name, 0, 0)
  {
    if reqs == [] {
      return Ok([]);
    }
    var groups := Group(reqs);
    var known: Answers := map[];
    var left := groups.Keys;
    while left != {}
      invariant left <= groups.Keys
      invariant AllAnswered(rows, kinds, known, reqs, groups.Keys - left, {})
      invariant forall w :: w in groups.Keys - left ==> w !in down
      decreases |left|
    {
      var w :| w in left;
      ghost var done := groups.Keys - left;
      if w in down {
        ghost var n :| Request(n, w) in reqs;
        ghost var i :| 0 <= i < |reqs| && reqs[i] == Request(n, w);
        return Err(());
      }
      OneWindow(rows, kinds, reqs, known, w, done, {});
      known := Query(rows, kinds, reqs, groups[w], w, known);
      left := left - {w};
      assert groups.Keys - left == done + {w};
    }
    assert groups.Keys - left == groups.Keys;
    var out := Assemble(reqs, known);
    if DistinctNames(reqs) {
      forall i | 0 <= i < |reqs|
        ensures out[i] == CountedSnapshot(rows, kinds, reqs[i])
        ensures CountedSnapshot(rows, SQLITE, reqs[i]) == DirectSnapshot(rows, reqs[i])
        ensures CountedSnapshot(rows, POSTGRES, reqs[i]) == Snapshot(reqs[i].name, 0, 0)
      {
        assert Answered(rows, kinds, known, reqs[i], groups.Keys, {});
        SnapshotOfDatabase(rows, reqs[i]);
      }
    }
    r := Ok(out);
  }
}
