/** Counting what each sender has sent: the grouped query, its hand-over by name, and grouping by window. */
module SenderUsage {
  import opened Core
  import opened WorkerTask

  datatype QuotaRange = Hourly | Daily | Weekly | Monthly {
    function LengthMs(): nat {
      match this
      case Hourly => 3_600_000
      case Daily => 86_400_000
      case Weekly => 604_800_000
      case Monthly => 2_592_000_000
    }

    /** Start of the window that ends at `now`, never before the epoch. */
    function SinceMs(now: nat): nat {
      if now >= LengthMs() then now - LengthMs() else 0
    }
  }

  /** A row of `lifecycle_events`. */
  datatype EventRow = EventRow(event: Event, at: nat) {
    function Sender(): Option<SenderName> {
      match event
      case Sent(_, via) => Some(via)
      case Retrying(_, _, _, sender) => sender
      case Failed(_, _, _, sender) => sender
      case _ => None
    }

    predicate Concerns(name: SenderName, since: nat) {
      event.IsTerminal() && Sender() == Some(name) && at >= since
    }

    predicate IsOf(kind: string, name: SenderName, since: nat) {
      TypeName(event) == kind && Sender() == Some(name) && at >= since
    }
  }

  /** The stored `event_type`. */
  function TypeName(ev: Event): string {
    match ev
    case Queued(_) => "queued"
    case Sending(_, _) => "sending"
    case Sent(_, _) => SENT_TYPE
    case Retrying(_, _, _, _) => "retrying"
    case Failed(_, _, _, _) => "delivery.failed"
  }

  const SENT_TYPE: string := "delivery.succeeded"

  /** The event types a usage query looks for. */
  datatype Kinds = Kinds(sent: string, failed: string)

  /** What SQLite looks for, and what is published. */
  const SQLITE: Kinds := Kinds(SENT_TYPE, "delivery.failed")

  const POSTGRES: Kinds := Kinds("sent", "failed")

  datatype Stats = Stats(name: SenderName, sent: nat, failed: nat)

  // ---------------------------------------------------------------------------
  // The reference: count one sender's own events
  // ---------------------------------------------------------------------------

  function SentSince(rows: seq<EventRow>, name: SenderName, since: nat): nat {
    if rows == [] then 0
    else SentSince(rows[..|rows| - 1], name, since)
         + if rows[|rows| - 1].Concerns(name, since) && rows[|rows| - 1].event.Sent? then 1 else 0
  }

  function FailedSince(rows: seq<EventRow>, name: SenderName, since: nat): nat {
    if rows == [] then 0
    else FailedSince(rows[..|rows| - 1], name, since)
         + if rows[|rows| - 1].Concerns(name, since) && rows[|rows| - 1].event.Failed? then 1 else 0
  }

  function Direct(rows: seq<EventRow>, name: SenderName, since: nat): Stats {
    Stats(name, SentSince(rows, name, since), FailedSince(rows, name, since))
  }

  // ---------------------------------------------------------------------------
  // The query
  // ---------------------------------------------------------------------------

  /** Rows of one stored type that name the sender. */
  function CountOf(rows: seq<EventRow>, kind: string, name: SenderName, since: nat): nat {
    if rows == [] then 0
    else CountOf(rows[..|rows| - 1], kind, name, since)
         + if rows[|rows| - 1].IsOf(kind, name, since) then 1 else 0
  }

  function Counted(rows: seq<EventRow>, kinds: Kinds, name: SenderName, since: nat): Stats {
    Stats(name, CountOf(rows, kinds.sent, name, since), CountOf(rows, kinds.failed, name, since))
  }

  type Groups = map<SenderName, (nat, nat)>

  function Bump(g: Groups, name: SenderName, sent: bool, failed: bool): Groups {
    var (s, f) := if name in g then g[name] else (0, 0);
    g[name := (if sent then s + 1 else s, if failed then f + 1 else f)]
  }

  /** `GROUP BY sender_name` over the events of the two types that name one of the senders, since `since`. */
  function Grouped(rows: seq<EventRow>, kinds: Kinds, names: seq<SenderName>, since: nat): Groups {
    if rows == [] then map[]
    else
      var g := Grouped(rows[..|rows| - 1], kinds, names, since);
      var row := rows[|rows| - 1];
      var kind := TypeName(row.event);
      if (kind == kinds.sent || kind == kinds.failed) && row.at >= since
         && row.Sender().Some? && row.Sender().value in names
      then Bump(g, row.Sender().value, kind == kinds.sent, kind == kinds.failed)
      else g
  }

  lemma {:induction false} GroupedCounts(
    rows: seq<EventRow>, kinds: Kinds, names: seq<SenderName>, since: nat, name: SenderName)
    requires name in names
    ensures var g := Grouped(rows, kinds, names, since);
            (if name in g then g[name] else (0, 0))
            == (CountOf(rows, kinds.sent, name, since), CountOf(rows, kinds.failed, name, since))
  {
    if rows != [] {
      GroupedCounts(rows[..|rows| - 1], kinds, names, since, name);
    }
  }

  // ---------------------------------------------------------------------------
  // What the two databases count
  // ---------------------------------------------------------------------------

  /** SQLite looks for the published types, so it counts each sender's own terminal events. */
  lemma {:induction false} SqliteTypesMatch(rows: seq<EventRow>, name: SenderName, since: nat)
    ensures CountOf(rows, SENT_TYPE, name, since) == SentSince(rows, name, since)
    ensures Counted(rows, SQLITE, name, since) == Direct(rows, name, since)
  {
    if rows != [] {
      SqliteTypesMatch(rows[..|rows| - 1], name, since);
      var ev := rows[|rows| - 1].event;
      assert TypeName(ev) == SENT_TYPE <==> ev.Sent?;
      assert TypeName(ev) == "delivery.failed" <==> ev.Failed?;
    }
  }

  /** A query gives every sender its own counts for every event log exactly if it looks for the published types. */
  lemma TypesExactly(kinds: Kinds)
    ensures kinds == SQLITE <==>
      forall rows, name, since :: Counted(rows, kinds, name, since) == Direct(rows, name, since)
  {
    if kinds == SQLITE {
      forall rows, name, since ensures Counted(rows, kinds, name, since) == Direct(rows, name, since) {
        SqliteTypesMatch(rows, name, since);
      }
    } else {
      var sent, failed := [EventRow(Sent(0, "a"), 0)], [EventRow(Failed(0, 3, Delivery, Some("a")), 0)];
      assert sent[..0] == [] && failed[..0] == [];
      assert SentSince(sent, "a", 0) == 1 && FailedSince(failed, "a", 0) == 1;
      assert CountOf(sent, kinds.sent, "a", 0) == if kinds.sent == SENT_TYPE then 1 else 0;
      assert CountOf(failed, kinds.failed, "a", 0) == if kinds.failed == "delivery.failed" then 1 else 0;
      if kinds.sent != SENT_TYPE {
        assert Counted(sent, kinds, "a", 0) != Direct(sent, "a", 0);
      } else {
        assert Counted(failed, kinds, "a", 0) != Direct(failed, "a", 0);
      }
    }
  }

  predicate Published(kind: string) {
    kind in {"queued", "sending", SENT_TYPE, "retrying", "delivery.failed"}
  }

  lemma {:induction false} UnpublishedCountsNothing(rows: seq<EventRow>, kind: string, name: SenderName, since: nat)
    requires !Published(kind)
    ensures CountOf(rows, kind, name, since) == 0
  {
    if rows != [] {
      UnpublishedCountsNothing(rows[..|rows| - 1], kind, name, since);
      assert Published(TypeName(rows[|rows| - 1].event));
    }
  }

  /** Postgres looks for types nobody publishes, so every sender always counts zero. */
  lemma PostgresCountsNothing(rows: seq<EventRow>, name: SenderName, since: nat)
    ensures Counted(rows, POSTGRES, name, since) == Stats(name, 0, 0)
  {
    PostgresTypes();
    UnpublishedCountsNothing(rows, POSTGRES.sent, name, since);
    UnpublishedCountsNothing(rows, POSTGRES.failed, name, since);
  }

  lemma PostgresTypes()
    ensures !Published(POSTGRES.sent) && !Published(POSTGRES.failed)
  {
    var sent, failed := POSTGRES.sent, POSTGRES.failed;
    assert |sent| == 4 && |failed| == 6;
    assert failed[0] == 'f' && "queued"[0] == 'q';
  }

  // ---------------------------------------------------------------------------
  // Handing the groups out
  // ---------------------------------------------------------------------------

  /** What `get_stats` hands out: each name takes its group out of the map, a repeated name finds nothing. */
  function HandOut(names: seq<SenderName>, g: Groups): seq<Stats>
    decreases |names|
  {
    if names == [] then []
    else
      var (s, f) := if names[0] in g then g[names[0]] else (0, 0);
      [Stats(names[0], s, f)] + HandOut(names[1..], g - {names[0]})
  }

  method GetStats(rows: seq<EventRow>, kinds: Kinds, names: seq<SenderName>, since: nat) returns (stats: seq<Stats>)
    ensures stats == HandOut(names, Grouped(rows, kinds, names, since))
  {
    if names == [] {
      return [];
    }
    var left := Grouped(rows, kinds, names, since);
    stats := [];
    var i := 0;
    while i < |names|
      invariant 0 <= i <= |names|
      invariant stats + HandOut(names[i..], left) == HandOut(names, Grouped(rows, kinds, names, since))
    {
      var (s, f) := if names[i] in left then left[names[i]] else (0, 0);
      assert names[i..][0] == names[i] && names[i..][1..] == names[i + 1..];
      stats := stats + [Stats(names[i], s, f)];
      left := left - {names[i]};
      i := i + 1;
    }
    assert names[i..] == [];
  }

  predicate Distinct(names: seq<SenderName>) {
    forall i, j :: 0 <= i < j < |names| ==> names[i] != names[j]
  }

  lemma {:induction false} HandOutLooksUp(names: seq<SenderName>, g: Groups, i: nat)
    requires i < |names|
    ensures |HandOut(names, g)| == |names| && HandOut(names, g)[i].name == names[i]
    ensures names[i] !in names[..i] ==>
      (HandOut(names, g)[i].sent, HandOut(names, g)[i].failed) == if names[i] in g then g[names[i]] else (0, 0)
    ensures names[i] in names[..i] ==> HandOut(names, g)[i] == Stats(names[i], 0, 0)
    decreases |names|
  {
    var rest := g - {names[0]};
    if i > 0 {
      HandOutLooksUp(names[1..], rest, i - 1);
      assert forall x :: x in names[..i] <==> x == names[0] || x in names[1..][..i - 1];
      if names[i] == names[0] && names[i] !in names[1..][..i - 1] {
        assert names[i] !in rest;
      }
    } else if |names| > 1 {
      HandOutLooksUp(names[1..], rest, 0);
    } else {
      assert HandOut(names[1..], rest) == [];
    }
  }

  function StatsAt(rows: seq<EventRow>, kinds: Kinds, names: seq<SenderName>, since: nat, i: int): Stats
    requires 0 <= i < |names|
  {
    var stats := HandOut(names, Grouped(rows, kinds, names, since));
    HandOutLooksUp(names, Grouped(rows, kinds, names, since), i);
    stats[i]
  }

  lemma StatsAreOwn(rows: seq<EventRow>, kinds: Kinds, names: seq<SenderName>, since: nat, i: nat)
    requires Distinct(names) && i < |names|
    ensures StatsAt(rows, kinds, names, since, i) == Counted(rows, kinds, names[i], since)
  {
    HandOutLooksUp(names, Grouped(rows, kinds, names, since), i);
    GroupedCounts(rows, kinds, names, since, names[i]);
  }

  /** On SQLite every sender gets its own counts, in order, for every event log: exactly if names are distinct. */
  lemma StatsAreDirect(names: seq<SenderName>, since: nat)
    ensures Distinct(names) <==>
      forall rows, i :: 0 <= i < |names| ==> StatsAt(rows, SQLITE, names, since, i) == Direct(rows, names[i], since)
  {
    if Distinct(names) {
      forall rows: seq<EventRow>, i | 0 <= i < |names|
        ensures StatsAt(rows, SQLITE, names, since, i) == Direct(rows, names[i], since)
      {
        StatsAreOwn(rows, SQLITE, names, since, i);
        SqliteTypesMatch(rows, names[i], since);
      }
    } else {
      var i, j :| 0 <= i < j < |names| && names[i] == names[j];
      var rows := [EventRow(Sent(0, names[j]), since)];
      HandOutLooksUp(names, Grouped(rows, SQLITE, names, since), j);
      assert names[..j][i] == names[j];
      assert rows[..0] == [];
      assert SentSince(rows, names[j], since) == 1;
      assert StatsAt(rows, SQLITE, names, since, j) != Direct(rows, names[j], since);
    }
  }
}
