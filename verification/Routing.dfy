/** Choosing and trying senders: route order, quota checks and the two delivery passes. */
module Routing {
  import opened Core
  import opened StableSort
  import opened SenderUsage
  import opened WindowedUsage

  datatype Quota = Quota(count: nat, range: QuotaRange)

  type Priority = p: nat | p < 256

  datatype Route = Route(name: SenderName, priority: Priority, quota: Option<Quota>, domain: Option<string>)

  datatype SendError = SendFailed(sender: SenderName) | NoMatchingRoute(domain: string)

  // ---------------------------------------------------------------------------
  // Domains
  // ---------------------------------------------------------------------------

  function LowerChar(c: char): char {
    if 'A' <= c <= 'Z' then ((c as int) + 32) as char else c
  }

  function Lower(s: string): (r: string)
    ensures |r| == |s|
  {
    seq(|s|, (i: nat) requires i < |s| => LowerChar(s[i]))
  }

  function TrimDots(s: string): string {
    if s != [] && s[|s| - 1] == '.' then TrimDots(s[..|s| - 1]) else s
  }

  /** Domains compare without trailing dots and ASCII case. */
  function NormalizeDomain(s: string): string {
    Lower(TrimDots(s))
  }

  lemma {:induction false} TrimDotsShape(s: string)
    ensures TrimDots(s) <= s
    ensures TrimDots(s) != [] ==> TrimDots(s)[|TrimDots(s)| - 1] != '.'
    ensures forall i :: |TrimDots(s)| <= i < |s| ==> s[i] == '.'
  {
    if s != [] && s[|s| - 1] == '.' {
      TrimDotsShape(s[..|s| - 1]);
    }
  }

  /** Normalizing a second time, as sending does with an already normalized route, changes nothing. */
  lemma NormalizeIdempotent(s: string)
    ensures NormalizeDomain(NormalizeDomain(s)) == NormalizeDomain(s)
  {
    var t := TrimDots(s);
    TrimDotsShape(s);
    assert TrimDots(Lower(t)) == Lower(t);
    assert Lower(Lower(t)) == Lower(t);
  }

  /** Position after the last `@`, if there is one. */
  function AfterLastAt(s: string): Option<nat> {
    if s == [] then None
    else if s[|s| - 1] == '@' then Some(|s|)
    else AfterLastAt(s[..|s| - 1])
  }

  lemma {:induction false} AfterLastAtIs(s: string)
    ensures match AfterLastAt(s)
            case None => '@' !in s
            case Some(i) => 0 < i <= |s| && s[i - 1] == '@' && '@' !in s[i..]
  {
    if s != [] && s[|s| - 1] != '@' {
      AfterLastAtIs(s[..|s| - 1]);
      assert s == s[..|s| - 1] + [s[|s| - 1]];
    }
  }

  function SenderDomain(sender: string): string {
    AfterLastAtIs(sender);
    match AfterLastAt(sender)
    case None => ""
    case Some(i) => NormalizeDomain(sender[i..])
  }

  // ---------------------------------------------------------------------------
  // Construction: normalize and sort in place
  // ---------------------------------------------------------------------------

  function NormalizeRoute(r: Route): Route {
    match r.domain
    case None => r
    case Some(d) => r.(domain := Some(NormalizeDomain(d)))
  }

  function NormalizeAll(routes: seq<Route>): (n: seq<Route>)
    ensures |n| == |routes|
  {
    seq(|routes|, (i: nat) requires i < |routes| => NormalizeRoute(routes[i]))
  }

  function PriorityOf(r: Route): nat {
    r.priority
  }

  function Prepared(routes: seq<Route>): seq<Route> {
    Sort(PriorityOf, NormalizeAll(routes))
  }

  lemma {:induction false} SortLength<T(!new)>(key: T -> nat, s: seq<T>)
    ensures |Sort(key, s)| == |s|
  {
    if s != [] {
      SortLength(key, s[1..]);
      InsertLength(key, s[0], Sort(key, s[1..]));
    }
  }

  lemma {:induction false} InsertLength<T(!new)>(key: T -> nat, x: T, s: seq<T>)
    ensures |Insert(key, x, s)| == |s| + 1
  {
    if s != [] && key(x) > key(s[0]) {
      InsertLength(key, x, s[1..]);
    }
  }

  datatype NewError = EmptyRoutes

  method New(routes: array<Route>) returns (r: Result<(), NewError>)
    modifies routes
    ensures routes.Length == 0 <==> r == Err(EmptyRoutes)
    ensures routes[..] == Prepared(old(routes[..]))
  {
    if routes.Length == 0 {
      return Err(EmptyRoutes);
    }
    ghost var given := routes[..];
    var i := 0;
    while i < routes.Length
      invariant 0 <= i <= routes.Length
      invariant forall j :: 0 <= j < i ==> routes[j] == NormalizeRoute(given[j])
      invariant forall j :: i <= j < routes.Length ==> routes[j] == given[j]
    {
      var route := routes[i];
      if route.domain.Some? {
        routes[i] := route.(domain := Some(NormalizeDomain(route.domain.value)));
      }
      i := i + 1;
    }
    assert routes[..] == NormalizeAll(given);
    var sorted := Sort(PriorityOf, routes[..]);
    SortLength(PriorityOf, routes[..]);
    forall k | 0 <= k < routes.Length {
      routes[k] := sorted[k];
    }
    assert routes[..] == sorted;
    r := Ok(());
  }

  // ---------------------------------------------------------------------------
  // Candidates
  // ---------------------------------------------------------------------------

  predicate Matched(r: Route, domain: string) {
    r.domain == Some(domain)
  }

  predicate CatchAll(r: Route) {
    r.domain.None?
  }

  function MatchedBy(domain: string): Route -> bool {
    (r: Route) => Matched(r, domain)
  }

  function EligibleFor(domain: string): Route -> bool {
    (r: Route) => Eligible(r, domain)
  }

  /** Eligible routes of one rank. */
  function OfRank(domain: string, k: nat): Route -> bool {
    (r: Route) => Eligible(r, domain) && Rank(r) == k
  }

  /** Domain matches first, then catch-alls, each in route order. */
  function Candidates(routes: seq<Route>, domain: string): seq<Route> {
    Filter(MatchedBy(domain), routes) + Filter(CatchAll, routes)
  }

  predicate Eligible(r: Route, domain: string) {
    Matched(r, domain) || CatchAll(r)
  }

  /** One number for "unmatched, then priority". */
  function Rank(r: Route): nat {
    (if r.domain.None? then 256 else 0) + r.priority
  }

  lemma {:induction false} FilterFilter<T(!new)>(f: T -> bool, g: T -> bool, h: T -> bool, s: seq<T>)
    requires forall x :: h(x) == (f(x) && g(x))
    ensures Filter(f, Filter(g, s)) == Filter(h, s)
  {
    if s != [] {
      FilterFilter(f, g, h, s[1..]);
    }
  }

  lemma {:induction false} FilterNone<T(!new)>(f: T -> bool, s: seq<T>)
    requires forall x :: x in s ==> !f(x)
    ensures Filter(f, s) == []
  {
    if s != [] {
      FilterNone(f, s[1..]);
    }
  }

  function KeyIs<T>(key: T -> nat, k: nat): T -> bool {
    (x: T) => key(x) == k
  }

  lemma {:induction false} WithKeyIs<T(!new)>(key: T -> nat, k: nat, s: seq<T>)
    ensures WithKey(key, k, s) == Filter(KeyIs(key, k), s)
  {
  }

  /** Among prepared routes, one rank is one priority on one side of the split. */
  lemma SideOfRank(routes: seq<Route>, domain: string, k: nat)
    ensures WithKey(Rank, k, Candidates(routes, domain))
         == Filter(OfRank(domain, k), routes)
  {
    var onRank := KeyIs(Rank, k);
    WithKeyIs(Rank, k, Candidates(routes, domain));
    var matched, catchAll, both := MatchedBy(domain), CatchAll, OfRank(domain, k);
    FilterConcat(onRank, Filter(matched, routes), Filter(catchAll, routes));
    FilterMembers(matched, routes);
    FilterMembers(catchAll, routes);
    if k < 256 {
      FilterNone(onRank, Filter(catchAll, routes));
      FilterFilter(onRank, matched, both, routes);
    } else {
      FilterNone(onRank, Filter(matched, routes));
      FilterFilter(onRank, catchAll, both, routes);
    }
  }

  /** Preparing the routes does not disturb the order inside one rank. */
  lemma RankStable(routes: seq<Route>, domain: string, k: nat)
    ensures Filter(OfRank(domain, k), Sort(PriorityOf, routes))
         == Filter(OfRank(domain, k), routes)
  {
    var p := if k < 256 then k else k - 256;
    var onPriority, both := KeyIs(PriorityOf, p), OfRank(domain, k);
    WithKeyIs(PriorityOf, p, routes);
    WithKeyIs(PriorityOf, p, Sort(PriorityOf, routes));
    SortIsStable(PriorityOf, routes);
    assert WithKey(PriorityOf, p, routes) == WithKey(PriorityOf, p, Sort(PriorityOf, routes));
    forall x: Route ensures both(x) == (both(x) && onPriority(x)) {
      var priority: Priority := x.priority;
      assert both(x) == (Eligible(x, domain) && Rank(x) == k);
      assert onPriority(x) == (PriorityOf(x) == p);
      assert Rank(x) == (if x.domain.None? then 256 else 0) + priority;
    }
    FilterFilter(both, onPriority, both, routes);
    FilterFilter(both, onPriority, both, Sort(PriorityOf, routes));
  }

  lemma {:induction false} FilterSorted<T(!new)>(key: T -> nat, f: T -> bool, s: seq<T>)
    requires SortedBy(key, s)
    ensures SortedBy(key, Filter(f, s))
  {
    if s != [] {
      FilterSorted(key, f, s[1..]);
      FilterMembers(f, s[1..]);
      forall x | x in Filter(f, s[1..]) ensures key(s[0]) <= key(x) {
        var i :| 0 <= i < |s[1..]| && s[1..][i] == x;
        assert s[i + 1] == x;
      }
    }
  }

  lemma CandidatesSorted(routes: seq<Route>, domain: string)
    requires SortedBy(PriorityOf, routes)
    ensures SortedBy(Rank, Candidates(routes, domain))
  {
    var matched, catchAll := MatchedBy(domain), CatchAll;
    FilterSorted(PriorityOf, matched, routes);
    FilterSorted(PriorityOf, catchAll, routes);
    FilterMembers(matched, routes);
    FilterMembers(catchAll, routes);
    var a, b := Filter(matched, routes), Filter(catchAll, routes);
    forall i, j | 0 <= i < j < |a + b| ensures Rank((a + b)[i]) <= Rank((a + b)[j]) {
      assert i < |a| ==> (a + b)[i] in a;
      assert i >= |a| ==> (a + b)[i] in b;
      assert j < |a| ==> (a + b)[j] in a;
      assert j >= |a| ==> (a + b)[j] in b;
    }
  }

  /**
   * The candidates are exactly the eligible configured routes, stably sorted by "domain matches before
   * catch-alls, then priority", so routes of equal rank keep their configured order.
   */
  lemma CandidateOrder(routes: seq<Route>, domain: string)
    ensures Candidates(Prepared(routes), domain)
         == Sort(Rank, Filter(EligibleFor(domain), NormalizeAll(routes)))
  {
    var all := NormalizeAll(routes);
    var eligible := EligibleFor(domain);
    var c := Candidates(Prepared(routes), domain);
    var e := Filter(eligible, all);
    SortIsStable(PriorityOf, all);
    CandidatesSorted(Prepared(routes), domain);
    SortIsStable(Rank, e);
    forall k ensures WithKey(Rank, k, c) == WithKey(Rank, k, Sort(Rank, e)) {
      SideOfRank(Prepared(routes), domain, k);
      RankStable(all, domain, k);
      FilterFilter(KeyIs(Rank, k), eligible, OfRank(domain, k), all);
      WithKeyIs(Rank, k, e);
      assert WithKey(Rank, k, e) == WithKey(Rank, k, Sort(Rank, e));
    }
    StableUnique(Rank, c, Sort(Rank, e));
  }

  // ---------------------------------------------------------------------------
  // Sending
  // ---------------------------------------------------------------------------

  /** The transports: who was asked to deliver, and how the k-th request is answered. */
  class Transports {
    var calls: seq<Route>
    const answers: nat -> bool

    constructor (answers: nat -> bool)
      ensures calls == [] && this.answers == answers
    {
      calls := [];
      this.answers := answers;
    }

    method Deliver(r: Route) returns (ok: bool)
      modifies this
      ensures calls == old(calls) + [r] && ok == answers(|old(calls)|)
    {
      ok := answers(|calls|);
      calls := calls + [r];
    }
  }

  /** What the router asks the usage port: one request per candidate with a quota. */
  function Requests(cs: seq<Route>, now: nat): seq<Request> {
    if cs == [] then []
    else
      var last := cs[|cs| - 1];
      Requests(cs[..|cs| - 1], now)
      + if last.quota.Some? then [Request(last.name, last.quota.value.range.SinceMs(now))] else []
  }

  /** Over quota by the answers at hand; a sender without an answer counts zero. */
  predicate OverQuota(known: Answers, r: Route) {
    r.quota.Some? && (if r.name in known then known[r.name].sent else 0) >= r.quota.value.count
  }

  function Within(known: Answers): Route -> bool {
    (r: Route) => !OverQuota(known, r)
  }

  /** The whole rule: the candidates within quota, or all of them if every one is over. */
  function Plan(cs: seq<Route>, known: Answers): seq<Route> {
    var within := Filter(Within(known), cs);
    if within == [] then cs else within
  }

  /** The transports of `plan` were asked in order from call `base` on, up to the first success. */
  predicate FirstSuccess(
    plan: seq<Route>, answers: nat -> bool, base: nat, asked: seq<Route>, r: Result<SenderName, SendError>)
  {
    && asked <= plan
    && (forall j :: base <= j < base + |asked| - 1 ==> !answers(j))
    && match r
       case Ok(name) => asked != [] && answers(base + |asked| - 1) && name == asked[|asked| - 1].name
       case Err(NoMatchingRoute(_)) => plan == []
       case Err(SendFailed(name)) =>
         asked == plan && plan != [] && !answers(base + |asked| - 1) && name == plan[|plan| - 1].name
  }

  lemma {:induction false} RequestsOf(cs: seq<Route>, now: nat)
    ensures forall r :: r in cs && r.quota.Some? ==>
      Request(r.name, r.quota.value.range.SinceMs(now)) in Requests(cs, now)
    ensures forall q :: q in Requests(cs, now) ==>
      exists i :: 0 <= i < |cs| && cs[i].name == q.name
    ensures RouteNamesDistinct(cs) ==> DistinctNames(Requests(cs, now))
  {
    if cs != [] {
      var init := cs[..|cs| - 1];
      RequestsOf(init, now);
      assert cs == init + [cs[|cs| - 1]];
      forall q | q in Requests(cs, now) ensures exists i :: 0 <= i < |cs| && cs[i].name == q.name {
        if q in Requests(init, now) {
          var i :| 0 <= i < |init| && init[i].name == q.name;
          assert cs[i].name == q.name;
        }
      }
      if RouteNamesDistinct(cs) {
        forall q | q in Requests(init, now) ensures q.name != cs[|cs| - 1].name {
          var i :| 0 <= i < |init| && init[i].name == q.name;
          assert cs[i].name == q.name;
        }
      }
    }
  }

  predicate RouteNamesDistinct(cs: seq<Route>) {
    forall i, j :: 0 <= i < j < |cs| ==> cs[i].name != cs[j].name
  }

  /** The error left behind when everything in `asked` has failed. */
  function LastError(asked: seq<Route>): Option<SendError> {
    if asked == [] then None else Some(SendFailed(asked[|asked| - 1].name))
  }

  predicate AllFailed(answers: nat -> bool, from: nat, to: nat) {
    forall j :: from <= j < to ==> !answers(j)
  }

  lemma FirstHit(cs: seq<Route>, known: Answers, i: nat, answers: nat -> bool, base: nat)
    requires i < |cs| && !OverQuota(known, cs[i])
    requires var missed := |Filter(Within(known), cs[..i])|;
             AllFailed(answers, base, base + missed) && answers(base + missed)
    ensures FirstSuccess(Plan(cs, known), answers, base, Filter(Within(known), cs[..i]) + [cs[i]], Ok(cs[i].name))
  {
    WithinPrefix(cs, known, i);
  }

  /** The first pass skips whoever is over quota. */
  method FirstPass(cs: seq<Route>, known: Answers, t: Transports)
    returns (winner: Option<SenderName>, lastErr: Option<SendError>)
    modifies t
    ensures winner.Some? ==>
      old(t.calls) <= t.calls
      && FirstSuccess(Plan(cs, known), t.answers, |old(t.calls)|, t.calls[|old(t.calls)|..], Ok(winner.value))
    ensures winner.None? ==>
      && t.calls == old(t.calls) + Filter(Within(known), cs)
      && AllFailed(t.answers, |old(t.calls)|, |t.calls|)
      && lastErr == LastError(Filter(Within(known), cs))
  {
    ghost var before := t.calls;
    winner, lastErr := None, None;
    var i := 0;
    assert cs[..0] == [];
    while i < |cs|
      invariant 0 <= i <= |cs|
      invariant t.calls == before + Filter(Within(known), cs[..i])
      invariant AllFailed(t.answers, |before|, |t.calls|)
      invariant winner.None? && lastErr == LastError(Filter(Within(known), cs[..i]))
    {
      FilterSnoc(Within(known), cs, i);
      ghost var missed := Filter(Within(known), cs[..i]);
      if !OverQuota(known, cs[i]) {
        var ok := t.Deliver(cs[i]);
        assert t.calls == before + (missed + [cs[i]]);
        if ok {
          FirstHit(cs, known, i, t.answers, |before|);
          assert t.calls[|before|..] == missed + [cs[i]];
          winner := Some(cs[i].name);
          return;
        }
        lastErr := Some(SendFailed(cs[i].name));
      }
      i := i + 1;
    }
    assert cs[..i] == cs;
  }

  /** The second pass tries every candidate. */
  method SecondPass(cs: seq<Route>, t: Transports) returns (r: Result<SenderName, SendError>)
    requires cs != []
    modifies t
    ensures old(t.calls) <= t.calls
    ensures FirstSuccess(cs, t.answers, |old(t.calls)|, t.calls[|old(t.calls)|..], r)
    ensures !r.Err? || r.error.SendFailed?
  {
    ghost var before := t.calls;
    var lastErr: Option<SendError> := None;
    var i := 0;
    while i < |cs|
      invariant 0 <= i <= |cs|
      invariant t.calls == before + cs[..i]
      invariant AllFailed(t.answers, |before|, |t.calls|)
      invariant lastErr == LastError(cs[..i])
    {
      var ok := t.Deliver(cs[i]);
      assert cs[..i + 1] == cs[..i] + [cs[i]];
      assert t.calls[|before|..] == cs[..i + 1];
      if ok {
        return Ok(cs[i].name);
      }
      lastErr := Some(SendFailed(cs[i].name));
      i := i + 1;
    }
    assert cs[..i] == cs;
    // The candidates are not empty, so there is an error to return.
    assert lastErr.Some?;
    r := Err(lastErr.value);
  }

  /**
   * `send`. `known` is what the usage queries answered; the outcome is the first success along the plan,
   * an error names the last sender tried, and only an empty candidate list has no sender to blame.
   */
  method Send(
    routes: seq<Route>, sender: string, now: nat, rows: seq<EventRow>, kinds: Kinds, down: set<nat>, t: Transports)
    returns (r: Result<SenderName, SendError>, ghost known: Answers)
    modifies t
    ensures old(t.calls) <= t.calls
    ensures
      var cs := Candidates(routes, SenderDomain(sender));
      && FirstSuccess(Plan(cs, known), t.answers, |old(t.calls)|, t.calls[|old(t.calls)|..], r)
      && (cs == [] <==> r == Err(NoMatchingRoute(SenderDomain(sender))))
      && (RouteNamesDistinct(cs) ==> Faithful(cs, now, rows, kinds, down, known))
  {
    var domain := SenderDomain(sender);
    var cs := Candidates(routes, domain);
    if cs == [] {
      known := map[];
      return Err(NoMatchingRoute(domain)), known;
    }
    var answers := CollectOpen(rows, kinds, Requests(cs, now), down);
    known := answers;
    RequestsFaithful(cs, now, rows, kinds, down, known);
    var winner, lastErr := FirstPass(cs, answers, t);
    if winner.Some? {
      return Ok(winner.value), known;
    }
    if lastErr.Some? {
      assert t.calls[|old(t.calls)|..] == Filter(Within(known), cs);
      return Err(lastErr.value), known;
    }
    assert t.calls == old(t.calls);
    r := SecondPass(cs, t);
  }

  lemma {:induction false} FilterSnoc<T>(f: T -> bool, s: seq<T>, i: nat)
    requires i < |s|
    ensures Filter(f, s[..i + 1]) == Filter(f, s[..i]) + if f(s[i]) then [s[i]] else []
  {
    assert s[..i + 1] == s[..i] + [s[i]];
    FilterConcat(f, s[..i], [s[i]]);
  }

  /** What the first pass has tried once it reaches candidate `i` is a prefix of the plan. */
  lemma WithinPrefix(cs: seq<Route>, known: Answers, i: nat)
    requires i < |cs| && !OverQuota(known, cs[i])
    ensures Filter(Within(known), cs[..i]) + [cs[i]] <= Plan(cs, known)
  {
    FilterSnoc(Within(known), cs, i);
    FilterConcat(Within(known), cs[..i + 1], cs[i + 1..]);
    assert cs[..i + 1] + cs[i + 1..] == cs;
  }

  /**
   * With distinct names, a candidate counts as over quota exactly when the events the query looks for, since
   * the start of its window, reach the quota; if that window's query failed, when the quota is zero.
   */
  predicate Faithful(cs: seq<Route>, now: nat, rows: seq<EventRow>, kinds: Kinds, down: set<nat>, known: Answers) {
    forall r :: r in cs && r.quota.Some? ==>
      var since := r.quota.value.range.SinceMs(now);
      OverQuota(known, r)
      <==> (if since in down then 0 else CountOf(rows, kinds.sent, r.name, since)) >= r.quota.value.count
  }

  lemma RequestsFaithful(cs: seq<Route>, now: nat, rows: seq<EventRow>, kinds: Kinds, down: set<nat>, known: Answers)
    requires DistinctNames(Requests(cs, now)) ==>
      forall q :: q in Requests(cs, now) ==>
        if q.since in down then q.name !in known
        else q.name in known && known[q.name] == Counted(rows, kinds, q.name, q.since)
    ensures RouteNamesDistinct(cs) ==> Faithful(cs, now, rows, kinds, down, known)
  {
    RequestsOf(cs, now);
  }

  /** On SQLite those events are the sender's own `Sent` events. */
  lemma FaithfulOnSqlite(cs: seq<Route>, now: nat, rows: seq<EventRow>, down: set<nat>, known: Answers, r: Route)
    requires Faithful(cs, now, rows, SQLITE, down, known) && r in cs && r.quota.Some?
    ensures var since := r.quota.value.range.SinceMs(now);
      OverQuota(known, r)
      <==> (if since in down then 0 else SentSince(rows, r.name, since)) >= r.quota.value.count
  {
    SqliteTypesMatch(rows, r.name, r.quota.value.range.SinceMs(now));
  }

  /** On Postgres no sender is ever over quota, however much it has sent, unless its quota is zero. */
  lemma NeverOverOnPostgres(cs: seq<Route>, now: nat, rows: seq<EventRow>, down: set<nat>, known: Answers, r: Route)
    requires Faithful(cs, now, rows, POSTGRES, down, known) && r in cs && r.quota.Some?
    ensures OverQuota(known, r) <==> r.quota.value.count == 0
  {
    PostgresCountsNothing(rows, r.name, r.quota.value.range.SinceMs(now));
  }

  // ---------------------------------------------------------------------------
  // What follows from the rule
  // ---------------------------------------------------------------------------

  /** No sender over quota is tried while some candidate is within quota. */
  lemma OverQuotaOnlyWhenAllAre(cs: seq<Route>, known: Answers, r: Route)
    requires r in Plan(cs, known)
    ensures r in cs && (OverQuota(known, r) ==> forall c :: c in cs ==> OverQuota(known, c))
  {
    FilterMembers(Within(known), cs);
    if Filter(Within(known), cs) == [] {
      forall c | c in cs ensures OverQuota(known, c) {
        assert Within(known)(c) ==> c in Filter(Within(known), cs);
      }
    }
  }

  lemma {:induction false} FilterDistinct(f: Route -> bool, s: seq<Route>)
    requires RouteNamesDistinct(s)
    ensures RouteNamesDistinct(Filter(f, s))
  {
    if s != [] {
      FilterDistinct(f, s[1..]);
      FilterMembers(f, s[1..]);
      forall x | x in Filter(f, s[1..]) ensures x.name != s[0].name {
        var i :| 0 <= i < |s[1..]| && s[1..][i] == x;
        assert s[i + 1] == x;
      }
    }
  }

  /** In one send no transport is asked twice. */
  lemma NoTransportTwice(
    cs: seq<Route>, known: Answers, answers: nat -> bool, base: nat, asked: seq<Route>,
    r: Result<SenderName, SendError>)
    requires RouteNamesDistinct(cs) && FirstSuccess(Plan(cs, known), answers, base, asked, r)
    ensures RouteNamesDistinct(asked)
  {
    FilterDistinct(Within(known), cs);
  }
}
