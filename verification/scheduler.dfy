/** The tester queue scheduler (`build_scheduler` in tools/build_param_lab_auto_scheduler.py):
    deduplicate by priority, rank, pick round-robin over the core routes, then fill. */
module Scheduler {
  import opened Sequences
  import opened Dictionaries
  import Text

  const CORE_ROUTES: seq<string> := ["MA_Cross", "RSI_Reversal", "BB_Triple", "MACD_Divergence", "SR_Breakout"]

  /** A source record; `columns` stands for the fields that are only copied. */
  datatype Source = Source(candidateId: string, proposalId: string, routeKey: string, sourceDecision: string,
                           priorityBase: real, columns: string)

  /** What scoring looks up: optimizer rank scores, task statuses and result grades by id. */
  datatype Evidence = Evidence(rankScore: map<string, real>, status: map<string, string>, grade: map<string, string>)

  datatype Scored = Scored(source: Source, priority: real) {
    function Id(): string { source.candidateId }
    function Route(): string { if source.routeKey == "" then "UNKNOWN" else source.routeKey }
  }

  /** Records without a route key make up one more route, "UNKNOWN". */
  lemma RouteMeans(x: Scored, y: Scored)
    ensures x.Route() == y.Route() <==>
      x.source.routeKey == y.source.routeKey || {x.source.routeKey, y.source.routeKey} <= {"", "UNKNOWN"}
    ensures x.source.routeKey != "" ==> x.Route() == x.source.routeKey
  {
  }

  function TextAt(m: map<string, string>, k: string): string {
    if k in m then m[k] else ""
  }

  /** `score_source`, without its rounding. */
  function ScoreSource(s: Source, ev: Evidence): real {
    var rank := if s.candidateId in ev.rankScore then ev.rankScore[s.candidateId]
                else if s.proposalId in ev.rankScore then ev.rankScore[s.proposalId] else 0.0;
    var waiting := TextAt(ev.grade, s.candidateId) == "PENDING_REPORT"
                   || TextAt(ev.status, s.candidateId) in {"CONFIG_READY", "PENDING_REPORT"};
    s.priorityBase + rank * 0.1 + (if waiting then 12.0 else 0.0) + if s.sourceDecision == "RETUNE" then 8.0 else 0.0
  }

  // ---------------------------------------------------------------- deduplication

  function Dedup(sources: seq<Source>, ev: Evidence): Dict<string, Scored> {
    if sources == [] then [] else
      var d, s := Dedup(sources[..|sources| - 1], ev), sources[|sources| - 1];
      var existing := Find(d, s.candidateId);
      if s.candidateId == "" || (existing.Some? && existing.value.priority >= ScoreSource(s, ev)) then d
      else Put(d, s.candidateId, Scored(s, ScoreSource(s, ev)))
  }

  function Values(d: Dict<string, Scored>): seq<Scored> {
    seq(|d|, i requires 0 <= i < |d| => d[i].value)
  }

  /** `sources[i]` is the first record of maximal priority among those of its candidate. */
  ghost predicate FirstBest(sources: seq<Source>, ev: Evidence, i: int) {
    && 0 <= i < |sources|
    && forall j :: 0 <= j < |sources| && sources[j].candidateId == sources[i].candidateId ==>
         ScoreSource(sources[j], ev) <= ScoreSource(sources[i], ev)
         && (j < i ==> ScoreSource(sources[j], ev) < ScoreSource(sources[i], ev))
  }

  lemma {:induction false} DedupKeepsFirstBest(sources: seq<Source>, ev: Evidence, id: string)
    requires id != ""
    ensures Find(Dedup(sources, ev), id).None? <==> forall i :: 0 <= i < |sources| ==> sources[i].candidateId != id
    ensures Find(Dedup(sources, ev), id).Some? ==>
      exists i :: FirstBest(sources, ev, i) && sources[i].candidateId == id
                  && Find(Dedup(sources, ev), id).value == Scored(sources[i], ScoreSource(sources[i], ev))
  {
    hide ScoreSource;
    if sources != [] {
      var n := |sources| - 1;
      var front, s := sources[..n], sources[n];
      DedupKeepsFirstBest(front, ev, id);
      var d := Dedup(front, ev);
      FindPut(d, s.candidateId, Scored(s, ScoreSource(s, ev)), id);
      if s.candidateId != id || Find(Dedup(sources, ev), id) == Find(d, id) {
        if Find(d, id).Some? {
          var i :| FirstBest(front, ev, i) && front[i].candidateId == id
            && Find(d, id).value == Scored(front[i], ScoreSource(front[i], ev));
          assert FirstBest(sources, ev, i);
        }
      } else {
        assert FirstBest(sources, ev, n);
      }
    }
  }

  /** The records the scheduler is given: gate decisions, retunes and legacy plan tasks, each with
      the base priority of its kind and a proposal id that is empty or the candidate's own. */
  predicate Sourced(s: Source) {
    && (s.proposalId == "" || s.proposalId == s.candidateId)
    && ((s.priorityBase == 100.0 && s.sourceDecision == "WAIT_REPORT")
        || (s.priorityBase == 85.0 && s.sourceDecision == "RETUNE")
        || (s.priorityBase == 70.0 && s.sourceDecision in {"RETUNE", "WAIT_REPORT"}))
  }

  /** Whatever the evidence, a gate record displaces a retune of the same candidate, and either
      displaces a legacy task: what survives has the highest base priority. */
  lemma {:induction false} SurvivorHasHighestBase(sources: seq<Source>, ev: Evidence, i: int)
    requires 0 <= i < |sources| && sources[i].candidateId != ""
    requires forall j :: 0 <= j < |sources| ==> Sourced(sources[j])
    requires "" !in ev.rankScore
    ensures var survivor := Find(Dedup(sources, ev), sources[i].candidateId);
      survivor.Some? && survivor.value.source.priorityBase >= sources[i].priorityBase
  {
    var id := sources[i].candidateId;
    DedupKeepsFirstBest(sources, ev, id);
    var k :| FirstBest(sources, ev, k) && sources[k].candidateId == id
             && Find(Dedup(sources, ev), id).value == Scored(sources[k], ScoreSource(sources[k], ev));
    assert ScoreSource(sources[i], ev) <= ScoreSource(sources[k], ev);
    assert Sourced(sources[i]) && Sourced(sources[k]);
  }

  lemma {:induction false} DedupKeys(sources: seq<Source>, ev: Evidence)
    ensures var d := Dedup(sources, ev);
      Distinct(d) && forall i :: 0 <= i < |d| ==> d[i].key == d[i].value.Id() != ""
  {
    hide ScoreSource;
    if sources != [] {
      var front, s := sources[..|sources| - 1], sources[|sources| - 1];
      DedupKeys(front, ev);
      PutShape(Dedup(front, ev), s.candidateId, Scored(s, ScoreSource(s, ev)));
      PutFacts(Dedup(front, ev), s.candidateId, Scored(s, ScoreSource(s, ev)));
    }
  }

  // ---------------------------------------------------------------- ranking

  predicate Before(a: Scored, b: Scored) {
    a.priority > b.priority || (a.priority == b.priority && Text.Less(a.Id(), b.Id()))
  }

  predicate Sorted(s: seq<Scored>) {
    forall i, j :: 0 <= i < j < |s| ==> Before(s[i], s[j])
  }

  predicate DistinctIds(s: seq<Scored>) {
    forall i, j :: 0 <= i < j < |s| ==> s[i].Id() != s[j].Id()
  }

  function Insert(x: Scored, s: seq<Scored>): seq<Scored> {
    if s == [] || Before(x, s[0]) then [x] + s else [s[0]] + Insert(x, s[1..])
  }

  /** The library sort by descending priority, then id. */
  function Ranked(s: seq<Scored>): seq<Scored> {
    if s == [] then [] else Insert(s[0], Ranked(s[1..]))
  }

  lemma {:induction false} BeforeOrder(a: Scored, b: Scored, c: Scored)
    ensures !(Before(a, b) && Before(b, a))
    ensures a.Id() != b.Id() ==> Before(a, b) || Before(b, a)
    ensures Before(a, b) && Before(b, c) ==> Before(a, c)
  {
    Text.Total(a.Id(), b.Id());
    if Text.AtMost(a.Id(), b.Id()) && Text.AtMost(b.Id(), a.Id()) {
      Text.Antisymmetric(a.Id(), b.Id());
    }
    if Text.AtMost(a.Id(), b.Id()) && Text.AtMost(b.Id(), c.Id()) {
      Text.Transitive(a.Id(), b.Id(), c.Id());
      if a.Id() == c.Id() {
        Text.Antisymmetric(b.Id(), c.Id());
      }
    }
  }

  lemma {:induction false} InsertFacts(x: Scored, s: seq<Scored>)
    requires Sorted(s) && forall i :: 0 <= i < |s| ==> s[i].Id() != x.Id()
    ensures Sorted(Insert(x, s)) && forall y :: y in Insert(x, s) <==> y == x || y in s
  {
    hide Before;
    if s != [] {
      BeforeOrder(x, s[0], s[0]);
      if Before(x, s[0]) {
        forall i | 0 <= i < |s| ensures Before(x, s[i]) {
          BeforeOrder(x, s[0], s[i]);
        }
      } else {
        InsertFacts(x, s[1..]);
        var r := Insert(x, s[1..]);
        forall i | 0 <= i < |r| ensures Before(s[0], r[i]) {
          assert r[i] in r;
        }
      }
    }
  }

  lemma {:induction false} RankedFacts(s: seq<Scored>)
    requires DistinctIds(s)
    ensures Sorted(Ranked(s)) && forall y :: y in Ranked(s) <==> y in s
  {
    if s != [] {
      RankedFacts(s[1..]);
      var r := Ranked(s[1..]);
      forall i | 0 <= i < |r| ensures r[i].Id() != s[0].Id() {
        assert r[i] in r && r[i] in s[1..];
      }
      InsertFacts(s[0], r);
    }
  }

  lemma {:induction false} SortedHasNoDuplicates(s: seq<Scored>)
    requires Sorted(s)
    ensures NoDuplicates(s)
  {
    forall i, j | 0 <= i < j < |s| ensures s[i] != s[j] {
      BeforeOrder(s[i], s[j], s[j]);
    }
  }

  /** A ranking is fixed by its elements: there is one way to sort them. */
  lemma {:induction false} SortedIsUnique(a: seq<Scored>, b: seq<Scored>)
    requires Sorted(a) && Sorted(b) && forall x :: x in a <==> x in b
    ensures a == b
  {
    hide Before;
    SortedHasNoDuplicates(a);
    SortedHasNoDuplicates(b);
    SameLength(a, b);
    if a != [] {
      assert a[0] in b && b[0] in a;
      BeforeOrder(a[0], b[0], b[0]);
      assert a[0] == b[0];
      forall x ensures x in a[1..] <==> x in b[1..] {
        assert x in a[1..] <==> x in a && x != a[0];
        assert x in b[1..] <==> x in b && x != b[0];
      }
      SortedIsUnique(a[1..], b[1..]);
    }
  }

  lemma {:induction false} FilterSorted(p: Scored -> bool, s: seq<Scored>)
    requires Sorted(s)
    ensures Sorted(Filter(p, s))
  {
    if s != [] {
      FilterSorted(p, s[1..]);
      var r := Filter(p, s[1..]);
      forall i | 0 <= i < |r| ensures Before(s[0], r[i]) {
        assert r[i] in r && r[i] in s[1..];
      }
    }
  }

  function RouteIs(r: string): Scored -> bool {
    (x: Scored) => x.Route() == r
  }

  /** Ranking one route's records gives that route's part of the whole ranking. */
  lemma {:induction false} RankedByRoute(values: seq<Scored>, r: string)
    requires DistinctIds(values)
    ensures Ranked(Filter(RouteIs(r), values)) == Filter(RouteIs(r), Ranked(values))
  {
    RankedFacts(values);
    FilterDistinctIds(RouteIs(r), values);
    RankedFacts(Filter(RouteIs(r), values));
    FilterSorted(RouteIs(r), Ranked(values));
    SortedIsUnique(Ranked(Filter(RouteIs(r), values)), Filter(RouteIs(r), Ranked(values)));
  }

  lemma {:induction false} FilterDistinctIds(p: Scored -> bool, s: seq<Scored>)
    requires DistinctIds(s)
    ensures DistinctIds(Filter(p, s))
  {
    if s != [] {
      FilterDistinctIds(p, s[1..]);
      var r := Filter(p, s[1..]);
      forall i | 0 <= i < |r| ensures r[i].Id() != s[0].Id() {
        assert r[i] in r && r[i] in s[1..];
      }
    }
  }

  // ---------------------------------------------------------------- selection

  /** The ranking of one route inside the whole ranking `g`. */
  function RouteRank(g: seq<Scored>, r: string): seq<Scored> {
    Filter(RouteIs(r), g)
  }

  /** The records at one slot of the first `k` core routes. */
  function SlotRow(g: seq<Scored>, slot: nat, k: nat): seq<Scored>
    requires k <= |CORE_ROUTES|
  {
    if k == 0 then [] else
      var rows := RouteRank(g, CORE_ROUTES[k - 1]);
      SlotRow(g, slot, k - 1) + if slot < |rows| then [rows[slot]] else []
  }

  /** The slots before `slots`, and the first `k` routes of that slot. */
  function RoundRobin(g: seq<Scored>, slots: nat, k: nat): seq<Scored>
    requires k <= |CORE_ROUTES|
    decreases slots
  {
    (if slots == 0 then [] else RoundRobin(g, slots - 1, |CORE_ROUTES|)) + SlotRow(g, slots, k)
  }

  function NotIn(rr: seq<Scored>): Scored -> bool {
    (x: Scored) => x !in rr
  }

  function AtLeastOne(n: int): (r: nat)
    ensures r >= 1
  {
    if n < 1 then 1 else n
  }

  function SlotPhase(g: seq<Scored>, maxPerRoute: int): seq<Scored> {
    RoundRobin(g, AtLeastOne(maxPerRoute), 0)
  }

  /** The order in which records are taken if nothing stops the taking. */
  function Order(g: seq<Scored>, maxPerRoute: int): seq<Scored> {
    var rr := SlotPhase(g, maxPerRoute);
    rr + Filter(NotIn(rr), g)
  }

  function Selection(g: seq<Scored>, maxTasks: int, maxPerRoute: int): seq<Scored> {
    Take(Order(g, maxPerRoute), AtLeastOne(maxTasks))
  }

  // ---------------------------------------------------------------- the order, route by route

  lemma NoRows(r: string)
    ensures Filter(RouteIs(r), []) == []
    ensures forall x: Scored :: RouteIs(r)(x) <==> x.Route() == r
  {
  }

  lemma {:induction false} SlotRowOfRoute(g: seq<Scored>, slot: nat, k: nat, r: string)
    requires k <= |CORE_ROUTES|
    ensures Filter(RouteIs(r), SlotRow(g, slot, k))
            == if r in CORE_ROUTES[..k] && slot < |RouteRank(g, r)| then [RouteRank(g, r)[slot]] else []
  {
    hide Filter, RouteRank, RouteIs, CORE_ROUTES;
    NoRows(r);
    if k > 0 {
      SlotRowOfRoute(g, slot, k - 1, r);
      var route := CORE_ROUTES[k - 1];
      var rows := RouteRank(g, route);
      assert CORE_ROUTES[..k] == CORE_ROUTES[..k - 1] + [route];
      CoreRoutesDiffer(k - 1);
      if slot < |rows| {
        RouteRankHasRoute(g, route, slot);
        FilterAppend(RouteIs(r), SlotRow(g, slot, k - 1), rows[slot]);
      } else {
        assert SlotRow(g, slot, k - 1) + [] == SlotRow(g, slot, k - 1);
      }
    }
  }

  lemma RouteRankHasRoute(g: seq<Scored>, r: string, i: nat)
    requires i < |RouteRank(g, r)|
    ensures RouteRank(g, r)[i].Route() == r
  {
    assert RouteRank(g, r)[i] in RouteRank(g, r);
  }

  lemma CoreRoutesDiffer(k: nat)
    requires k < |CORE_ROUTES|
    ensures CORE_ROUTES[k] !in CORE_ROUTES[..k]
  {
    assert CORE_ROUTES[0] != CORE_ROUTES[1];
    forall i | 0 <= i < k ensures CORE_ROUTES[i] != CORE_ROUTES[k] {
      assert |CORE_ROUTES[0]| == 8 && |CORE_ROUTES[1]| == 12 && |CORE_ROUTES[2]| == 9
        && |CORE_ROUTES[3]| == 15 && |CORE_ROUTES[4]| == 11;
    }
  }

  /** A route's records come out of the slot phase in rank order, from the best on. */
  lemma {:induction false} RoundRobinOfRoute(g: seq<Scored>, slots: nat, k: nat, r: string)
    requires k <= |CORE_ROUTES|
    ensures Filter(RouteIs(r), RoundRobin(g, slots, k))
            == if r in CORE_ROUTES then Take(RouteRank(g, r), slots + if r in CORE_ROUTES[..k] then 1 else 0) else []
    decreases slots
  {
    hide Filter, RouteRank, SlotRow, Take, RouteIs, CORE_ROUTES, RoundRobin;
    SlotRowOfRoute(g, slots, k, r);
    var rank := RouteRank(g, r);
    TakeOneMore(rank, slots);
    RoundRobinParts(g, slots, k);
    RouteOfPart(k, r);
    if slots > 0 {
      RoundRobinOfRoute(g, slots - 1, |CORE_ROUTES|, r);
      FilterConcat(RouteIs(r), RoundRobin(g, slots - 1, |CORE_ROUTES|), SlotRow(g, slots, k));
    }
  }

  lemma RoundRobinParts(g: seq<Scored>, slots: nat, k: nat)
    requires k <= |CORE_ROUTES|
    ensures slots == 0 ==> RoundRobin(g, slots, k) == SlotRow(g, slots, k)
    ensures slots > 0 ==> RoundRobin(g, slots, k) == RoundRobin(g, slots - 1, |CORE_ROUTES|) + SlotRow(g, slots, k)
  {
    hide SlotRow, CORE_ROUTES;
  }

  lemma RouteOfPart(k: nat, r: string)
    requires k <= |CORE_ROUTES|
    ensures r in CORE_ROUTES[..k] ==> r in CORE_ROUTES
    ensures CORE_ROUTES[..|CORE_ROUTES|] == CORE_ROUTES
  {
    hide CORE_ROUTES;
  }

  lemma TakeOneMore<T>(s: seq<T>, n: nat)
    ensures Take(s, n + 1) == Take(s, n) + if n < |s| then [s[n]] else []
    ensures Take(s, 0) == []
  {
  }

  lemma {:induction false} RoundRobinFrom(g: seq<Scored>, slots: nat, k: nat, x: Scored)
    requires k <= |CORE_ROUTES| && x in RoundRobin(g, slots, k)
    ensures x.Route() in CORE_ROUTES
    ensures x in Take(RouteRank(g, x.Route()), slots + if x.Route() in CORE_ROUTES[..k] then 1 else 0)
    ensures x in g
  {
    RoundRobinOfRoute(g, slots, k, x.Route());
    assert x in Filter(RouteIs(x.Route()), RoundRobin(g, slots, k));
    assert x in RouteRank(g, x.Route());
  }

  /** The next record of the slot phase has not been taken before. */
  lemma {:induction false} NextIsNew(g: seq<Scored>, slots: nat, k: nat)
    requires Sorted(g) && k < |CORE_ROUTES| && slots < |RouteRank(g, CORE_ROUTES[k])|
    ensures RouteRank(g, CORE_ROUTES[k])[slots] !in RoundRobin(g, slots, k)
  {
    var rank := RouteRank(g, CORE_ROUTES[k]);
    var x := rank[slots];
    assert x in rank;
    if x in RoundRobin(g, slots, k) {
      RoundRobinFrom(g, slots, k, x);
      CoreRoutesDiffer(k);
      FilterSorted(RouteIs(CORE_ROUTES[k]), g);
      SortedHasNoDuplicates(rank);
      assert false;
    }
  }

  lemma {:induction false} RoundRobinNext(g: seq<Scored>, slots: nat, k: nat)
    requires k < |CORE_ROUTES|
    ensures var rank := RouteRank(g, CORE_ROUTES[k]);
      RoundRobin(g, slots, k + 1) == RoundRobin(g, slots, k) + if slots < |rank| then [rank[slots]] else []
  {
  }

  lemma {:induction false} RoundRobinNewSlot(g: seq<Scored>, slots: nat)
    ensures RoundRobin(g, slots + 1, 0) == RoundRobin(g, slots, |CORE_ROUTES|)
  {
  }

  lemma {:induction false} RoundRobinNoDuplicates(g: seq<Scored>, slots: nat, k: nat)
    requires Sorted(g) && k <= |CORE_ROUTES|
    ensures NoDuplicates(RoundRobin(g, slots, k))
    decreases slots, k
  {
    hide *;
    if k > 0 {
      RoundRobinNoDuplicates(g, slots, k - 1);
      OneMoreRoute(g, slots, k - 1);
    } else if slots > 0 {
      RoundRobinNoDuplicates(g, slots - 1, |CORE_ROUTES|);
      RoundRobinNewSlot(g, slots - 1);
    } else {
      NothingYet(g);
    }
  }

  lemma NothingYet(g: seq<Scored>)
    ensures RoundRobin(g, 0, 0) == [] && NoDuplicates<Scored>([])
  {
  }

  lemma {:induction false} OneMoreRoute(g: seq<Scored>, slots: nat, k: nat)
    requires Sorted(g) && k < |CORE_ROUTES| && NoDuplicates(RoundRobin(g, slots, k))
    ensures NoDuplicates(RoundRobin(g, slots, k + 1))
  {
    hide *;
    SkippedRoute(g, slots, k);
    if slots < |RouteRank(g, CORE_ROUTES[k])| {
      NextIsNew(g, slots, k);
      RoundRobinNext(g, slots, k);
      NoDuplicatesAppend(RoundRobin(g, slots, k), RouteRank(g, CORE_ROUTES[k])[slots]);
    }
  }

  /** The taking order is a reordering of the whole ranking. */
  lemma {:induction false} OrderIsComplete(g: seq<Scored>, maxPerRoute: int)
    requires Sorted(g)
    ensures var order := Order(g, maxPerRoute);
      NoDuplicates(order) && (forall x :: x in order <==> x in g) && |order| == |g|
  {
    var rr := SlotPhase(g, maxPerRoute);
    var rest := Filter(NotIn(rr), g);
    RoundRobinNoDuplicates(g, AtLeastOne(maxPerRoute), 0);
    FilterSorted(NotIn(rr), g);
    SortedHasNoDuplicates(rest);
    SortedHasNoDuplicates(g);
    forall x | x in rr ensures x in g {
      RoundRobinFrom(g, AtLeastOne(maxPerRoute), 0, x);
    }
    forall x ensures x in rr + rest <==> x in g {}
    forall i | 0 <= i < |rest| ensures rest[i] !in rr {
      assert rest[i] in rest;
    }
    forall i, j | 0 <= i < j < |rr + rest| ensures (rr + rest)[i] != (rr + rest)[j] {
      if i < |rr| <= j {
        assert rest[j - |rr|] !in rr;
      }
    }
    SameLength(rr + rest, g);
  }

  /** Within one route the taking order is that route's ranking. */
  lemma {:induction false} OrderOfRoute(g: seq<Scored>, maxPerRoute: int, r: string)
    requires Sorted(g)
    ensures Filter(RouteIs(r), Order(g, maxPerRoute)) == RouteRank(g, r)
  {
    hide Filter, RoundRobin, Before;
    var rr := SlotPhase(g, maxPerRoute);
    var rank := RouteRank(g, r);
    var n := AtLeastOne(maxPerRoute);
    FilterConcat(RouteIs(r), rr, Filter(NotIn(rr), g));
    RoundRobinOfRoute(g, n, 0, r);
    FilterTwice(RouteIs(r), NotIn(rr), g);
    FilterSorted(RouteIs(r), g);
    SortedHasNoDuplicates(rank);
    var taken := Filter(RouteIs(r), rr);
    var left := rank[|taken|..];
    assert rank == taken + left;
    assert forall y :: y in taken <==> y in rr && y.Route() == r;
    assert forall y :: y in rank ==> y.Route() == r;
    NotTakenYet(rank, |taken|, rr);
  }

  /** Of a ranking whose first `n` records are the ones taken, the others are left. */
  lemma {:induction false} NotTakenYet(rank: seq<Scored>, n: nat, rr: seq<Scored>)
    requires n <= |rank| && NoDuplicates(rank) && forall x :: x in rank ==> (x in rr <==> x in rank[..n])
    ensures rank[..n] + Filter(NotIn(rr), rank) == rank
  {
    hide Filter;
    assert rank == rank[..n] + rank[n..];
    forall i | n <= i < |rank| ensures rank[i] !in rank[..n] && rank[i] in rank {
      assert forall j :: 0 <= j < n ==> rank[..n][j] == rank[j] != rank[i];
    }
    FilterConcat(NotIn(rr), rank[..n], rank[n..]);
    FilterNone(NotIn(rr), rank[..n]);
    FilterAll(NotIn(rr), rank[n..]);
  }

  // ---------------------------------------------------------------- main results

  /** Work conservation: no candidate twice, none invented, and as many as there is room for. */
  lemma {:induction false} SelectionIsWorkConserving(g: seq<Scored>, maxTasks: int, maxPerRoute: int)
    requires Sorted(g) && DistinctIds(g)
    ensures var sel := Selection(g, maxTasks, maxPerRoute);
      && DistinctIds(sel) && (forall x :: x in sel ==> x in g)
      && |sel| == if |g| <= AtLeastOne(maxTasks) then |g| else AtLeastOne(maxTasks)
  {
    hide Order, Before;
    OrderIsComplete(g, maxPerRoute);
    var order := Order(g, maxPerRoute);
    var sel := Selection(g, maxTasks, maxPerRoute);
    forall x | x in sel ensures x in order {}
    forall i, j | 0 <= i < j < |sel| ensures sel[i].Id() != sel[j].Id() {
      assert order[i] in order && order[j] in order && order[i] != order[j];
    }
  }

  /** Rank closure: what is selected of any route, core or not, is the top of that route's
      ranking, in rank order; the global fill does not disturb it. */
  lemma {:induction false} SelectionIsRankClosed(g: seq<Scored>, maxTasks: int, maxPerRoute: int, r: string)
    requires Sorted(g)
    ensures IsPrefix(Filter(RouteIs(r), Selection(g, maxTasks, maxPerRoute)), RouteRank(g, r))
  {
    OrderOfRoute(g, maxPerRoute, r);
    FilterTake(RouteIs(r), Order(g, maxPerRoute), AtLeastOne(maxTasks));
  }

  lemma {:induction false} RoundRobinPrefix(g: seq<Scored>, s: nat, n: nat)
    requires s <= n
    ensures IsPrefix(RoundRobin(g, s, 0), RoundRobin(g, n, 0))
    decreases n
  {
    hide SlotRow;
    if s < n {
      RoundRobinPrefix(g, s, n - 1);
      RoundRobinNewSlot(g, n - 1);
      RoundRobinSplit(g, n - 1, |CORE_ROUTES|);
    }
  }

  lemma {:induction false} RoundRobinSplit(g: seq<Scored>, s: nat, k: nat)
    requires k <= |CORE_ROUTES|
    ensures IsPrefix(RoundRobin(g, s, 0), RoundRobin(g, s, k))
  {
    assert RoundRobin(g, s, 0) == if s == 0 then [] else RoundRobin(g, s - 1, |CORE_ROUTES|);
  }

  /** Turns are fair, and in order: when the slot phase takes core route `i`'s record at rank `s`,
      it has already taken every core route's records at lower ranks, and the records at rank `s`
      of the core routes listed before `i`. */
  lemma {:induction false} TurnsAreInOrder(g: seq<Scored>, maxTasks: int, maxPerRoute: int, p: nat,
                                           i: nat, s: nat, j: nat, t: nat)
    requires Sorted(g) && i < |CORE_ROUTES| && j < |CORE_ROUTES| && (t < s || (t == s && j < i))
    ensures var sel, a, b := Selection(g, maxTasks, maxPerRoute), RouteRank(g, CORE_ROUTES[i]), RouteRank(g, CORE_ROUTES[j]);
      && p < |sel| && p < |SlotPhase(g, maxPerRoute)| && s < |a| && sel[p] == a[s] && t < |b|
      ==> b[t] in sel[..p]
  {
    hide RoundRobin, Before, RouteRank;
    var n, phase, sel := AtLeastOne(maxPerRoute), SlotPhase(g, maxPerRoute), Selection(g, maxTasks, maxPerRoute);
    var a, b := RouteRank(g, CORE_ROUTES[i]), RouteRank(g, CORE_ROUTES[j]);
    if p < |sel| && p < |phase| && s < |a| && sel[p] == a[s] && t < |b| {
      assert phase[p] == a[s];
      RankPosition(g, n, 0, i, s);
      RankPosition(g, s, i, i, s);
      RankPosition(g, s, i, j, t);
      RoundRobinGrows(g, s, i, |CORE_ROUTES|);
      RoundRobinNewSlot(g, s);
      RoundRobinPrefix(g, s + 1, n);
      var front := RoundRobin(g, s, i);
      PrefixOfPrefix(front, RoundRobin(g, s + 1, 0), phase);
      assert forall q :: 0 <= q < |front| ==> phase[q] == front[q];
      assert |front| <= p;
      assert forall q :: 0 <= q < |front| ==> sel[..p][q] == front[q];
    }
  }

  lemma PrefixOfPrefix(a: seq<Scored>, b: seq<Scored>, c: seq<Scored>)
    requires IsPrefix(a, b) && IsPrefix(b, c)
    ensures IsPrefix(a, c)
  {
  }

  /** After `slots` full slots and `k` routes of the next, a core route's record has been taken
      exactly when its rank is below the number of turns the route has had. */
  lemma {:induction false} RankPosition(g: seq<Scored>, slots: nat, k: nat, i: nat, s: nat)
    requires Sorted(g) && k <= |CORE_ROUTES| && i < |CORE_ROUTES| && s < |RouteRank(g, CORE_ROUTES[i])|
    ensures RouteRank(g, CORE_ROUTES[i])[s] in RoundRobin(g, slots, k) <==> s < slots + if i < k then 1 else 0
  {
    hide RoundRobin, Before, Filter, CORE_ROUTES;
    var r := CORE_ROUTES[i];
    var rank, rr := RouteRank(g, r), RoundRobin(g, slots, k);
    RoundRobinOfRoute(g, slots, k, r);
    RouteAmongFirst(k, i);
    FilterSorted(RouteIs(r), g);
    SortedHasNoDuplicates(rank);
    RouteRankHasRoute(g, r, s);
    var taken := Filter(RouteIs(r), rr);
    assert rank[s] in rr <==> rank[s] in taken;
    if s < slots + if i < k then 1 else 0 {
      assert taken[s] == rank[s];
    }
  }

  lemma RouteAmongFirst(k: nat, i: nat)
    requires k <= |CORE_ROUTES| && i < |CORE_ROUTES|
    ensures CORE_ROUTES[i] in CORE_ROUTES[..k] <==> i < k
  {
    CoreRoutesDiffer(i);
    if i < k {
      assert CORE_ROUTES[..k][i] == CORE_ROUTES[i];
    } else {
      assert forall q :: 0 <= q < k ==> CORE_ROUTES[..k][q] == CORE_ROUTES[..i][q];
    }
  }

  function NonEmptyCoreRoutes(g: seq<Scored>, k: nat): nat
    requires k <= |CORE_ROUTES|
  {
    if k == 0 then 0 else
      NonEmptyCoreRoutes(g, k - 1) + if RouteRank(g, CORE_ROUTES[k - 1]) != [] then 1 else 0
  }

  lemma SlotRowLength(g: seq<Scored>, k: nat)
    requires k <= |CORE_ROUTES|
    ensures |SlotRow(g, 0, k)| == NonEmptyCoreRoutes(g, k)
  {
  }

  /** With a task for every core route that has records, each gets its best record in. */
  lemma {:induction false} EveryCoreRouteGetsItsBest(g: seq<Scored>, maxTasks: int, maxPerRoute: int, i: nat)
    requires Sorted(g) && i < |CORE_ROUTES| && RouteRank(g, CORE_ROUTES[i]) != []
    requires maxTasks >= NonEmptyCoreRoutes(g, |CORE_ROUTES|)
    ensures RouteRank(g, CORE_ROUTES[i])[0] in Selection(g, maxTasks, maxPerRoute)
  {
    var n := AtLeastOne(maxPerRoute);
    RankPosition(g, 1, 0, i, 0);
    SlotRowLength(g, |CORE_ROUTES|);
    RoundRobinPrefix(g, 1, n);
    var front := RoundRobin(g, 1, 0);
    FirstSlot(g);
    hide RoundRobin, RouteRank, Before;
    var sel := Selection(g, maxTasks, maxPerRoute);
    assert forall i :: 0 <= i < |front| ==> sel[i] == front[i];
  }

  lemma {:induction false} FirstSlot(g: seq<Scored>)
    ensures |RoundRobin(g, 1, 0)| == |SlotRow(g, 0, |CORE_ROUTES|)|
  {
    RoundRobinNewSlot(g, 0);
    assert RoundRobin(g, 0, |CORE_ROUTES|) == [] + SlotRow(g, 0, |CORE_ROUTES|);
  }

  /** The fill is greedy: every record it takes ranks before every record left out. */
  lemma {:induction false} FillIsGreedy(g: seq<Scored>, maxTasks: int, maxPerRoute: int, i: nat, x: Scored)
    requires Sorted(g) && x in g
    ensures var sel := Selection(g, maxTasks, maxPerRoute);
      |SlotPhase(g, maxPerRoute)| <= i < |sel| && x !in sel ==> Before(sel[i], x)
  {
    hide RoundRobin, Before, SlotPhase;
    var rr := SlotPhase(g, maxPerRoute);
    var rest := Filter(NotIn(rr), g);
    var order, sel := Order(g, maxPerRoute), Selection(g, maxTasks, maxPerRoute);
    OrderIsComplete(g, maxPerRoute);
    FilterSorted(NotIn(rr), g);
    if |rr| <= i < |sel| && x !in sel {
      var q :| 0 <= q < |order| && order[q] == x;
      assert forall k :: 0 <= k < |sel| ==> order[k] == sel[k] && order[k] in sel;
      assert order[i] == rest[i - |rr|] && order[q] == rest[q - |rr|];
    }
  }

  /** No record of the candidate has a higher priority. */
  ghost predicate Best(sources: seq<Source>, ev: Evidence, s: Source) {
    s in sources && forall t :: t in sources && t.candidateId == s.candidateId ==> ScoreSource(t, ev) <= ScoreSource(s, ev)
  }

  /** Records of one candidate that tie at its highest priority are the same record. */
  ghost predicate BestAgree(sources: seq<Source>, ev: Evidence) {
    forall s, t :: Best(sources, ev, s) && Best(sources, ev, t) && s.candidateId == t.candidateId != "" ==> s == t
  }

  function Ranking(sources: seq<Source>, ev: Evidence): seq<Scored> {
    Ranked(Values(Dedup(sources, ev)))
  }

  lemma {:induction false} RankingFacts(sources: seq<Source>, ev: Evidence)
    ensures var g := Ranking(sources, ev);
      Sorted(g) && DistinctIds(g) && |g| == |Dedup(sources, ev)|
    ensures DistinctIds(Values(Dedup(sources, ev)))
    ensures forall x :: x in Ranking(sources, ev) <==> x in Values(Dedup(sources, ev))
  {
    var d := Dedup(sources, ev);
    DedupKeys(sources, ev);
    var values := Values(d);
    forall i, j | 0 <= i < j < |values| ensures values[i].Id() != values[j].Id() {
      assert d[i].key != d[j].key;
    }
    RankedFacts(values);
    var g := Ranked(values);
    SortedHasNoDuplicates(g);
    SameLength(g, values);
    forall i, j | 0 <= i < j < |g| ensures g[i].Id() != g[j].Id() {
      assert g[i] in g && g[j] in g && g[i] in values && g[j] in values;
    }
  }

  /** What survives deduplication is the first of the best records of its candidate. */
  lemma {:induction false} SurvivorIsBest(sources: seq<Source>, ev: Evidence, x: Scored)
    requires x in Values(Dedup(sources, ev))
    ensures Best(sources, ev, x.source) && x.Id() != "" && x.priority == ScoreSource(x.source, ev)
    ensures Best(sources, ev, sources[0]) && sources[0].candidateId == x.Id() ==> x.source == sources[0]
  {
    hide ScoreSource, Dedup, Find;
    var d := Dedup(sources, ev);
    DedupKeys(sources, ev);
    var p :| 0 <= p < |d| && d[p].value == x;
    FindUnique(d, p);
    DedupKeepsFirstBest(sources, ev, x.Id());
    var i :| FirstBest(sources, ev, i) && sources[i].candidateId == x.Id()
             && x == Scored(sources[i], ScoreSource(sources[i], ev));
    forall t | t in sources && t.candidateId == x.Id() ensures ScoreSource(t, ev) <= ScoreSource(x.source, ev) {
      var j :| 0 <= j < |sources| && sources[j] == t;
    }
  }

  lemma {:induction false} SurvivorExists(sources: seq<Source>, ev: Evidence, s: Source) returns (x: Scored)
    requires s in sources && s.candidateId != ""
    ensures x in Values(Dedup(sources, ev)) && x.Id() == s.candidateId
  {
    hide ScoreSource, Dedup, Find;
    var d, id := Dedup(sources, ev), s.candidateId;
    DedupKeys(sources, ev);
    DedupKeepsFirstBest(sources, ev, id);
    FindHit(d, id);
    var i :| 0 <= i < |sources| && sources[i] == s;
    x := Find(d, id).value;
    var q :| 0 <= q < |d| && d[q] == Entry(id, x);
    assert Values(d)[q] == x;
  }

  lemma BestOfPermuted(a: seq<Source>, b: seq<Source>, ev: Evidence, s: Source)
    requires multiset(a) == multiset(b)
    ensures Best(a, ev, s) <==> Best(b, ev, s)
  {
    SameElements(a, b);
  }

  lemma {:induction false} SurvivorsAgree(a: seq<Source>, b: seq<Source>, ev: Evidence, x: Scored)
    requires multiset(a) == multiset(b) && BestAgree(a, ev) && x in Values(Dedup(a, ev))
    ensures x in Values(Dedup(b, ev))
  {
    hide ScoreSource, Dedup, Values, Best;
    SurvivorIsBest(a, ev, x);
    BestOfPermuted(a, b, ev, x.source);
    BestIsThere(b, ev, x.source);
    var y := SurvivorExists(b, ev, x.source);
    SurvivorIsBest(b, ev, y);
    BestOfPermuted(a, b, ev, y.source);
  }

  lemma BestIsThere(sources: seq<Source>, ev: Evidence, s: Source)
    requires Best(sources, ev, s)
    ensures s in sources
  {
  }

  lemma {:induction false} BestAgreeSuffices(a: seq<Source>, b: seq<Source>, ev: Evidence)
    requires multiset(a) == multiset(b) && BestAgree(a, ev)
    ensures Ranking(a, ev) == Ranking(b, ev)
  {
    hide Dedup, Values, Best, ScoreSource, Before, Ranked;
    assert BestAgree(b, ev) by {
      forall s { BestOfPermuted(a, b, ev, s); }
    }
    RankingFacts(a, ev);
    RankingFacts(b, ev);
    forall x ensures x in Values(Dedup(a, ev)) <==> x in Values(Dedup(b, ev)) {
      if x in Values(Dedup(a, ev)) {
        SurvivorsAgree(a, b, ev, x);
      }
      if x in Values(Dedup(b, ev)) {
        SurvivorsAgree(b, a, ev, x);
      }
    }
    SortedIsUnique(Ranking(a, ev), Ranking(b, ev));
  }

  /** Two records tied at the top of one candidate: whichever comes first is the one selected. */
  lemma {:induction false} TieShows(a: seq<Source>, ev: Evidence, s: Source, t: Source)
    returns (b: seq<Source>, maxTasks: nat)
    requires Best(a, ev, s) && Best(a, ev, t) && s.candidateId == t.candidateId != "" && s != t
    ensures multiset(a) == multiset(b)
    ensures forall maxPerRoute ::
      Selection(Ranking(a, ev), maxTasks, maxPerRoute) != Selection(Ranking(b, ev), maxTasks, maxPerRoute)
  {
    hide Dedup, Values, Best, ScoreSource, Before, Ranked, Selection, Ranking;
    BestIsThere(a, ev, s);
    BestIsThere(a, ev, t);
    var x := SurvivorExists(a, ev, s);
    var first := if x.source == s then t else s;
    var i :| 0 <= i < |a| && a[i] == first;
    b := MoveToFront(a, i);
    MovedIsPermuted(a, i);
    BestOfPermuted(a, b, ev, first);
    BestIsThere(b, ev, first);
    var y := SurvivorExists(b, ev, first);
    SurvivorIsBest(b, ev, y);
    RankingFacts(a, ev);
    RankingFacts(b, ev);
    maxTasks := |Ranking(a, ev)| + |Ranking(b, ev)|;
    forall maxPerRoute
      ensures Selection(Ranking(a, ev), maxTasks, maxPerRoute) != Selection(Ranking(b, ev), maxTasks, maxPerRoute) {
      AllSelected(Ranking(a, ev), maxTasks, maxPerRoute);
      AllSelected(Ranking(b, ev), maxTasks, maxPerRoute);
      NoOtherOfAnId(Ranking(b, ev), x, y);
    }
  }

  lemma NoOtherOfAnId(g: seq<Scored>, x: Scored, y: Scored)
    requires DistinctIds(g) && y in g && x.Id() == y.Id() && x != y
    ensures x !in g
  {
  }

  lemma {:induction false} AllSelected(g: seq<Scored>, maxTasks: nat, maxPerRoute: int)
    requires Sorted(g) && DistinctIds(g) && |g| <= maxTasks
    ensures forall x :: x in Selection(g, maxTasks, maxPerRoute) <==> x in g
  {
    hide Order, Before, Sorted, DistinctIds;
    OrderIsComplete(g, maxPerRoute);
  }

  /** The order of the source records does not matter, whatever the limits, exactly when the records
      of a candidate that tie at its highest priority are the same record. */
  lemma {:induction false} SelectionIgnoresSourceOrder(a: seq<Source>, ev: Evidence)
    ensures (forall b, maxTasks: int, maxPerRoute: int :: multiset(a) == multiset(b) ==>
               Selection(Ranking(a, ev), maxTasks, maxPerRoute) == Selection(Ranking(b, ev), maxTasks, maxPerRoute))
            <==> BestAgree(a, ev)
  {
    hide Selection, Ranking, Best;
    if BestAgree(a, ev) {
      forall b, maxTasks: int, maxPerRoute: int | multiset(a) == multiset(b)
        ensures Selection(Ranking(a, ev), maxTasks, maxPerRoute) == Selection(Ranking(b, ev), maxTasks, maxPerRoute) {
        BestAgreeSuffices(a, b, ev);
      }
    } else {
      var s, t :| Best(a, ev, s) && Best(a, ev, t) && s.candidateId == t.candidateId != "" && s != t;
      var b, maxTasks := TieShows(a, ev, s, t);
      assert Selection(Ranking(a, ev), maxTasks, 1) != Selection(Ranking(b, ev), maxTasks, 1);
    }
  }

  // ---------------------------------------------------------------- the queue by priority

  /** The records that survive deduplication. */
  function Survivors(sources: seq<Source>, ev: Evidence): seq<Scored> {
    Values(Dedup(sources, ev))
  }

  function Queue(sources: seq<Source>, ev: Evidence, maxTasks: int, maxPerRoute: int): seq<Scored> {
    Selection(Ranking(sources, ev), maxTasks, maxPerRoute)
  }

  /** A higher score, or the same and the smaller id. */
  predicate Ahead(x: Scored, y: Scored, ev: Evidence) {
    var a, b := ScoreSource(x.source, ev), ScoreSource(y.source, ev);
    a > b || (a == b && x.source.candidateId != y.source.candidateId
              && Text.AtMost(x.source.candidateId, y.source.candidateId))
  }

  lemma {:induction false} BeforeIsAhead(sources: seq<Source>, ev: Evidence, x: Scored, y: Scored)
    requires x in Ranking(sources, ev) && y in Ranking(sources, ev) && Before(x, y)
    ensures Ahead(x, y, ev)
  {
    hide Dedup, ScoreSource, Ranked, Values;
    RankingFacts(sources, ev);
    SurvivorIsBest(sources, ev, x);
    SurvivorIsBest(sources, ev, y);
  }

  /** Within a route the queue runs from high scores to low, ties in id order. */
  lemma {:induction false} QueueRunsDownEachRoute(sources: seq<Source>, ev: Evidence, maxTasks: int, maxPerRoute: int,
                                                  p: nat, q: nat)
    requires p < q < |Queue(sources, ev, maxTasks, maxPerRoute)|
    ensures var queue := Queue(sources, ev, maxTasks, maxPerRoute);
      queue[p].Route() == queue[q].Route() ==> Ahead(queue[p], queue[q], ev)
  {
    hide Dedup, ScoreSource, Ranking, Selection, Before, Filter, Ahead;
    var g, queue := Ranking(sources, ev), Queue(sources, ev, maxTasks, maxPerRoute);
    var r := queue[p].Route();
    RankingFacts(sources, ev);
    if queue[q].Route() == r {
      SelectionIsRankClosed(g, maxTasks, maxPerRoute, r);
      FilterSorted(RouteIs(r), g);
      var i, j := FilterKeepsOrder(RouteIs(r), queue, p, q);
      var rank := RouteRank(g, r);
      assert rank[i] == queue[p] && rank[j] == queue[q];
      assert rank[i] in rank && rank[j] in rank;
      BeforeIsAhead(sources, ev, queue[p], queue[q]);
    }
  }

  /** No record left out is ahead of a record of its route in the queue. */
  lemma {:induction false} QueueTakesTheBestOfEachRoute(sources: seq<Source>, ev: Evidence, maxTasks: int, maxPerRoute: int,
                                                        x: Scored, y: Scored)
    requires var queue := Queue(sources, ev, maxTasks, maxPerRoute);
      x in queue && y in Survivors(sources, ev) && y !in queue && x.Route() == y.Route()
    ensures Ahead(x, y, ev)
  {
    hide Dedup, ScoreSource, Ranking, Selection, Before, Filter, Ahead, Values;
    var g, queue := Ranking(sources, ev), Queue(sources, ev, maxTasks, maxPerRoute);
    var r := x.Route();
    RankingFacts(sources, ev);
    SelectionIsRankClosed(g, maxTasks, maxPerRoute, r);
    FilterSorted(RouteIs(r), g);
    var rank, taken := RouteRank(g, r), Filter(RouteIs(r), queue);
    assert x in taken && y in rank && y !in taken;
    var i :| 0 <= i < |taken| && taken[i] == x;
    var j :| 0 <= j < |rank| && rank[j] == y;
    assert rank[i] == x;
    if j < |taken| {
      PrefixElement(taken, rank, j);
      assert false;
    }
    assert rank[i] in rank;
    BeforeIsAhead(sources, ev, x, y);
  }

  /** Every record the fill takes is ahead of every record left out. */
  lemma {:induction false} FillTakesTheBest(sources: seq<Source>, ev: Evidence, maxTasks: int, maxPerRoute: int,
                                            i: nat, y: Scored)
    requires var queue := Queue(sources, ev, maxTasks, maxPerRoute);
      |SlotPhase(Ranking(sources, ev), maxPerRoute)| <= i < |queue| && y in Survivors(sources, ev) && y !in queue
    ensures Ahead(Queue(sources, ev, maxTasks, maxPerRoute)[i], y, ev)
  {
    hide Dedup, ScoreSource, Ranking, Selection, Before, Filter, Ahead, Values, SlotPhase;
    var g, queue := Ranking(sources, ev), Queue(sources, ev, maxTasks, maxPerRoute);
    RankingFacts(sources, ev);
    FillIsGreedy(g, maxTasks, maxPerRoute, i, y);
    SelectionIsWorkConserving(g, maxTasks, maxPerRoute);
    assert queue[i] in queue;
    BeforeIsAhead(sources, ev, queue[i], y);
  }

  /** The core routes that any surviving record belongs to. */
  function CoreRoutesOf(records: seq<Scored>): set<string> {
    set x | x in records && x.Route() in CORE_ROUTES :: x.Route()
  }

  /** The first `k` core routes that have records in the ranking. */
  function RoutesIn(g: seq<Scored>, k: nat): set<string>
    requires k <= |CORE_ROUTES|
  {
    set r | r in CORE_ROUTES[..k] && RouteRank(g, r) != []
  }

  lemma {:induction false} NextRouteIn(g: seq<Scored>, k: nat)
    requires k < |CORE_ROUTES|
    ensures var r := CORE_ROUTES[k];
      r !in RoutesIn(g, k) && RoutesIn(g, k + 1) == RoutesIn(g, k) + if RouteRank(g, r) != [] then {r} else {}
  {
    hide RouteRank, CORE_ROUTES;
    CoreRoutesDiffer(k);
    assert CORE_ROUTES[..k + 1] == CORE_ROUTES[..k] + [CORE_ROUTES[k]];
  }

  lemma {:induction false} CountCoreRoutes(g: seq<Scored>, k: nat)
    requires k <= |CORE_ROUTES|
    ensures NonEmptyCoreRoutes(g, k) == |RoutesIn(g, k)|
  {
    hide RouteRank, CORE_ROUTES;
    if k > 0 {
      hide RoutesIn;
      CountCoreRoutes(g, k - 1);
      NextRouteIn(g, k - 1);
    } else {
      assert RoutesIn(g, 0) == {};
    }
  }

  /** With a task for every core route that has records, the queue holds a record of each, and none
      of that route's surviving records scores higher than it. */
  lemma {:induction false} CoreRoutesGetTheirHighestScore(sources: seq<Source>, ev: Evidence, maxTasks: int,
                                                          maxPerRoute: int, y: Scored) returns (x: Scored)
    requires y in Survivors(sources, ev) && y.Route() in CORE_ROUTES
    requires maxTasks >= |CoreRoutesOf(Survivors(sources, ev))|
    ensures x in Queue(sources, ev, maxTasks, maxPerRoute) && x.Route() == y.Route()
    ensures forall z :: z in Survivors(sources, ev) && z.Route() == y.Route() ==>
      ScoreSource(z.source, ev) <= ScoreSource(x.source, ev)
  {
    hide Dedup, Ranking, Selection, Before, Filter, Ahead, ScoreSource, Values, CORE_ROUTES;
    var g, r := Ranking(sources, ev), y.Route();
    var rank := RouteRank(g, r);
    RankingFacts(sources, ev);
    assert y in rank;
    var i :| 0 <= i < |CORE_ROUTES| && CORE_ROUTES[i] == r;
    RoutesOfRanking(sources, ev);
    EveryCoreRouteGetsItsBest(g, maxTasks, maxPerRoute, i);
    x := rank[0];
    assert x in rank;
    FilterSorted(RouteIs(r), g);
    forall z | z in Survivors(sources, ev) && z.Route() == r
      ensures ScoreSource(z.source, ev) <= ScoreSource(x.source, ev) {
      assert z in rank;
      var j :| 0 <= j < |rank| && rank[j] == z;
      if j > 0 {
        BeforeIsAhead(sources, ev, x, z);
        AheadScores(x, z, ev);
      }
    }
  }

  lemma AheadScores(x: Scored, y: Scored, ev: Evidence)
    requires Ahead(x, y, ev)
    ensures ScoreSource(y.source, ev) <= ScoreSource(x.source, ev)
  {
  }

  lemma {:induction false} RoutesOfRanking(sources: seq<Source>, ev: Evidence)
    ensures NonEmptyCoreRoutes(Ranking(sources, ev), |CORE_ROUTES|) == |CoreRoutesOf(Survivors(sources, ev))|
  {
    hide Dedup, Ranking, Filter, Values, CORE_ROUTES, NonEmptyCoreRoutes;
    var g := Ranking(sources, ev);
    RankingFacts(sources, ev);
    CountCoreRoutes(g, |CORE_ROUTES|);
    assert CORE_ROUTES[..|CORE_ROUTES|] == CORE_ROUTES;
    forall r | r in CORE_ROUTES ensures RouteRank(g, r) != [] <==> r in CoreRoutesOf(Survivors(sources, ev)) {
      if RouteRank(g, r) != [] {
        assert RouteRank(g, r)[0] in RouteRank(g, r);
      }
      if r in CoreRoutesOf(Survivors(sources, ev)) {
        var x :| x in Survivors(sources, ev) && x.Route() == r;
        assert x in RouteRank(g, r);
      }
    }
    assert RoutesIn(g, |CORE_ROUTES|) == CoreRoutesOf(Survivors(sources, ev));
  }

  /** What each piece of evidence is worth: nothing known, a record has its base and 8 more as a
      retune; its own rank counts a tenth, before that of its proposal; and waiting for a report,
      by grade or by status, is worth 12. */
  lemma {:induction false} EvidenceAddsUp(s: Source, ev: Evidence, rank: real, status: string, grade: string)
    ensures var unranked, idle := ev.(rankScore := map[]), ev.(status := map[], grade := map[]);
      && ScoreSource(s, Evidence(map[], map[], map[]))
         == s.priorityBase + (if s.sourceDecision == "RETUNE" then 8.0 else 0.0)
      && ScoreSource(s, ev.(rankScore := ev.rankScore[s.candidateId := rank])) == ScoreSource(s, unranked) + rank / 10.0
      && (s.candidateId !in ev.rankScore ==>
            ScoreSource(s, ev.(rankScore := ev.rankScore[s.proposalId := rank])) == ScoreSource(s, unranked) + rank / 10.0)
      && ScoreSource(s, ev.(grade := ev.grade[s.candidateId := "PENDING_REPORT"])) == ScoreSource(s, idle) + 12.0
      && (status in {"CONFIG_READY", "PENDING_REPORT"} ==>
            ScoreSource(s, ev.(status := ev.status[s.candidateId := status])) == ScoreSource(s, idle) + 12.0)
      && (status !in {"CONFIG_READY", "PENDING_REPORT"} && grade != "PENDING_REPORT" ==>
            ScoreSource(s, Evidence(ev.rankScore, ev.status[s.candidateId := status], ev.grade[s.candidateId := grade]))
            == ScoreSource(s, idle))
  {
    assert rank * 0.1 == rank / 10.0;
  }

  // ---------------------------------------------------------------- the builder

  function RowsAt(m: map<string, seq<Scored>>, r: string): seq<Scored> {
    if r in m then m[r] else []
  }

  method DedupSources(sources: seq<Source>, ev: Evidence) returns (dedup: Dict<string, Scored>)
    ensures dedup == Dedup(sources, ev)
  {
    dedup := [];
    for i := 0 to |sources|
      invariant dedup == Dedup(sources[..i], ev)
    {
      var s := sources[i];
      assert sources[..i + 1][..i] == sources[..i];
      if s.candidateId == "" {
        continue;
      }
      var priority := ScoreSource(s, ev);
      var existing := Find(dedup, s.candidateId);
      if existing.Some? && existing.value.priority >= priority {
        continue;
      }
      dedup := Put(dedup, s.candidateId, Scored(s, priority));
    }
    assert sources[..|sources|] == sources;
  }

  /** Group by route, then sort every group. */
  method GroupAndRank(values: seq<Scored>) returns (ranked: map<string, seq<Scored>>)
    requires DistinctIds(values)
    ensures forall r :: RowsAt(ranked, r) == RouteRank(Ranked(values), r)
  {
    assert Ranked([]) == [];
    hide Ranked, Before;
    var grouped: map<string, seq<Scored>> := map[];
    for i := 0 to |values|
      invariant forall r :: RowsAt(grouped, r) == Filter(RouteIs(r), values[..i])
    {
      var x := values[i];
      forall r ensures Filter(RouteIs(r), values[..i + 1])
                       == Filter(RouteIs(r), values[..i]) + if x.Route() == r then [x] else [] {
        assert values[..i + 1] == values[..i] + [x];
        FilterAppend(RouteIs(r), values[..i], x);
      }
      grouped := grouped[x.Route() := RowsAt(grouped, x.Route()) + [x]];
    }
    assert values[..|values|] == values;
    ranked := map r | r in grouped :: Ranked(grouped[r]);
    forall r ensures RowsAt(ranked, r) == RouteRank(Ranked(values), r) {
      RankedByRoute(values, r);
      assert RowsAt(grouped, r) == Filter(RouteIs(r), values);
    }
  }

  ghost function Ids(s: seq<Scored>): set<string> {
    set x | x in s :: x.Id()
  }

  lemma {:induction false} RoundRobinGrows(g: seq<Scored>, s: nat, j: nat, k: nat)
    requires j <= k <= |CORE_ROUTES|
    ensures IsPrefix(RoundRobin(g, s, j), RoundRobin(g, s, k))
    decreases k
  {
    hide RouteRank;
    if j < k {
      RoundRobinGrows(g, s, j, k - 1);
      RoundRobinNext(g, s, k - 1);
    }
  }

  /** Once the cap is reached, nothing later in the slot phase matters. */
  lemma {:induction false} CapReached(g: seq<Scored>, s: nat, k: nat, n: nat, cap: nat)
    requires k <= |CORE_ROUTES| && s < n && |Take(RoundRobin(g, s, k), cap)| >= cap
    ensures Take(RoundRobin(g, s, k), cap) == Take(RoundRobin(g, n, 0), cap)
  {
    hide RoundRobin;
    RoundRobinGrows(g, s, k, |CORE_ROUTES|);
    RoundRobinNewSlot(g, s);
    RoundRobinPrefix(g, s + 1, n);
    var a, b, c := RoundRobin(g, s, k), RoundRobin(g, s + 1, 0), RoundRobin(g, n, 0);
    assert forall i :: 0 <= i < cap ==> a[i] == b[i] == c[i];
  }

  lemma {:induction false} NewId(g: seq<Scored>, s: seq<Scored>, x: Scored)
    requires DistinctIds(g) && x in g && x !in s && forall y :: y in s ==> y in g
    ensures x.Id() !in Ids(s) && Ids(s + [x]) == Ids(s) + {x.Id()}
  {
    forall y | y in s ensures y.Id() != x.Id() {
      var i :| 0 <= i < |g| && g[i] == x;
      var j :| 0 <= j < |g| && g[j] == y;
      assert i != j;
    }
    forall y | y in s + [x] ensures y in s || y == x {}
    assert forall y :: y in s ==> y in s + [x];
    assert x in s + [x];
  }

  /** One slot of the slot phase: at most one record per core route, until the cap. */
  method PickOneSlot(ranked: map<string, seq<Scored>>, slot: nat, maxTasks: nat, ghost g: seq<Scored>,
                     selectedBefore: seq<Scored>, usedBefore: set<string>)
    returns (selected: seq<Scored>, used: set<string>)
    requires Sorted(g) && DistinctIds(g) && (forall x :: x in g ==> x.Id() != "")
    requires forall r :: RowsAt(ranked, r) == RouteRank(g, r)
    requires selectedBefore == Take(RoundRobin(g, slot, 0), maxTasks) && usedBefore == Ids(selectedBefore)
    ensures selected == Take(RoundRobin(g, slot + 1, 0), maxTasks) && used == Ids(selected)
  {
    hide *;
    selected, used := selectedBefore, usedBefore;
    var k := 0;
    while k < |CORE_ROUTES|
      invariant k <= |CORE_ROUTES|
      invariant selected == Take(RoundRobin(g, slot, k), maxTasks) && used == Ids(selected)
    {
      var rows := RowsAt(ranked, CORE_ROUTES[k]);
      SkippedRoute(g, slot, k);
      if slot < |rows| {
        var row := rows[slot];
        if |selected| >= maxTasks {
          break;
        }
        TakenNext(g, slot, k, maxTasks);
        if row.Id() != "" && row.Id() !in used {
          selected := selected + [row];
          used := used + {row.Id()};
        }
      }
      k := k + 1;
    }
    if k < |CORE_ROUTES| {
      CapReached(g, slot, k, slot + 1, maxTasks);
    } else {
      RoundRobinNewSlot(g, slot);
    }
  }

  /** The slot phase: slot by slot over the core routes, until the cap. */
  method PickBySlots(ranked: map<string, seq<Scored>>, maxTasks: nat, maxPerRoute: nat, ghost g: seq<Scored>)
    returns (selected: seq<Scored>, used: set<string>)
    requires Sorted(g) && DistinctIds(g) && (forall x :: x in g ==> x.Id() != "")
    requires maxPerRoute > 0 && forall r :: RowsAt(ranked, r) == RouteRank(g, r)
    ensures selected == Take(RoundRobin(g, maxPerRoute, 0), maxTasks)
    ensures used == Ids(selected)
  {
    hide *;
    selected, used := [], {};
    NothingTaken(g, maxTasks);
    var slot := 0;
    while slot < maxPerRoute
      invariant slot <= maxPerRoute
      invariant selected == Take(RoundRobin(g, slot, 0), maxTasks) && used == Ids(selected)
    {
      selected, used := PickOneSlot(ranked, slot, maxTasks, g, selected, used);
      slot := slot + 1;
      if |selected| >= maxTasks {
        CapStays(g, slot, maxPerRoute, maxTasks);
        break;
      }
    }
  }

  lemma NothingTaken(g: seq<Scored>, cap: nat)
    ensures Take(RoundRobin(g, 0, 0), cap) == [] && Ids([]) == {}
  {
    assert RoundRobin(g, 0, 0) == [];
  }

  lemma {:induction false} CapStays(g: seq<Scored>, s: nat, n: nat, cap: nat)
    requires s <= n && |Take(RoundRobin(g, s, 0), cap)| >= cap
    ensures Take(RoundRobin(g, s, 0), cap) == Take(RoundRobin(g, n, 0), cap)
  {
    if s < n {
      CapReached(g, s, 0, n, cap);
    }
  }

  lemma SkippedRoute(g: seq<Scored>, slot: nat, k: nat)
    requires k < |CORE_ROUTES|
    ensures slot >= |RouteRank(g, CORE_ROUTES[k])| ==> RoundRobin(g, slot, k + 1) == RoundRobin(g, slot, k)
  {
    hide RouteRank, RoundRobin;
    RoundRobinNext(g, slot, k);
  }

  lemma {:induction false} TakenNext(g: seq<Scored>, slot: nat, k: nat, maxTasks: nat)
    requires Sorted(g) && DistinctIds(g) && (forall x :: x in g ==> x.Id() != "")
    requires k < |CORE_ROUTES| && slot < |RouteRank(g, CORE_ROUTES[k])|
    requires |Take(RoundRobin(g, slot, k), maxTasks)| < maxTasks
    ensures var x, s := RouteRank(g, CORE_ROUTES[k])[slot], Take(RoundRobin(g, slot, k), maxTasks);
      && x.Id() != "" && x.Id() !in Ids(s) && Ids(s + [x]) == Ids(s) + {x.Id()}
      && s + [x] == Take(RoundRobin(g, slot, k + 1), maxTasks)
  {
    var x, s := RouteRank(g, CORE_ROUTES[k])[slot], RoundRobin(g, slot, k);
    assert x in RouteRank(g, CORE_ROUTES[k]);
    assert x in g;
    hide RoundRobin, RouteRank, Before, CORE_ROUTES;
    NextIsNew(g, slot, k);
    RoundRobinNext(g, slot, k);
    forall y | y in s ensures y in g {
      RoundRobinFrom(g, slot, k, y);
    }
    NewId(g, s, x);
  }

  /** The fill phase: down the whole ranking, until the cap. */
  method FillFromRanking(g: seq<Scored>, slots: seq<Scored>, usedBefore: set<string>, maxTasks: nat)
    returns (selected: seq<Scored>)
    requires DistinctIds(g) && usedBefore == Ids(slots) && |slots| < maxTasks && forall x :: x in slots ==> x in g
    ensures selected == Take(slots + Filter(NotIn(slots), g), maxTasks)
  {
    selected := slots;
    var used := usedBefore;
    assert g[..0] == [] && slots + [] == slots;
    hide Filter, Ids, DistinctIds, Take;
    for i := 0 to |g|
      invariant selected == slots + Filter(NotIn(slots), g[..i]) && |selected| < maxTasks
      invariant used == Ids(selected)
    {
      var row := g[i];
      FillNext(g, slots, i);
      if row.Id() in used {
        continue;
      }
      selected := selected + [row];
      used := used + {row.Id()};
      if |selected| >= maxTasks {
        FillEnds(g, slots, i + 1, maxTasks);
        return;
      }
    }
    FillEnds(g, slots, |g|, maxTasks);
  }

  lemma {:induction false} FillNext(g: seq<Scored>, slots: seq<Scored>, i: nat)
    requires i < |g| && DistinctIds(g) && forall x :: x in slots ==> x in g
    ensures var row := g[i];
      var before, after := slots + Filter(NotIn(slots), g[..i]), slots + Filter(NotIn(slots), g[..i + 1]);
      if row.Id() in Ids(before) then after == before
      else after == before + [row] && Ids(after) == Ids(before) + {row.Id()}
  {
    hide Filter;
    var row := g[i];
    var filled := Filter(NotIn(slots), g[..i]);
    assert g[..i + 1] == g[..i] + [row];
    FilterAppend(NotIn(slots), g[..i], row);
    assert row !in g[..i];
    assert row !in filled;
    if row in slots {
      assert row in slots + filled;
      assert filled + [] == filled;
    } else {
      forall x | x in slots + filled ensures x in g {
        assert x in slots || x in g[..i];
      }
      NewId(g, slots + filled, row);
      assert (slots + filled) + [row] == slots + (filled + [row]);
    }
  }

  lemma {:induction false} FillEnds(g: seq<Scored>, slots: seq<Scored>, i: nat, maxTasks: nat)
    requires i <= |g| && |slots + Filter(NotIn(slots), g[..i])| <= maxTasks
    requires i < |g| ==> |slots + Filter(NotIn(slots), g[..i])| == maxTasks
    ensures slots + Filter(NotIn(slots), g[..i]) == Take(slots + Filter(NotIn(slots), g), maxTasks)
  {
    hide Filter, NotIn;
    var done, left := Filter(NotIn(slots), g[..i]), Filter(NotIn(slots), g[i..]);
    assert g == g[..i] + g[i..];
    FilterConcat(NotIn(slots), g[..i], g[i..]);
    assert slots + (done + left) == (slots + done) + left;
    if i == |g| {
      assert left == [];
    }
  }

  /** The queue is the selection from the ranking of the deduplicated records. */
  method BuildQueue(sources: seq<Source>, ev: Evidence, maxTasksArg: int, maxPerRouteArg: int)
    returns (selected: seq<Scored>)
    ensures selected == Queue(sources, ev, maxTasksArg, maxPerRouteArg)
  {
    var dedup := DedupSources(sources, ev);
    var values := Values(dedup);
    RankingFacts(sources, ev);
    DedupKeys(sources, ev);
    var ranked := GroupAndRank(values);
    var g := Ranked(values);
    var maxTasks, maxPerRoute := AtLeastOne(maxTasksArg), AtLeastOne(maxPerRouteArg);
    var used;
    selected, used := PickBySlots(ranked, maxTasks, maxPerRoute, g);
    var rr := SlotPhase(g, maxPerRouteArg);
    if |selected| < maxTasks {
      forall x | x in rr ensures x in g {
        RoundRobinFrom(g, maxPerRoute, 0, x);
      }
      selected := FillFromRanking(g, selected, used, maxTasks);
    } else {
      TakeFull(rr, Filter(NotIn(rr), g), maxTasks);
    }
  }
}
