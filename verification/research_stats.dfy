/** Research bucketing (tools/build_mt5_research_stats.py): four ledgers folded into keyed
    buckets, and the buckets summed up again by symbol. */
module ResearchStats {
  import opened Sequences
  import opened Dictionaries
  import opened Text

  // ---------------------------------------------------------------- rows

  /** The columns every ledger shares, as the field lookup returns them. */
  datatype Head = Head(symbol: string, route: string, regime: string, timeframe: string, source: string)

  /** A row of the trade journal, the close history, the outcome labels or the event links;
      event types, labels and statuses are in upper case. */
  datatype Row =
    | JournalRow(head: Head, eventType: string, eventTime: string)
    | CloseRow(head: Head, net: real, duration: real, closeTime: string, openTime: string)
    | OutcomeRow(head: Head, verdict: string, serverTime: string, localTime: string, closeTime: string)
    | LinkRow(head: Head, status: string, exitDeal: string, closeTime: string, openTime: string)

  /** The four ledgers: journal, close history, outcome labels, event links. */
  datatype Tables = Tables(journal: seq<Row>, close: seq<Row>, outcome: seq<Row>, link: seq<Row>)

  /** What symbols are mapped to: canonical and broker names, empty when unknown. */
  datatype Mapping = Mapping(canonical: string -> string, broker: string -> string)

  datatype Key = Key(route: string, canonical: string, regime: string, timeframe: string)

  function Canonical(m: Mapping, symbol: string): string {
    if symbol != "" && m.canonical(symbol) != "" then m.canonical(symbol) else symbol
  }

  /** A row without a symbol has no bucket. */
  function KeyOf(m: Mapping, h: Head): Option<Key> {
    if Canonical(m, h.symbol) == "" then None
    else Some(Key(if h.route == "" then "QuantGod/Other" else h.route, Canonical(m, h.symbol),
                  if h.regime == "" then "UNKNOWN" else h.regime, h.timeframe))
  }

  /** Rows share a bucket when symbol, route, regime and timeframe agree: no route counts as the route
      "QuantGod/Other", no regime as "UNKNOWN", and nothing else is merged. */
  lemma KeyMeans(m: Mapping, a: Head, b: Head)
    ensures KeyOf(m, a).None? <==> a.symbol == ""
    ensures a.symbol != "" && b.symbol != "" ==>
      (KeyOf(m, a) == KeyOf(m, b) <==>
       && Canonical(m, a.symbol) == Canonical(m, b.symbol) && a.timeframe == b.timeframe
       && (a.route == b.route || {a.route, b.route} <= {"", "QuantGod/Other"})
       && (a.regime == b.regime || {a.regime, b.regime} <= {"", "UNKNOWN"}))
    ensures a.symbol != "" ==> var k := KeyOf(m, a).value;
      && (a.route != "" ==> k.route == a.route) && (a.regime != "" ==> k.regime == a.regime)
      && k.timeframe == a.timeframe && k.canonical == Canonical(m, a.symbol)
      && (m.canonical(a.symbol) != "" ==> k.canonical == m.canonical(a.symbol))
  {
  }

  // ---------------------------------------------------------------- buckets

  datatype Bucket = Bucket(
    names: Names,
    journalEvents: nat, entryEvents: nat, exitEvents: nat,
    closedTrades: nat, wins: nat, losses: nat, flats: nat,
    netProfit: real, grossProfit: real, grossLoss: real, durationSum: real, durationCount: nat,
    outcomeLabels: nat, positive: nat, negative: nat, flatLabels: nat,
    eventLinks: nat, closedLinks: nat, openLinks: nat,
    latest: Latest)

  datatype Names = Names(symbols: set<string>, brokers: set<string>, sources: set<string>)

  datatype Latest = Latest(event: string, close: string, outcome: string, link: string, any: string)

  const NoTimes := Latest("", "", "", "", "")

  const Empty := Bucket(Names({}, {}, {}), 0, 0, 0, 0, 0, 0, 0, 0.0, 0.0, 0.0, 0.0, 0, 0, 0, 0, 0, 0, 0, 0, NoTimes)

  function MergeLatest(a: Latest, b: Latest): Latest {
    Latest(Max(a.event, b.event), Max(a.close, b.close), Max(a.outcome, b.outcome), Max(a.link, b.link), Max(a.any, b.any))
  }

  function MergeNames(a: Names, b: Names): Names {
    Names(a.symbols + b.symbols, a.brokers + b.brokers, a.sources + b.sources)
  }

  /** Adding up two buckets: counts and sums add, names unite, times keep the latest. */
  function Merge(a: Bucket, b: Bucket): Bucket {
    Bucket(MergeNames(a.names, b.names),
           a.journalEvents + b.journalEvents, a.entryEvents + b.entryEvents, a.exitEvents + b.exitEvents,
           a.closedTrades + b.closedTrades, a.wins + b.wins, a.losses + b.losses, a.flats + b.flats,
           a.netProfit + b.netProfit, a.grossProfit + b.grossProfit, a.grossLoss + b.grossLoss,
           a.durationSum + b.durationSum, a.durationCount + b.durationCount,
           a.outcomeLabels + b.outcomeLabels, a.positive + b.positive, a.negative + b.negative, a.flatLabels + b.flatLabels,
           a.eventLinks + b.eventLinks, a.closedLinks + b.closedLinks, a.openLinks + b.openLinks,
           MergeLatest(a.latest, b.latest))
  }

  // ---------------------------------------------------------------- what one row contributes

  function Broker(m: Mapping, symbol: string): string {
    if m.broker(symbol) != "" then m.broker(symbol) else symbol
  }

  function NamesOf(m: Mapping, h: Head): Names {
    var broker := Broker(m, h.symbol);
    Names({h.symbol}, if broker != "" && broker != Canonical(m, h.symbol) then {broker} else {},
          if h.source != "" then {h.source} else {})
  }

  predicate IsPositive(verdict: string) {
    Contains(verdict, "WIN") || Contains(verdict, "TP") || Contains(verdict, "POSITIVE")
  }

  predicate IsNegative(verdict: string) {
    Contains(verdict, "LOSS") || Contains(verdict, "SL") || Contains(verdict, "NEGATIVE")
  }

  predicate IsClosedLink(status: string, exitDeal: string) {
    status == "CLOSED" || (exitDeal != "" && exitDeal != "0")
  }

  /** The latest time a row carries. */
  function RowTime(r: Row): string {
    match r
    case JournalRow(_, _, eventTime) => eventTime
    case CloseRow(_, _, _, closeTime, openTime) => Max(closeTime, openTime)
    case OutcomeRow(_, _, serverTime, localTime, closeTime) => Max(serverTime, Max(localTime, closeTime))
    case LinkRow(_, _, _, closeTime, openTime) => Max(closeTime, openTime)
  }

  /** The bucket of one row alone. */
  function Part(m: Mapping, r: Row): Bucket {
    var one := Empty.(names := NamesOf(m, r.head));
    var time := RowTime(r);
    match r
    case JournalRow(_, eventType, _) =>
      one.(journalEvents := 1, entryEvents := if eventType == "ENTRY" then 1 else 0,
           exitEvents := if eventType == "EXIT" then 1 else 0, latest := NoTimes.(event := time, any := time))
    case CloseRow(_, net, duration, _, _) =>
      one.(closedTrades := 1, netProfit := net,
           wins := if net > 0.0 then 1 else 0, losses := if net < 0.0 then 1 else 0, flats := if net == 0.0 then 1 else 0,
           grossProfit := if net > 0.0 then net else 0.0, grossLoss := if net < 0.0 then -net else 0.0,
           durationSum := if duration > 0.0 then duration else 0.0, durationCount := if duration > 0.0 then 1 else 0,
           latest := NoTimes.(close := time, any := time))
    case OutcomeRow(_, verdict, _, _, _) =>
      one.(outcomeLabels := 1, positive := if IsPositive(verdict) then 1 else 0,
           negative := if !IsPositive(verdict) && IsNegative(verdict) then 1 else 0,
           flatLabels := if !IsPositive(verdict) && !IsNegative(verdict) then 1 else 0,
           latest := NoTimes.(outcome := time, any := time))
    case LinkRow(_, status, exitDeal, _, _) =>
      one.(eventLinks := 1, closedLinks := if IsClosedLink(status, exitDeal) then 1 else 0,
           openLinks := if IsClosedLink(status, exitDeal) then 0 else 1, latest := NoTimes.(link := time, any := time))
  }

  // ---------------------------------------------------------------- the fold

  function BucketAt(d: Dict<Key, Bucket>, k: Key): Bucket {
    var found := Find(d, k);
    if found.Some? then found.value else Empty
  }

  function AddRow(m: Mapping, d: Dict<Key, Bucket>, r: Row): Dict<Key, Bucket> {
    var key := KeyOf(m, r.head);
    if key.None? then d else Put(d, key.value, Merge(BucketAt(d, key.value), Part(m, r)))
  }

  function Buckets(m: Mapping, rows: seq<Row>): Dict<Key, Bucket> {
    if rows == [] then [] else AddRow(m, Buckets(m, rows[..|rows| - 1]), rows[|rows| - 1])
  }

  // ---------------------------------------------------------------- the mapping cache

  /** The symbol registry: the compact form a symbol is cached under, and the canonical name it gives
      a symbol, empty when unknown.  The broker name it gives is the symbol itself. */
  datatype Registry = Registry(compact: string -> string, canonical: string -> string)

  /** `mapping_cache`: the mapping made for the first symbol seen of each compact form serves all
      later ones.  The first symbol stands for its mapping. */
  type Spellings = Dict<string, string>

  function Learn(reg: Registry, seen: Spellings, symbol: string): Spellings {
    if symbol == "" || Find(seen, reg.compact(symbol)).Some? then seen else Put(seen, reg.compact(symbol), symbol)
  }

  /** `symbol_mapping` with the cache as it is. */
  function MappedBy(reg: Registry, seen: Spellings): Mapping {
    Mapping((s: string) =>
              var first := Find(seen, reg.compact(s)); if first.Some? then reg.canonical(first.value) else "",
            (s: string) =>
              var first := Find(seen, reg.compact(s)); if first.Some? then first.value else "")
  }

  datatype Fold = Fold(seen: Spellings, buckets: Dict<Key, Bucket>)

  function FoldRow(reg: Registry, f: Fold, r: Row): Fold {
    var seen := Learn(reg, f.seen, r.head.symbol);
    Fold(seen, AddRow(MappedBy(reg, seen), f.buckets, r))
  }

  function FoldRows(reg: Registry, rows: seq<Row>): Fold {
    if rows == [] then Fold([], []) else FoldRow(reg, FoldRows(reg, rows[..|rows| - 1]), rows[|rows| - 1])
  }

  function AllRows(t: Tables): seq<Row> {
    t.journal + t.close + t.outcome + t.link
  }

  /** The buckets `build_stats` makes of the four ledgers. */
  function Stats(reg: Registry, t: Tables): Dict<Key, Bucket> {
    FoldRows(reg, AllRows(t)).buckets
  }

  /** What the symbols of these rows end up mapped to. */
  function Assigned(reg: Registry, rows: seq<Row>): Mapping {
    MappedBy(reg, FoldRows(reg, rows).seen)
  }

  /** The rows whose symbol has this compact form. */
  function Alike(reg: Registry, c: string): Row -> bool {
    (r: Row) => r.head.symbol != "" && reg.compact(r.head.symbol) == c
  }

  /** The first symbol of a compact form. */
  function Lead(reg: Registry, rows: seq<Row>, c: string): Option<string> {
    if rows == [] then None
    else if Alike(reg, c)(rows[0]) then Some(rows[0].head.symbol)
    else Lead(reg, rows[1..], c)
  }

  lemma LeadConcat(reg: Registry, a: seq<Row>, b: seq<Row>, c: string)
    ensures Lead(reg, a + b, c) == if Lead(reg, a, c).Some? then Lead(reg, a, c) else Lead(reg, b, c)
  {
    if a == [] {
      assert a + b == b;
    } else {
      assert (a + b)[1..] == a[1..] + b;
    }
  }

  lemma {:induction false} LeadFound(reg: Registry, rows: seq<Row>, c: string)
    ensures Lead(reg, rows, c).Some? ==>
      exists r :: r in rows && Alike(reg, c)(r) && r.head.symbol == Lead(reg, rows, c).value
    ensures Lead(reg, rows, c).None? ==> forall r :: r in rows ==> !Alike(reg, c)(r)
  {
    hide Alike;
    if rows != [] {
      LeadFound(reg, rows[1..], c);
      assert rows == [rows[0]] + rows[1..];
    }
  }

  /** The cache holds the first symbol of each compact form. */
  lemma {:induction false} SeenIsLead(reg: Registry, rows: seq<Row>, c: string)
    ensures Find(FoldRows(reg, rows).seen, c) == Lead(reg, rows, c)
  {
    hide Find, Put, AddRow, Lead;
    if rows == [] {
      NothingSeen(reg, c);
    } else {
      var front, last := rows[..|rows| - 1], rows[|rows| - 1];
      SeenIsLead(reg, front, c);
      assert rows == front + [last];
      LeadConcat(reg, front, [last], c);
      LeadOne(reg, last, c);
      SeenIsLead(reg, front, reg.compact(last.head.symbol));
      FindPut(FoldRows(reg, front).seen, reg.compact(last.head.symbol), last.head.symbol, c);
    }
  }

  lemma NothingSeen(reg: Registry, c: string)
    ensures Find(FoldRows(reg, []).seen, c) == Lead(reg, [], c) == None
  {
  }

  lemma LeadOne(reg: Registry, r: Row, c: string)
    ensures Lead(reg, [r], c) == if Alike(reg, c)(r) then Some(r.head.symbol) else None
  {
  }

  /** Two mappings treat a symbol alike. */
  predicate SameOn(m: Mapping, n: Mapping, symbol: string) {
    symbol == "" || (m.canonical(symbol) == n.canonical(symbol) && m.broker(symbol) == n.broker(symbol))
  }

  lemma {:induction false} SameRow(m: Mapping, n: Mapping, d: Dict<Key, Bucket>, r: Row)
    requires SameOn(m, n, r.head.symbol)
    ensures AddRow(m, d, r) == AddRow(n, d, r)
  {
    hide Merge, Put, Find, IsPositive, IsNegative, IsClosedLink, RowTime;
  }

  lemma {:induction false} SameBuckets(m: Mapping, n: Mapping, rows: seq<Row>)
    requires forall r :: r in rows ==> SameOn(m, n, r.head.symbol)
    ensures Buckets(m, rows) == Buckets(n, rows)
  {
    hide AddRow, SameOn;
    if rows != [] {
      SameBuckets(m, n, rows[..|rows| - 1]);
      SameRow(m, n, Buckets(m, rows[..|rows| - 1]), rows[|rows| - 1]);
    }
  }

  /** One row more does not change the mapping of the symbols before it. */
  lemma {:induction false} LeadStays(reg: Registry, front: seq<Row>, last: Row, r: Row)
    requires r in front
    ensures SameOn(Assigned(reg, front), Assigned(reg, front + [last]), r.head.symbol)
  {
    hide Find, Lead, FoldRows;
    var c := reg.compact(r.head.symbol);
    SeenIsLead(reg, front, c);
    SeenIsLead(reg, front + [last], c);
    LeadFound(reg, front, c);
    LeadConcat(reg, front, [last], c);
  }

  /** A cache entry is never replaced, so the fold counts every row under the mapping its symbol has
      in the end. */
  lemma {:induction false} FoldIsFixed(reg: Registry, rows: seq<Row>)
    ensures FoldRows(reg, rows).buckets == Buckets(Assigned(reg, rows), rows)
  {
    hide AddRow, Find, Put, Lead, SameOn;
    if rows != [] {
      var front, last := rows[..|rows| - 1], rows[|rows| - 1];
      FoldIsFixed(reg, front);
      forall r | r in front ensures SameOn(Assigned(reg, front), Assigned(reg, rows), r.head.symbol) {
        assert rows == front + [last];
        LeadStays(reg, front, last, r);
      }
      SameBuckets(Assigned(reg, front), Assigned(reg, rows), front);
    }
  }

  // ---------------------------------------------------------------- balance

  /** The overall latest time is the latest of the four ledgers' times. */
  predicate TimesOk(t: Latest) {
    && AtMost(t.event, t.any) && AtMost(t.close, t.any) && AtMost(t.outcome, t.any) && AtMost(t.link, t.any)
    && (t.any == t.event || t.any == t.close || t.any == t.outcome || t.any == t.link)
  }

  /** Conservation inside one bucket. */
  predicate Balanced(b: Bucket) {
    && b.wins + b.losses + b.flats == b.closedTrades
    && b.grossProfit - b.grossLoss == b.netProfit && b.grossProfit >= 0.0 && b.grossLoss >= 0.0
    && b.positive + b.negative + b.flatLabels == b.outcomeLabels
    && b.closedLinks + b.openLinks == b.eventLinks
    && b.entryEvents + b.exitEvents <= b.journalEvents
    && b.durationCount <= b.closedTrades && b.durationSum >= 0.0
    && TimesOk(b.latest)
  }

  // ---------------------------------------------------------------- the loops

  /** One row counted into its bucket, the way the loop bodies do it. */
  method CountRow(m: Mapping, before: Bucket, r: Row) returns (b: Bucket)
    requires TimesOk(before.latest)
    ensures b == Merge(before, Part(m, r))
  {
    hide Max, AtMost, Contains, MergeNames, NamesOf, RowTime, TimesOk;
    var names := NamesOf(m, r.head);
    b := before.(names := MergeNames(before.names, names));
    var time := RowTime(r);
    match r {
      case JournalRow(_, eventType, eventTime) =>
        b := b.(journalEvents := b.journalEvents + 1);
        if eventType == "ENTRY" {
          b := b.(entryEvents := b.entryEvents + 1);
        } else if eventType == "EXIT" {
          b := b.(exitEvents := b.exitEvents + 1);
        }
        b := b.(latest := b.latest.(event := Max(b.latest.event, time)));
        b := b.(latest := b.latest.(any := Max(b.latest.any, b.latest.event)));
      case CloseRow(_, net, duration, closeTime, openTime) =>
        b := b.(closedTrades := b.closedTrades + 1, netProfit := b.netProfit + net);
        if net > 0.0 {
          b := b.(wins := b.wins + 1, grossProfit := b.grossProfit + net);
        } else if net < 0.0 {
          b := b.(losses := b.losses + 1, grossLoss := b.grossLoss + -net);
        } else {
          b := b.(flats := b.flats + 1);
        }
        if duration > 0.0 {
          b := b.(durationSum := b.durationSum + duration, durationCount := b.durationCount + 1);
        }
        b := b.(latest := b.latest.(close := Max(b.latest.close, time)));
        b := b.(latest := b.latest.(any := Max(b.latest.any, b.latest.close)));
      case OutcomeRow(_, verdict, _, _, _) =>
        b := b.(outcomeLabels := b.outcomeLabels + 1);
        if IsPositive(verdict) {
          b := b.(positive := b.positive + 1);
        } else if IsNegative(verdict) {
          b := b.(negative := b.negative + 1);
        } else {
          b := b.(flatLabels := b.flatLabels + 1);
        }
        b := b.(latest := b.latest.(outcome := Max(b.latest.outcome, time)));
        b := b.(latest := b.latest.(any := Max(b.latest.any, b.latest.outcome)));
      case LinkRow(_, status, exitDeal, _, _) =>
        b := b.(eventLinks := b.eventLinks + 1);
        if IsClosedLink(status, exitDeal) {
          b := b.(closedLinks := b.closedLinks + 1);
        } else {
          b := b.(openLinks := b.openLinks + 1);
        }
        b := b.(latest := b.latest.(link := Max(b.latest.link, time)));
        b := b.(latest := b.latest.(any := Max(b.latest.any, b.latest.link)));
    }
    TimeStep(before.latest, time);
  }

  /** Folding a ledger's own latest time into the overall one is folding the row's time in. */
  lemma {:induction false} TimeStep(t: Latest, time: string)
    requires TimesOk(t)
    ensures Max(t.any, Max(t.event, time)) == Max(t.any, time)
    ensures Max(t.any, Max(t.close, time)) == Max(t.any, time)
    ensures Max(t.any, Max(t.outcome, time)) == Max(t.any, time)
    ensures Max(t.any, Max(t.link, time)) == Max(t.any, time)
    ensures forall s: string :: Max(s, "") == s
  {
    hide AtMost, Max;
    MaxOrder(t.any, t.event, time);
    MaxOrder(t.any, t.close, time);
    MaxOrder(t.any, t.outcome, time);
    MaxOrder(t.any, t.link, time);
    MaxOrder(t.event, t.any, time);
    MaxOrder(t.close, t.any, time);
    MaxOrder(t.outcome, t.any, time);
    MaxOrder(t.link, t.any, time);
    forall s: string ensures Max(s, "") == s {
      MaxOrder(s, "", "");
    }
  }

  lemma {:induction false} LatestLaws(a: Latest, b: Latest, c: Latest)
    ensures MergeLatest(a, b) == MergeLatest(b, a)
    ensures MergeLatest(a, MergeLatest(b, c)) == MergeLatest(MergeLatest(a, b), c)
    ensures MergeLatest(NoTimes, a) == a
  {
    hide AtMost, Max;
    MaxOrder(a.event, b.event, c.event);
    MaxOrder(a.close, b.close, c.close);
    MaxOrder(a.outcome, b.outcome, c.outcome);
    MaxOrder(a.link, b.link, c.link);
    MaxOrder(a.any, b.any, c.any);
  }

  /** Buckets add up like numbers: in any order, in any grouping, nothing adding nothing. */
  lemma {:induction false} MergeLaws(a: Bucket, b: Bucket, c: Bucket)
    ensures Merge(a, b) == Merge(b, a)
    ensures Merge(a, Merge(b, c)) == Merge(Merge(a, b), c)
    ensures Merge(Empty, a) == a
  {
    hide AtMost, Max, MergeLatest, MergeNames;
    LatestLaws(a.latest, b.latest, c.latest);
    NamesLaws(a.names, b.names, c.names);
  }

  lemma NamesLaws(x: Names, y: Names, z: Names)
    ensures MergeNames(x, y) == MergeNames(y, x)
    ensures MergeNames(x, MergeNames(y, z)) == MergeNames(MergeNames(x, y), z)
    ensures MergeNames(Names({}, {}, {}), x) == x
  {
  }

  lemma {:induction false} TimesMerge(a: Latest, b: Latest)
    requires TimesOk(a) && TimesOk(b)
    ensures TimesOk(MergeLatest(a, b))
  {
    hide AtMost;
    Bounded(a.event, b.event, a.any, b.any);
    Bounded(a.close, b.close, a.any, b.any);
    Bounded(a.outcome, b.outcome, a.any, b.any);
    Bounded(a.link, b.link, a.any, b.any);
  }

  lemma {:induction false} Bounded(x: string, y: string, a: string, b: string)
    requires AtMost(x, a) && AtMost(y, b)
    ensures AtMost(Max(x, y), Max(a, b))
    ensures x == a && AtMost(b, a) ==> Max(x, y) == Max(a, b)
    ensures y == b && AtMost(a, b) ==> Max(x, y) == Max(a, b)
    ensures AtMost(a, b) || AtMost(b, a)
  {
    hide AtMost;
    Total(a, b);
    if AtMost(a, b) {
      Transitive(x, a, b);
      if AtMost(b, a) {
        Antisymmetric(a, b);
      }
    } else {
      Transitive(y, b, a);
    }
    Total(x, y);
    if AtMost(x, y) && AtMost(y, x) {
      Antisymmetric(x, y);
    }
  }

  lemma {:induction false} MergeBalanced(a: Bucket, b: Bucket)
    requires Balanced(a) && Balanced(b)
    ensures Balanced(Merge(a, b))
  {
    hide AtMost, Max, MergeLatest, TimesOk;
    TimesMerge(a.latest, b.latest);
  }

  lemma OneTimeOk(time: string)
    ensures TimesOk(NoTimes) && TimesOk(NoTimes.(event := time, any := time)) && TimesOk(NoTimes.(close := time, any := time))
    ensures TimesOk(NoTimes.(outcome := time, any := time)) && TimesOk(NoTimes.(link := time, any := time))
  {
    hide AtMost;
    Reflexive(time);
    Least(time);
    Reflexive("");
  }

  lemma {:induction false} ClosePartBalanced(m: Mapping, r: Row)
    requires r.CloseRow?
    ensures Balanced(Part(m, r))
  {
    hide RowTime, TimesOk, NamesOf;
    OneTimeOk(RowTime(r));
  }

  lemma {:induction false} LabelPartBalanced(m: Mapping, r: Row)
    requires !r.CloseRow?
    ensures Balanced(Part(m, r))
  {
    hide Contains, IsPositive, IsNegative, IsClosedLink, RowTime, TimesOk, NamesOf;
    OneTimeOk(RowTime(r));
  }

  lemma {:induction false} PartBalanced(m: Mapping, r: Row)
    ensures Balanced(Part(m, r))
  {
    hide Part, Balanced;
    if r.CloseRow? {
      ClosePartBalanced(m, r);
    } else {
      LabelPartBalanced(m, r);
    }
  }

  lemma EmptyBalanced()
    ensures Balanced(Empty)
  {
    hide TimesOk;
    OneTimeOk("");
  }

  lemma {:induction false} MappedBucketsBalance(m: Mapping, rows: seq<Row>, k: Key)
    ensures Balanced(BucketAt(Buckets(m, rows), k))
  {
    hide Balanced, Merge, Part, Put, Find;
    EmptyBalanced();
    if rows == [] {
      FindNone(Buckets(m, rows), k);
    } else {
      var front, r := rows[..|rows| - 1], rows[|rows| - 1];
      MappedBucketsBalance(m, front, k);
      var d, key := Buckets(m, front), KeyOf(m, r.head);
      if key.Some? {
        PartBalanced(m, r);
        FindPut(d, key.value, Merge(BucketAt(d, key.value), Part(m, r)), k);
        if key.value == k {
          MergeBalanced(BucketAt(d, k), Part(m, r));
        }
      }
    }
  }

  /** Every bucket balances, whatever the rows. */
  lemma {:induction false} EveryBucketBalances(reg: Registry, rows: seq<Row>, k: Key)
    ensures Balanced(BucketAt(FoldRows(reg, rows).buckets, k))
  {
    hide *;
    FoldIsFixed(reg, rows);
    MappedBucketsBalance(Assigned(reg, rows), rows, k);
  }

  /** One turn of a ledger's loop: the row's symbol is looked up, and cached if its form is new, and
      the row is counted into its bucket. */
  method CountInto(reg: Registry, before: Fold, r: Row) returns (after: Fold)
    requires forall k :: TimesOk(BucketAt(before.buckets, k).latest)
    ensures after == FoldRow(reg, before, r)
  {
    hide Merge, Part, KeyOf, Put, Find, BucketAt, TimesOk, MappedBy;
    var seen, buckets := before.seen, before.buckets;
    var symbol := r.head.symbol;
    if symbol != "" {
      var form := reg.compact(symbol);
      if Find(seen, form).None? {
        seen := Put(seen, form, symbol);
      }
    }
    var m := MappedBy(reg, seen);
    var key := KeyOf(m, r.head);
    if key.Some? {
      var bucket := CountRow(m, BucketAt(buckets, key.value), r);
      buckets := Put(buckets, key.value, bucket);
    }
    after := Fold(seen, buckets);
  }

  /** All rows of one ledger, folded into the buckets; the cache is carried along. */
  method FoldLedger(reg: Registry, before: Fold, ghost earlier: seq<Row>, rows: seq<Row>) returns (after: Fold)
    requires before == FoldRows(reg, earlier)
    ensures after == FoldRows(reg, earlier + rows)
  {
    hide FoldRow, BucketAt, TimesOk;
    after := before;
    assert earlier + rows[..0] == earlier;
    for i := 0 to |rows|
      invariant after == FoldRows(reg, earlier + rows[..i])
    {
      assert (earlier + rows[..i + 1])[..|earlier| + i] == earlier + rows[..i];
      forall k ensures TimesOk(BucketAt(after.buckets, k).latest) {
        BucketTimesOk(reg, earlier + rows[..i], k);
      }
      after := CountInto(reg, after, rows[i]);
    }
    assert rows[..|rows|] == rows;
  }

  lemma {:induction false} BucketTimesOk(reg: Registry, rows: seq<Row>, k: Key)
    ensures TimesOk(BucketAt(FoldRows(reg, rows).buckets, k).latest)
  {
    hide TimesOk, FoldRows, BucketAt;
    EveryBucketBalances(reg, rows, k);
  }

  method BuildBuckets(reg: Registry, t: Tables) returns (buckets: Dict<Key, Bucket>)
    ensures buckets == Stats(reg, t)
  {
    hide FoldRow;
    var fold := FoldLedger(reg, Fold([], []), [], t.journal);
    assert [] + t.journal == t.journal;
    fold := FoldLedger(reg, fold, t.journal, t.close);
    fold := FoldLedger(reg, fold, t.journal + t.close, t.outcome);
    fold := FoldLedger(reg, fold, t.journal + t.close + t.outcome, t.link);
    buckets := fold.buckets;
  }

  // ---------------------------------------------------------------- order does not matter

  /** The merged buckets of single rows, as `g` sees them. */
  function SumBy(g: Row -> Bucket, rows: seq<Row>): Bucket {
    if rows == [] then Empty else Merge(g(rows[0]), SumBy(g, rows[1..]))
  }

  lemma {:induction false} SumByConcat(g: Row -> Bucket, a: seq<Row>, b: seq<Row>)
    ensures SumBy(g, a + b) == Merge(SumBy(g, a), SumBy(g, b))
  {
    hide Merge;
    if a == [] {
      assert a + b == b;
      MergeLaws(SumBy(g, b), Empty, Empty);
    } else {
      assert (a + b)[1..] == a[1..] + b;
      SumByConcat(g, a[1..], b);
      MergeLaws(g(a[0]), SumBy(g, a[1..]), SumBy(g, b));
    }
  }

  lemma {:induction false} SumByPermuted(g: Row -> Bucket, a: seq<Row>, b: seq<Row>)
    requires multiset(a) == multiset(b)
    ensures SumBy(g, a) == SumBy(g, b)
  {
    hide Merge;
    if a == [] {
      assert |b| == |multiset(b)| == 0;
    } else {
      assert a[0] in multiset(b);
      var i :| 0 <= i < |b| && b[i] == a[0];
      var front, back := b[..i], b[i + 1..];
      RestPermuted(a, b, i);
      SumByPermuted(g, a[1..], front + back);
      SumByConcat(g, front, back);
      SumByConcat(g, front, b[i..]);
      assert b == front + b[i..] && b[i..][1..] == back;
      var x, y, z := g(b[i]), SumBy(g, front), SumBy(g, back);
      MergeLaws(x, y, z);
      MergeLaws(y, x, z);
    }
  }

  lemma {:induction false} RestPermuted<T>(a: seq<T>, b: seq<T>, i: nat)
    requires multiset(a) == multiset(b) && a != [] && i < |b| && b[i] == a[0]
    ensures multiset(a[1..]) == multiset(b[..i] + b[i + 1..])
  {
    assert a == [a[0]] + a[1..];
    assert b == b[..i] + [b[i]] + b[i + 1..];
    assert multiset(a) == multiset{a[0]} + multiset(a[1..]);
    assert multiset(b) == multiset(b[..i]) + multiset{b[i]} + multiset(b[i + 1..]);
    assert multiset(b[..i] + b[i + 1..]) == multiset(b) - multiset{b[i]};
  }

  function InBucket(m: Mapping, k: Key): Row -> bool {
    (r: Row) => KeyOf(m, r.head) == Some(k)
  }

  function PartIn(m: Mapping, k: Key): Row -> Bucket {
    (r: Row) => if KeyOf(m, r.head) == Some(k) then Part(m, r) else Empty
  }

  lemma {:induction false} MappedBucketAddsUp(m: Mapping, rows: seq<Row>, k: Key)
    ensures Find(Buckets(m, rows), k).Some? <==> exists i :: 0 <= i < |rows| && InBucket(m, k)(rows[i])
    ensures BucketAt(Buckets(m, rows), k) == SumBy(PartIn(m, k), rows)
  {
    hide Merge, Part, KeyOf, Find, Put;
    if rows == [] {
      FindNone(Buckets(m, rows), k);
    } else {
      var n := |rows| - 1;
      var front, r := rows[..n], rows[n];
      MappedBucketAddsUp(m, front, k);
      assert rows == front + [r];
      SumByConcat(PartIn(m, k), front, [r]);
      assert [r][1..] == [];
      var d, key := Buckets(m, front), KeyOf(m, r.head);
      MergeLaws(PartIn(m, k)(r), Empty, Empty);
      MergeLaws(BucketAt(d, k), Empty, Empty);
      if key.Some? {
        FindPut(d, key.value, Merge(BucketAt(d, key.value), Part(m, r)), k);
      }
      assert forall i :: 0 <= i < n ==> front[i] == rows[i];
      assert (exists i :: 0 <= i < |rows| && InBucket(m, k)(rows[i]))
        <==> (exists i :: 0 <= i < n && InBucket(m, k)(front[i])) || InBucket(m, k)(rows[n]);
    }
  }

  /** A bucket exists exactly when a row has its key, and adds up the rows that do. */
  lemma {:induction false} BucketAddsUpItsRows(reg: Registry, t: Tables, k: Key)
    ensures var rows := AllRows(t);
      var m := Assigned(reg, rows);
      && (Find(Stats(reg, t), k).Some? <==> exists i :: 0 <= i < |rows| && InBucket(m, k)(rows[i]))
      && BucketAt(Stats(reg, t), k) == SumBy(PartIn(m, k), rows)
  {
    hide Find, Buckets, SumBy, InBucket, PartIn, Assigned, FoldRows, BucketAt;
    FoldIsFixed(reg, AllRows(t));
    MappedBucketAddsUp(Assigned(reg, AllRows(t)), AllRows(t), k);
  }

  // ---------------------------------------------------------------- what a bucket counts

  /** How many rows of the bucket pass the test. */
  function Tally(m: Mapping, rows: seq<Row>, k: Key, p: Row -> bool): nat {
    |Filter((r: Row) => KeyOf(m, r.head) == Some(k) && p(r), rows)|
  }

  /** What the rows of the bucket come to. */
  function Worth(m: Mapping, rows: seq<Row>, k: Key, w: Row -> real): real {
    if rows == [] then 0.0 else
      (if KeyOf(m, rows[0].head) == Some(k) then w(rows[0]) else 0.0) + Worth(m, rows[1..], k, w)
  }

  /** `f` counts rows that pass the test. */
  ghost predicate Counts(m: Mapping, f: Bucket -> int, p: Row -> bool) {
    && f(Empty) == 0 && (forall a, b :: f(Merge(a, b)) == f(a) + f(b))
    && forall r :: f(Part(m, r)) == if p(r) then 1 else 0
  }

  ghost predicate Sums(m: Mapping, f: Bucket -> real, w: Row -> real) {
    && f(Empty) == 0.0 && (forall a, b :: f(Merge(a, b)) == f(a) + f(b))
    && forall r :: f(Part(m, r)) == w(r)
  }

  lemma {:induction false} CountOverRows(m: Mapping, rows: seq<Row>, k: Key, f: Bucket -> int, p: Row -> bool)
    requires Counts(m, f, p)
    ensures f(SumBy(PartIn(m, k), rows)) == Tally(m, rows, k, p)
  {
    hide Merge, Part, KeyOf;
    if rows != [] {
      CountOverRows(m, rows[1..], k, f, p);
      assert f(Merge(PartIn(m, k)(rows[0]), SumBy(PartIn(m, k), rows[1..])))
             == f(PartIn(m, k)(rows[0])) + f(SumBy(PartIn(m, k), rows[1..]));
    }
  }

  lemma {:induction false} SumOverRows(m: Mapping, rows: seq<Row>, k: Key, f: Bucket -> real, w: Row -> real)
    requires Sums(m, f, w)
    ensures f(SumBy(PartIn(m, k), rows)) == Worth(m, rows, k, w)
  {
    hide Merge, Part, KeyOf;
    if rows != [] {
      SumOverRows(m, rows[1..], k, f, w);
      assert f(Merge(PartIn(m, k)(rows[0]), SumBy(PartIn(m, k), rows[1..])))
             == f(PartIn(m, k)(rows[0])) + f(SumBy(PartIn(m, k), rows[1..]));
    }
  }

  /** The trades of a bucket: a close row is a win, a loss or flat by the sign of its net profit; gross
      profit and gross loss add up the winning and the losing nets; and only positive durations
      are counted. */
  lemma {:induction false} TradesOfBucket(reg: Registry, t: Tables, k: Key)
    ensures var b, rows, m := BucketAt(Stats(reg, t), k), AllRows(t), Assigned(reg, AllRows(t));
      && b.closedTrades == Tally(m, rows, k, (r: Row) => r.CloseRow?)
      && b.wins == Tally(m, rows, k, (r: Row) => r.CloseRow? && r.net > 0.0)
      && b.losses == Tally(m, rows, k, (r: Row) => r.CloseRow? && r.net < 0.0)
      && b.flats == Tally(m, rows, k, (r: Row) => r.CloseRow? && r.net == 0.0)
      && b.durationCount == Tally(m, rows, k, (r: Row) => r.CloseRow? && r.duration > 0.0)
  {
    var rows, m := AllRows(t), Assigned(reg, AllRows(t));
    hide AllRows, Assigned, BucketAt, Stats, SumBy, Tally;
    BucketAddsUpItsRows(reg, t, k);
    CountsClosed(m);
    hide Counts;
    CountOverRows(m, rows, k, (b: Bucket) => b.closedTrades, (r: Row) => r.CloseRow?);
    CountOverRows(m, rows, k, (b: Bucket) => b.wins, (r: Row) => r.CloseRow? && r.net > 0.0);
    CountOverRows(m, rows, k, (b: Bucket) => b.losses, (r: Row) => r.CloseRow? && r.net < 0.0);
    CountOverRows(m, rows, k, (b: Bucket) => b.flats, (r: Row) => r.CloseRow? && r.net == 0.0);
    CountOverRows(m, rows, k, (b: Bucket) => b.durationCount, (r: Row) => r.CloseRow? && r.duration > 0.0);
  }

  lemma CountsClosed(m: Mapping)
    ensures Counts(m, (b: Bucket) => b.closedTrades, (r: Row) => r.CloseRow?)
    ensures Counts(m, (b: Bucket) => b.wins, (r: Row) => r.CloseRow? && r.net > 0.0)
    ensures Counts(m, (b: Bucket) => b.losses, (r: Row) => r.CloseRow? && r.net < 0.0)
    ensures Counts(m, (b: Bucket) => b.flats, (r: Row) => r.CloseRow? && r.net == 0.0)
    ensures Counts(m, (b: Bucket) => b.durationCount, (r: Row) => r.CloseRow? && r.duration > 0.0)
  {
    hide MergeNames, MergeLatest, NamesOf, IsPositive, IsNegative, IsClosedLink, RowTime;
  }

  /** The money of a bucket. */
  lemma {:induction false} MoneyOfBucket(reg: Registry, t: Tables, k: Key)
    ensures var b, rows, m := BucketAt(Stats(reg, t), k), AllRows(t), Assigned(reg, AllRows(t));
      && b.netProfit == Worth(m, rows, k, (r: Row) => if r.CloseRow? then r.net else 0.0)
      && b.grossProfit == Worth(m, rows, k, (r: Row) => if r.CloseRow? && r.net > 0.0 then r.net else 0.0)
      && b.grossLoss == Worth(m, rows, k, (r: Row) => if r.CloseRow? && r.net < 0.0 then 0.0 - r.net else 0.0)
      && b.durationSum == Worth(m, rows, k, (r: Row) => if r.CloseRow? && r.duration > 0.0 then r.duration else 0.0)
  {
    var rows, m := AllRows(t), Assigned(reg, AllRows(t));
    hide AllRows, Assigned, BucketAt, Stats, SumBy, Worth;
    BucketAddsUpItsRows(reg, t, k);
    SumsMoney(m);
    hide Sums;
    SumOverRows(m, rows, k, (b: Bucket) => b.netProfit, (r: Row) => if r.CloseRow? then r.net else 0.0);
    SumOverRows(m, rows, k, (b: Bucket) => b.grossProfit,
                (r: Row) => if r.CloseRow? && r.net > 0.0 then r.net else 0.0);
    SumOverRows(m, rows, k, (b: Bucket) => b.grossLoss,
                (r: Row) => if r.CloseRow? && r.net < 0.0 then 0.0 - r.net else 0.0);
    SumOverRows(m, rows, k, (b: Bucket) => b.durationSum,
                (r: Row) => if r.CloseRow? && r.duration > 0.0 then r.duration else 0.0);
  }

  lemma SumsMoney(m: Mapping)
    ensures Sums(m, (b: Bucket) => b.netProfit, (r: Row) => if r.CloseRow? then r.net else 0.0)
    ensures Sums(m, (b: Bucket) => b.grossProfit, (r: Row) => if r.CloseRow? && r.net > 0.0 then r.net else 0.0)
    ensures Sums(m, (b: Bucket) => b.grossLoss, (r: Row) => if r.CloseRow? && r.net < 0.0 then 0.0 - r.net else 0.0)
    ensures Sums(m, (b: Bucket) => b.durationSum,
                 (r: Row) => if r.CloseRow? && r.duration > 0.0 then r.duration else 0.0)
  {
    hide MergeNames, MergeLatest, NamesOf, IsPositive, IsNegative, IsClosedLink, RowTime;
  }

  /** A label that reads as a win, or failing that as a loss. */
  predicate ReadsWon(verdict: string) {
    Contains(verdict, "WIN") || Contains(verdict, "TP") || Contains(verdict, "POSITIVE")
  }

  predicate ReadsLost(verdict: string) {
    Contains(verdict, "LOSS") || Contains(verdict, "SL") || Contains(verdict, "NEGATIVE")
  }

  /** The events, labels and links of a bucket. */
  lemma {:induction false} EventsOfBucket(reg: Registry, t: Tables, k: Key)
    ensures var b, rows, m := BucketAt(Stats(reg, t), k), AllRows(t), Assigned(reg, AllRows(t));
      && b.journalEvents == Tally(m, rows, k, (r: Row) => r.JournalRow?)
      && b.entryEvents == Tally(m, rows, k, (r: Row) => r.JournalRow? && r.eventType == "ENTRY")
      && b.exitEvents == Tally(m, rows, k, (r: Row) => r.JournalRow? && r.eventType == "EXIT")
      && b.eventLinks == Tally(m, rows, k, (r: Row) => r.LinkRow?)
      && b.closedLinks == Tally(m, rows, k, (r: Row) => r.LinkRow? && (r.status == "CLOSED" || r.exitDeal !in {"", "0"}))
      && b.openLinks == Tally(m, rows, k, (r: Row) => r.LinkRow? && r.status != "CLOSED" && r.exitDeal in {"", "0"})
  {
    var rows, m := AllRows(t), Assigned(reg, AllRows(t));
    hide AllRows, Assigned, BucketAt, Stats, SumBy, Tally;
    BucketAddsUpItsRows(reg, t, k);
    CountsEvents(m);
    hide Counts;
    CountOverRows(m, rows, k, (b: Bucket) => b.journalEvents, (r: Row) => r.JournalRow?);
    CountOverRows(m, rows, k, (b: Bucket) => b.entryEvents, (r: Row) => r.JournalRow? && r.eventType == "ENTRY");
    CountOverRows(m, rows, k, (b: Bucket) => b.exitEvents, (r: Row) => r.JournalRow? && r.eventType == "EXIT");
    CountOverRows(m, rows, k, (b: Bucket) => b.eventLinks, (r: Row) => r.LinkRow?);
    CountOverRows(m, rows, k, (b: Bucket) => b.closedLinks,
                  (r: Row) => r.LinkRow? && (r.status == "CLOSED" || r.exitDeal !in {"", "0"}));
    CountOverRows(m, rows, k, (b: Bucket) => b.openLinks,
                  (r: Row) => r.LinkRow? && r.status != "CLOSED" && r.exitDeal in {"", "0"});
  }

  lemma CountsEvents(m: Mapping)
    ensures Counts(m, (b: Bucket) => b.journalEvents, (r: Row) => r.JournalRow?)
    ensures Counts(m, (b: Bucket) => b.entryEvents, (r: Row) => r.JournalRow? && r.eventType == "ENTRY")
    ensures Counts(m, (b: Bucket) => b.exitEvents, (r: Row) => r.JournalRow? && r.eventType == "EXIT")
    ensures Counts(m, (b: Bucket) => b.eventLinks, (r: Row) => r.LinkRow?)
    ensures Counts(m, (b: Bucket) => b.closedLinks,
                   (r: Row) => r.LinkRow? && (r.status == "CLOSED" || r.exitDeal !in {"", "0"}))
    ensures Counts(m, (b: Bucket) => b.openLinks,
                   (r: Row) => r.LinkRow? && r.status != "CLOSED" && r.exitDeal in {"", "0"})
  {
    hide MergeNames, MergeLatest, NamesOf, IsPositive, IsNegative, RowTime;
  }

  /** The outcome labels of a bucket. */
  lemma {:induction false} LabelsOfBucket(reg: Registry, t: Tables, k: Key)
    ensures var b, rows, m := BucketAt(Stats(reg, t), k), AllRows(t), Assigned(reg, AllRows(t));
      && b.outcomeLabels == Tally(m, rows, k, (r: Row) => r.OutcomeRow?)
      && b.positive == Tally(m, rows, k, (r: Row) => r.OutcomeRow? && ReadsWon(r.verdict))
      && b.negative == Tally(m, rows, k, (r: Row) => r.OutcomeRow? && ReadsLost(r.verdict) && !ReadsWon(r.verdict))
      && b.flatLabels == Tally(m, rows, k, (r: Row) => r.OutcomeRow? && !ReadsLost(r.verdict) && !ReadsWon(r.verdict))
  {
    var rows, m := AllRows(t), Assigned(reg, AllRows(t));
    hide AllRows, Assigned, BucketAt, Stats, SumBy, Tally, ReadsWon, ReadsLost;
    BucketAddsUpItsRows(reg, t, k);
    CountsLabels(m);
    hide Counts;
    CountOverRows(m, rows, k, (b: Bucket) => b.outcomeLabels, (r: Row) => r.OutcomeRow?);
    CountOverRows(m, rows, k, (b: Bucket) => b.positive, (r: Row) => r.OutcomeRow? && ReadsWon(r.verdict));
    CountOverRows(m, rows, k, (b: Bucket) => b.negative,
                  (r: Row) => r.OutcomeRow? && ReadsLost(r.verdict) && !ReadsWon(r.verdict));
    CountOverRows(m, rows, k, (b: Bucket) => b.flatLabels,
                  (r: Row) => r.OutcomeRow? && !ReadsLost(r.verdict) && !ReadsWon(r.verdict));
  }

  lemma CountsLabels(m: Mapping)
    ensures Counts(m, (b: Bucket) => b.outcomeLabels, (r: Row) => r.OutcomeRow?)
    ensures Counts(m, (b: Bucket) => b.positive, (r: Row) => r.OutcomeRow? && ReadsWon(r.verdict))
    ensures Counts(m, (b: Bucket) => b.negative,
                   (r: Row) => r.OutcomeRow? && ReadsLost(r.verdict) && !ReadsWon(r.verdict))
    ensures Counts(m, (b: Bucket) => b.flatLabels,
                   (r: Row) => r.OutcomeRow? && !ReadsLost(r.verdict) && !ReadsWon(r.verdict))
  {
    hide MergeNames, MergeLatest, NamesOf, Contains, IsClosedLink, RowTime;
  }

  /** The times each ledger's rows carry. */
  function TimesIn(r: Row): set<string> {
    match r
    case JournalRow(_, _, eventTime) => {eventTime}
    case CloseRow(_, _, _, closeTime, openTime) => {openTime, closeTime}
    case OutcomeRow(_, _, serverTime, localTime, closeTime) => {closeTime, localTime, serverTime}
    case LinkRow(_, _, _, closeTime, openTime) => {openTime, closeTime}
  }

  function LatestIn(x: Latest, l: Ledger): string {
    match l
    case Journal => x.event
    case Close => x.close
    case Outcome => x.outcome
    case Link => x.link
  }

  lemma {:induction false} RowTimeIsLatest(r: Row)
    ensures RowTime(r) in TimesIn(r) && forall time :: time in TimesIn(r) ==> AtMost(time, RowTime(r))
  {
    hide AtMost;
    match r
    case JournalRow(_, _, eventTime) =>
      Reflexive(eventTime);
    case CloseRow(_, _, _, closeTime, openTime) =>
      MaxBounds(closeTime, openTime);
    case OutcomeRow(_, _, serverTime, localTime, closeTime) =>
      MaxBounds(localTime, closeTime);
      MaxBounds(serverTime, Max(localTime, closeTime));
      Transitive(localTime, Max(localTime, closeTime), RowTime(r));
      Transitive(closeTime, Max(localTime, closeTime), RowTime(r));
    case LinkRow(_, _, _, closeTime, openTime) =>
      MaxBounds(closeTime, openTime);
  }

  lemma {:induction false} MaxBounds(a: string, b: string)
    ensures Max(a, b) in {a, b} && AtMost(a, Max(a, b)) && AtMost(b, Max(a, b))
  {
    hide AtMost;
    Reflexive(a);
    Reflexive(b);
    Total(a, b);
  }

  lemma {:induction false} LatestOfPart(m: Mapping, r: Row, l: Ledger)
    ensures LatestIn(Part(m, r).latest, l) == if FromLedger(r, l) then RowTime(r) else ""
  {
    hide RowTime, NamesOf, IsPositive, IsNegative, IsClosedLink;
  }

  lemma LatestOfMerge(a: Bucket, b: Bucket, l: Ledger)
    ensures LatestIn(Merge(a, b).latest, l) == Max(LatestIn(a.latest, l), LatestIn(b.latest, l))
    ensures LatestIn(Empty.latest, l) == ""
  {
    hide MergeNames, Max;
  }

  /** A bucket's latest time of a ledger is the latest its rows of that ledger carry. */
  lemma {:induction false} LatestOverRows(m: Mapping, rows: seq<Row>, k: Key, l: Ledger)
    ensures var latest := LatestIn(SumBy(PartIn(m, k), rows).latest, l);
      && (forall r, time :: r in rows && InBucket(m, k)(r) && FromLedger(r, l) && time in TimesIn(r) ==>
            AtMost(time, latest))
      && (latest != "" ==> exists r :: r in rows && InBucket(m, k)(r) && FromLedger(r, l) && latest in TimesIn(r))
  {
    hide Merge, Part, KeyOf, AtMost, Max, TimesIn, RowTime, FromLedger;
    LatestOfMerge(Empty, Empty, l);
    if rows != [] {
      var r, g := rows[0], PartIn(m, k);
      LatestOverRows(m, rows[1..], k, l);
      LatestOfMerge(g(r), SumBy(g, rows[1..]), l);
      LatestOfPart(m, r, l);
      RowTimeIsLatest(r);
      var mine, rest := LatestIn(g(r).latest, l), LatestIn(SumBy(g, rows[1..]).latest, l);
      MaxBounds(mine, rest);
      assert rows == [r] + rows[1..];
      forall q, time | q in rows && InBucket(m, k)(q) && FromLedger(q, l) && time in TimesIn(q)
        ensures AtMost(time, Max(mine, rest)) {
        if q == r {
          Transitive(time, mine, Max(mine, rest));
        } else {
          Transitive(time, rest, Max(mine, rest));
        }
      }
    }
  }

  lemma {:induction false} TimesOfBucket(reg: Registry, t: Tables, k: Key, l: Ledger)
    ensures var latest, rows, m := LatestIn(BucketAt(Stats(reg, t), k).latest, l), AllRows(t), Assigned(reg, AllRows(t));
      && (forall r, time :: r in rows && InBucket(m, k)(r) && FromLedger(r, l) && time in TimesIn(r) ==>
            AtMost(time, latest))
      && (latest != "" ==> exists r :: r in rows && InBucket(m, k)(r) && FromLedger(r, l) && latest in TimesIn(r))
  {
    hide AllRows, Assigned, BucketAt, Stats, SumBy, InBucket, FromLedger, TimesIn, AtMost, LatestIn;
    BucketAddsUpItsRows(reg, t, k);
    LatestOverRows(Assigned(reg, AllRows(t)), AllRows(t), k, l);
  }

  lemma NamesOfMerge(a: Bucket, b: Bucket)
    ensures var names := Merge(a, b).names;
      names.symbols == a.names.symbols + b.names.symbols && names.sources == a.names.sources + b.names.sources
  {
    hide MergeLatest;
  }

  lemma {:induction false} NamesOfPart(m: Mapping, r: Row)
    ensures Part(m, r).names.symbols == {r.head.symbol}
    ensures Part(m, r).names.sources == if r.head.source == "" then {} else {r.head.source}
  {
    hide RowTime, IsPositive, IsNegative, IsClosedLink, Canonical, Broker;
  }

  /** The source symbols and sources of a bucket are those of its rows. */
  lemma {:induction false} NamesOverRows(m: Mapping, rows: seq<Row>, k: Key)
    ensures var names := SumBy(PartIn(m, k), rows).names;
      && names.symbols == (set r | r in rows && InBucket(m, k)(r) :: r.head.symbol)
      && names.sources == (set r | r in rows && InBucket(m, k)(r) && r.head.source != "" :: r.head.source)
  {
    hide Merge, Part, KeyOf;
    if rows != [] {
      var r, g := rows[0], PartIn(m, k);
      NamesOverRows(m, rows[1..], k);
      NamesOfMerge(g(r), SumBy(g, rows[1..]));
      NamesOfPart(m, r);
      assert forall q :: q in rows <==> q == r || q in rows[1..] by { assert rows == [r] + rows[1..]; }
    }
  }

  lemma {:induction false} NamesOfBucket(reg: Registry, t: Tables, k: Key)
    ensures var names, rows, m := BucketAt(Stats(reg, t), k).names, AllRows(t), Assigned(reg, AllRows(t));
      && names.symbols == (set r | r in rows && InBucket(m, k)(r) :: r.head.symbol)
      && names.sources == (set r | r in rows && InBucket(m, k)(r) && r.head.source != "" :: r.head.source)
  {
    hide AllRows, Assigned, BucketAt, Stats, SumBy, InBucket;
    BucketAddsUpItsRows(reg, t, k);
    NamesOverRows(Assigned(reg, AllRows(t)), AllRows(t), k);
  }

  /** The same rows in every ledger, in any order. */
  ghost predicate Permuted(t: Tables, u: Tables) {
    && multiset(t.journal) == multiset(u.journal) && multiset(t.close) == multiset(u.close)
    && multiset(t.outcome) == multiset(u.outcome) && multiset(t.link) == multiset(u.link)
  }

  lemma PermutedRows(t: Tables, u: Tables)
    requires Permuted(t, u)
    ensures multiset(AllRows(t)) == multiset(AllRows(u))
  {
  }

  /** Under one fixed mapping the order of the rows does not matter at all. */
  lemma {:induction false} MappedOrderIgnored(m: Mapping, a: seq<Row>, b: seq<Row>, k: Key)
    requires multiset(a) == multiset(b)
    ensures Find(Buckets(m, a), k) == Find(Buckets(m, b), k)
  {
    hide Merge, Part, KeyOf, Find, Buckets, SumBy;
    MappedBucketAddsUp(m, a, k);
    MappedBucketAddsUp(m, b, k);
    SumByPermuted(PartIn(m, k), a, b);
    SameElements(a, b);
    var p := InBucket(m, k);
    assert (exists i :: 0 <= i < |a| && p(a[i])) <==> (exists r :: r in a && p(r));
    assert (exists i :: 0 <= i < |b| && p(b[i])) <==> (exists r :: r in b && p(r));
  }

  // ---------------------------------------------------------------- which symbol leads

  predicate Mentions(reg: Registry, rows: seq<Row>, c: string) {
    exists r :: r in rows && Alike(reg, c)(r)
  }

  /** The first ledger with a symbol of the compact form: any such symbol of it may come first. */
  function FirstLedger(reg: Registry, t: Tables, c: string): seq<Row> {
    if Mentions(reg, t.journal, c) then t.journal
    else if Mentions(reg, t.close, c) then t.close
    else if Mentions(reg, t.outcome, c) then t.outcome
    else t.link
  }

  lemma {:induction false} LeadInFirstLedger(reg: Registry, t: Tables, c: string)
    ensures Lead(reg, AllRows(t), c) == Lead(reg, FirstLedger(reg, t, c), c)
  {
    hide Lead, Alike;
    LeadConcat(reg, t.journal + t.close + t.outcome, t.link, c);
    LeadConcat(reg, t.journal + t.close, t.outcome, c);
    LeadConcat(reg, t.journal, t.close, c);
    LeadFound(reg, t.journal, c);
    LeadFound(reg, t.close, c);
    LeadFound(reg, t.outcome, c);
  }

  lemma {:induction false} MentionsPermuted(reg: Registry, a: seq<Row>, b: seq<Row>, c: string)
    requires multiset(a) == multiset(b)
    ensures Mentions(reg, a, c) <==> Mentions(reg, b, c)
  {
    SameElements(a, b);
  }

  lemma {:induction false} FirstLedgerPermuted(reg: Registry, t: Tables, u: Tables, c: string)
    requires Permuted(t, u)
    ensures multiset(FirstLedger(reg, t, c)) == multiset(FirstLedger(reg, u, c))
  {
    hide Mentions;
    MentionsPermuted(reg, t.journal, u.journal, c);
    MentionsPermuted(reg, t.close, u.close, c);
    MentionsPermuted(reg, t.outcome, u.outcome, c);
  }

  /** Whatever leads after a permutation is a symbol of the same ledger. */
  lemma {:induction false} LeadsOfPermuted(reg: Registry, t: Tables, u: Tables, c: string) returns (r: Row, s: Row)
    requires Permuted(t, u) && Lead(reg, AllRows(t), c).Some?
    ensures r in FirstLedger(reg, t, c) && Alike(reg, c)(r) && Lead(reg, AllRows(t), c) == Some(r.head.symbol)
    ensures s in FirstLedger(reg, t, c) && Alike(reg, c)(s) && Lead(reg, AllRows(u), c) == Some(s.head.symbol)
  {
    hide Lead, Alike, FirstLedger, AllRows;
    LeadInFirstLedger(reg, t, c);
    LeadInFirstLedger(reg, u, c);
    FirstLedgerPermuted(reg, t, u, c);
    var a, b := FirstLedger(reg, t, c), FirstLedger(reg, u, c);
    SameElements(a, b);
    LeadFound(reg, a, c);
    LeadFound(reg, b, c);
    r :| r in a && Alike(reg, c)(r) && r.head.symbol == Lead(reg, a, c).value;
    if Lead(reg, b, c).None? {
      assert false;
    }
    s :| s in b && Alike(reg, c)(s) && s.head.symbol == Lead(reg, b, c).value;
  }

  /** Within the first ledger that has one, the symbols of each compact form are spelled one way. */
  ghost predicate OneSpelling(reg: Registry, t: Tables) {
    forall c, r, s :: r in FirstLedger(reg, t, c) && s in FirstLedger(reg, t, c) && Alike(reg, c)(r) && Alike(reg, c)(s)
      ==> r.head.symbol == s.head.symbol
  }

  /** Within the first ledger that has one, the symbols of each compact form have one canonical name. */
  ghost predicate OneName(reg: Registry, t: Tables) {
    forall c, r, s :: r in FirstLedger(reg, t, c) && s in FirstLedger(reg, t, c) && Alike(reg, c)(r) && Alike(reg, c)(s)
      ==> reg.canonical(r.head.symbol) == reg.canonical(s.head.symbol)
  }

  /** The mapping of a row's symbol, by the first symbol of its form. */
  lemma {:induction false} AssignedByLead(reg: Registry, rows: seq<Row>, r: Row)
    requires r in rows && r.head.symbol != ""
    ensures var lead := Lead(reg, rows, reg.compact(r.head.symbol));
      var m := Assigned(reg, rows);
      && lead.Some? && lead.value != ""
      && m.canonical(r.head.symbol) == reg.canonical(lead.value)
      && m.broker(r.head.symbol) == lead.value == Broker(m, r.head.symbol)
  {
    hide Lead, Find, FoldRows;
    var c := reg.compact(r.head.symbol);
    SeenIsLead(reg, rows, c);
    LeadFound(reg, rows, c);
    assert Alike(reg, c)(r);
  }

  lemma {:induction false} OneSpellingSuffices(reg: Registry, t: Tables, u: Tables, k: Key)
    requires OneSpelling(reg, t) && Permuted(t, u)
    ensures Find(Stats(reg, t), k) == Find(Stats(reg, u), k)
  {
    hide Lead, Find, FoldRows, Alike, FirstLedger, AllRows, Assigned, Buckets;
    var a, b := AllRows(t), AllRows(u);
    var m, n := Assigned(reg, a), Assigned(reg, b);
    PermutedRows(t, u);
    SameElements(a, b);
    forall r | r in b ensures SameOn(m, n, r.head.symbol) {
      if r.head.symbol != "" {
        AssignedByLead(reg, a, r);
        AssignedByLead(reg, b, r);
        var x, y := LeadsOfPermuted(reg, t, u, reg.compact(r.head.symbol));
      }
    }
    FoldIsFixed(reg, a);
    FoldIsFixed(reg, b);
    SameBuckets(m, n, b);
    MappedOrderIgnored(m, a, b, k);
  }

  // ---------------------------------------------------------------- order, exactly

  function NoBrokers(b: Bucket): Bucket {
    b.(names := b.names.(brokers := {}))
  }

  /** The same bucket, or none, up to the broker names. */
  predicate SameButBrokers(x: Option<Bucket>, y: Option<Bucket>) {
    x.Some? == y.Some? && (x.Some? ==> NoBrokers(x.value) == NoBrokers(y.value))
  }

  lemma NoBrokersMerge(a: Bucket, b: Bucket, c: Bucket, d: Bucket)
    requires NoBrokers(a) == NoBrokers(c) && NoBrokers(b) == NoBrokers(d)
    ensures NoBrokers(Merge(a, b)) == NoBrokers(Merge(c, d))
  {
    hide MergeLatest;
  }

  lemma {:induction false} SameNameRow(m: Mapping, n: Mapping, r: Row)
    requires r.head.symbol != "" ==> m.canonical(r.head.symbol) == n.canonical(r.head.symbol)
    ensures KeyOf(m, r.head) == KeyOf(n, r.head) && NoBrokers(Part(m, r)) == NoBrokers(Part(n, r))
  {
    hide IsPositive, IsNegative, IsClosedLink, RowTime;
  }

  lemma {:induction false} SameNameBuckets(m: Mapping, n: Mapping, rows: seq<Row>, k: Key)
    requires forall r :: r in rows && r.head.symbol != "" ==> m.canonical(r.head.symbol) == n.canonical(r.head.symbol)
    ensures SameButBrokers(Find(Buckets(m, rows), k), Find(Buckets(n, rows), k))
  {
    hide Merge, Part, KeyOf, Find, Put, NoBrokers;
    if rows == [] {
      assert Buckets(m, rows) == Buckets(n, rows);
    } else {
      var front, r := rows[..|rows| - 1], rows[|rows| - 1];
      SameNameBuckets(m, n, front, k);
      SameNameRow(m, n, r);
      var d, e, key := Buckets(m, front), Buckets(n, front), KeyOf(m, r.head);
      if key.Some? {
        var x, y := Merge(BucketAt(d, key.value), Part(m, r)), Merge(BucketAt(e, key.value), Part(n, r));
        FindPut(d, key.value, x, k);
        FindPut(e, key.value, y, k);
        if key.value == k {
          NoBrokersMerge(BucketAt(d, k), Part(m, r), BucketAt(e, k), Part(n, r));
        }
      }
    }
  }

  lemma {:induction false} OneNameSuffices(reg: Registry, t: Tables, u: Tables, k: Key)
    requires OneName(reg, t) && Permuted(t, u)
    ensures SameButBrokers(Find(Stats(reg, t), k), Find(Stats(reg, u), k))
  {
    hide Lead, Find, FoldRows, Alike, FirstLedger, AllRows, Assigned, Buckets;
    var a, b := AllRows(t), AllRows(u);
    var m, n := Assigned(reg, a), Assigned(reg, b);
    PermutedRows(t, u);
    SameElements(a, b);
    forall r | r in b && r.head.symbol != "" ensures m.canonical(r.head.symbol) == n.canonical(r.head.symbol) {
      AssignedByLead(reg, a, r);
      AssignedByLead(reg, b, r);
      var x, y := LeadsOfPermuted(reg, t, u, reg.compact(r.head.symbol));
    }
    FoldIsFixed(reg, a);
    FoldIsFixed(reg, b);
    SameNameBuckets(m, n, b, k);
    MappedOrderIgnored(m, a, b, k);
  }

  /** Moving a row to the front of its ledger makes it lead its form and leaves the other forms' leads. */
  lemma {:induction false} LeadOfMoved(reg: Registry, s: seq<Row>, i: nat, c: string)
    requires i < |s|
    ensures Alike(reg, c)(s[i]) ==> Lead(reg, MoveToFront(s, i), c) == Some(s[i].head.symbol)
    ensures !Alike(reg, c)(s[i]) ==> Lead(reg, MoveToFront(s, i), c) == Lead(reg, s, c)
  {
    hide Lead, Alike;
    assert s == s[..i] + [s[i]] + s[i + 1..];
    LeadOne(reg, s[i], c);
    LeadConcat(reg, [s[i]] + s[..i], s[i + 1..], c);
    LeadConcat(reg, [s[i]], s[..i], c);
    LeadConcat(reg, s[..i] + [s[i]], s[i + 1..], c);
    LeadConcat(reg, s[..i], [s[i]], c);
  }

  function Promoted(reg: Registry, t: Tables, c: string, i: nat): Tables
    requires i < |FirstLedger(reg, t, c)|
  {
    if Mentions(reg, t.journal, c) then t.(journal := MoveToFront(t.journal, i))
    else if Mentions(reg, t.close, c) then t.(close := MoveToFront(t.close, i))
    else if Mentions(reg, t.outcome, c) then t.(outcome := MoveToFront(t.outcome, i))
    else t.(link := MoveToFront(t.link, i))
  }

  lemma {:induction false} PromotedLeads(reg: Registry, t: Tables, c: string, i: nat, d: string)
    requires i < |FirstLedger(reg, t, c)| && Alike(reg, c)(FirstLedger(reg, t, c)[i])
    ensures Permuted(t, Promoted(reg, t, c, i))
    ensures Lead(reg, AllRows(Promoted(reg, t, c, i)), d)
            == if d == c then Some(FirstLedger(reg, t, c)[i].head.symbol) else Lead(reg, AllRows(t), d)
  {
    var l, u := FirstLedger(reg, t, c), Promoted(reg, t, c, i);
    hide Lead, MoveToFront, Mentions;
    assert Alike(reg, d)(l[i]) <==> d == c;
    hide Alike;
    MovedIsPermuted(l, i);
    LeadOfMoved(reg, l, i, d);
    NotMentioned(reg, t.journal, c);
    NotMentioned(reg, t.close, c);
    NotMentioned(reg, t.outcome, c);
    LeadOfAll(reg, t, d);
    LeadOfAll(reg, u, d);
  }

  lemma {:induction false} NotMentioned(reg: Registry, rows: seq<Row>, c: string)
    ensures !Mentions(reg, rows, c) <==> Lead(reg, rows, c).None?
  {
    hide Lead, Alike;
    LeadFound(reg, rows, c);
  }

  function OrElse<T>(a: Option<T>, b: Option<T>): Option<T> {
    if a.Some? then a else b
  }

  lemma {:induction false} LeadOfAll(reg: Registry, t: Tables, c: string)
    ensures Lead(reg, AllRows(t), c)
            == OrElse(Lead(reg, t.journal, c),
                      OrElse(Lead(reg, t.close, c), OrElse(Lead(reg, t.outcome, c), Lead(reg, t.link, c))))
  {
    hide Lead, Alike;
    LeadConcat(reg, t.journal + t.close + t.outcome, t.link, c);
    LeadConcat(reg, t.journal + t.close, t.outcome, c);
    LeadConcat(reg, t.journal, t.close, c);
  }

  // ---------------------------------------------------------------- what a changed lead changes

  /** How many rows a bucket has counted. */
  function Weight(b: Bucket): nat {
    b.journalEvents + b.closedTrades + b.outcomeLabels + b.eventLinks
  }

  lemma WeightAdds(a: Bucket, b: Bucket)
    ensures Weight(Merge(a, b)) == Weight(a) + Weight(b) && Weight(Empty) == 0
  {
    hide MergeNames, MergeLatest;
  }

  lemma WeightOfPart(m: Mapping, r: Row)
    ensures Weight(Part(m, r)) == 1
  {
    hide NamesOf, IsPositive, IsNegative, IsClosedLink, RowTime;
  }

  lemma {:induction false} WeightOfSum(m: Mapping, rows: seq<Row>, k: Key)
    ensures Weight(SumBy(PartIn(m, k), rows)) == |Filter(InBucket(m, k), rows)|
  {
    hide Weight, Merge, Part, KeyOf;
    WeightAdds(Empty, Empty);
    if rows != [] {
      WeightOfSum(m, rows[1..], k);
      WeightAdds(PartIn(m, k)(rows[0]), SumBy(PartIn(m, k), rows[1..]));
      WeightOfPart(m, rows[0]);
    }
  }

  lemma {:induction false} FilterSmaller<T>(p: T -> bool, q: T -> bool, s: seq<T>, x: T)
    requires (forall y :: y in s && q(y) ==> p(y)) && x in s && p(x) && !q(x)
    ensures |Filter(q, s)| < |Filter(p, s)|
  {
    assert s == [s[0]] + s[1..];
    if x in s[1..] {
      FilterSmaller(p, q, s[1..], x);
    } else {
      FilterNoLarger(p, q, s[1..]);
    }
  }

  lemma FilterNoLarger<T>(p: T -> bool, q: T -> bool, s: seq<T>)
    requires forall y :: y in s && q(y) ==> p(y)
    ensures |Filter(q, s)| <= |Filter(p, s)|
  {
  }

  /** A bucket one mapping gives more rows than the other, in whatever order, weighs more. */
  lemma {:induction false} FewerRows(m: Mapping, n: Mapping, a: seq<Row>, b: seq<Row>, k: Key, x: Row)
    requires multiset(a) == multiset(b) && x in a && InBucket(m, k)(x) && !InBucket(n, k)(x)
    requires forall y :: y in a && InBucket(n, k)(y) ==> InBucket(m, k)(y)
    ensures Weight(BucketAt(Buckets(n, b), k)) < Weight(BucketAt(Buckets(m, a), k))
  {
    hide Buckets, BucketAt, SumBy, Weight, Filter, InBucket, PartIn;
    MappedBucketAddsUp(m, a, k);
    MappedBucketAddsUp(n, b, k);
    SumByPermuted(PartIn(n, k), a, b);
    WeightOfSum(m, a, k);
    WeightOfSum(n, a, k);
    FilterSmaller(InBucket(m, k), InBucket(n, k), a, x);
  }

  /** The symbols of form `c` follow lead `a` in one table and lead `b` in the other. */
  ghost predicate LeadChanged(reg: Registry, t: Tables, u: Tables, c: string, a: string, b: string) {
    && Permuted(t, u)
    && Lead(reg, AllRows(t), c) == Some(a) && Lead(reg, AllRows(u), c) == Some(b)
    && forall d :: d != c ==> Lead(reg, AllRows(t), d) == Lead(reg, AllRows(u), d)
  }

  lemma {:induction false} RowsOfChangedLead(reg: Registry, t: Tables, u: Tables, c: string, a: string, b: string, y: Row)
    requires LeadChanged(reg, t, u, c, a, b) && y in AllRows(t)
    ensures var m, n := Assigned(reg, AllRows(t)), Assigned(reg, AllRows(u));
      && (!Alike(reg, c)(y) ==> SameOn(m, n, y.head.symbol))
      && (Alike(reg, c)(y) ==>
            m.canonical(y.head.symbol) == reg.canonical(a) && n.canonical(y.head.symbol) == reg.canonical(b)
            && Broker(m, y.head.symbol) == a && Broker(n, y.head.symbol) == b)
    ensures y in AllRows(u)
  {
    hide Lead, FoldRows, AllRows, Assigned;
    PermutedRows(t, u);
    SameElements(AllRows(t), AllRows(u));
    if y.head.symbol != "" {
      AssignedByLead(reg, AllRows(t), y);
      AssignedByLead(reg, AllRows(u), y);
    }
  }

  /** A row whose canonical name the new lead changes leaves its bucket, and none comes in for it. */
  lemma {:induction false} ChangedNameMovesRow(reg: Registry, t: Tables, u: Tables, c: string, a: string, b: string, x: Row)
    returns (k: Key)
    requires LeadChanged(reg, t, u, c, a, b) && x in AllRows(t) && Alike(reg, c)(x)
    requires Canonical(Assigned(reg, AllRows(t)), x.head.symbol) != Canonical(Assigned(reg, AllRows(u)), x.head.symbol)
    ensures !SameButBrokers(Find(Stats(reg, t), k), Find(Stats(reg, u), k))
  {
    hide Lead, FoldRows, AllRows, Assigned, Buckets, BucketAt, Find, Weight;
    var m, n := Assigned(reg, AllRows(t)), Assigned(reg, AllRows(u));
    RowsOfChangedLead(reg, t, u, c, a, b, x);
    k := KeyOf(m, x.head).value;
    forall y | y in AllRows(t) && InBucket(n, k)(y) ensures InBucket(m, k)(y) {
      RowsOfChangedLead(reg, t, u, c, a, b, y);
    }
    PermutedRows(t, u);
    FewerRows(m, n, AllRows(t), AllRows(u), k, x);
    FoldIsFixed(reg, AllRows(t));
    FoldIsFixed(reg, AllRows(u));
    LighterDiffers(Stats(reg, t), Stats(reg, u), k);
  }

  lemma LighterDiffers(d: Dict<Key, Bucket>, e: Dict<Key, Bucket>, k: Key)
    requires Weight(BucketAt(d, k)) > Weight(BucketAt(e, k))
    ensures !SameButBrokers(Find(d, k), Find(e, k))
  {
    hide Find;
  }

  /** The broker names of a bucket are those of its rows that differ from its canonical name. */
  lemma {:induction false} BrokersOf(m: Mapping, rows: seq<Row>, k: Key, x: string)
    ensures x in BucketAt(Buckets(m, rows), k).names.brokers <==>
      x != "" && x != k.canonical && exists r :: r in rows && InBucket(m, k)(r) && Broker(m, r.head.symbol) == x
  {
    hide Find, Put, KeyOf, Broker;
    if rows == [] {
      FindNone(Buckets(m, rows), k);
    } else {
      var front, r := rows[..|rows| - 1], rows[|rows| - 1];
      BrokersOf(m, front, k, x);
      BrokersOfRow(m, r);
      var d, key := Buckets(m, front), KeyOf(m, r.head);
      if key.Some? {
        FindPut(d, key.value, Merge(BucketAt(d, key.value), Part(m, r)), k);
        BrokersMerge(BucketAt(d, k), Part(m, r));
      }
      assert forall y :: y in rows <==> y in front || y == r by { assert rows == front + [r]; }
    }
  }

  lemma BrokersMerge(a: Bucket, b: Bucket)
    ensures Merge(a, b).names.brokers == a.names.brokers + b.names.brokers
  {
    hide MergeLatest;
  }

  lemma {:induction false} BrokersOfRow(m: Mapping, r: Row)
    ensures KeyOf(m, r.head).Some? ==> var x := Broker(m, r.head.symbol);
      Part(m, r).names.brokers == if x != "" && x != KeyOf(m, r.head).value.canonical then {x} else {}
  {
    hide Broker, IsPositive, IsNegative, IsClosedLink, RowTime;
  }

  /** The broker names of a finished bucket are the leads of its rows' forms, its canonical name aside. */
  lemma {:induction false} BrokersAreLeads(reg: Registry, t: Tables, k: Key, x: string)
    ensures x in BucketAt(Stats(reg, t), k).names.brokers <==>
      && x != k.canonical
      && exists r :: r in AllRows(t) && InBucket(Assigned(reg, AllRows(t)), k)(r) && r.head.symbol != ""
                     && Lead(reg, AllRows(t), reg.compact(r.head.symbol)) == Some(x)
  {
    hide Lead, FoldRows, AllRows, Assigned, Buckets, BucketAt, Broker;
    var rows, m := AllRows(t), Assigned(reg, AllRows(t));
    FoldIsFixed(reg, rows);
    BrokersOf(m, rows, k, x);
    forall r | r in rows && InBucket(m, k)(r)
      ensures r.head.symbol != ""
        && (Broker(m, r.head.symbol) == x <==> Lead(reg, rows, reg.compact(r.head.symbol)) == Some(x)) {
      AssignedByLead(reg, rows, r);
    }
    LeadsAreSymbols(reg, rows, x);
  }

  lemma {:induction false} LeadsAreSymbols(reg: Registry, rows: seq<Row>, x: string)
    ensures forall c :: Lead(reg, rows, c) == Some(x) ==> x != "" && reg.compact(x) == c
  {
    hide Lead;
    forall c | Lead(reg, rows, c) == Some(x) ensures x != "" && reg.compact(x) == c {
      LeadFound(reg, rows, c);
    }
  }

  /** A changed lead that leaves a row in its bucket changes the bucket's broker names. */
  lemma {:induction false} ChangedLeadShows(reg: Registry, t: Tables, u: Tables, c: string, a: string, b: string, x: Row)
    returns (k: Key)
    requires LeadChanged(reg, t, u, c, a, b) && a != b && x in AllRows(t) && Alike(reg, c)(x)
    requires Canonical(Assigned(reg, AllRows(t)), x.head.symbol) == Canonical(Assigned(reg, AllRows(u)), x.head.symbol)
    ensures BucketAt(Stats(reg, t), k).names.brokers != BucketAt(Stats(reg, u), k).names.brokers
  {
    hide Lead, FoldRows, AllRows, Assigned, Buckets, BucketAt, Stats;
    var m, n := Assigned(reg, AllRows(t)), Assigned(reg, AllRows(u));
    RowsOfChangedLead(reg, t, u, c, a, b, x);
    k := KeyOf(m, x.head).value;
    assert InBucket(m, k)(x) && InBucket(n, k)(x);
    LeadsAreSymbols(reg, AllRows(t), a);
    LeadsAreSymbols(reg, AllRows(t), b);
    LeadsAreSymbols(reg, AllRows(u), a);
    LeadsAreSymbols(reg, AllRows(u), b);
    BrokersAreLeads(reg, t, k, a);
    BrokersAreLeads(reg, u, k, a);
    BrokersAreLeads(reg, t, k, b);
    BrokersAreLeads(reg, u, k, b);
  }

  /** A row that does not lead its form, moved to the front of its ledger. */
  lemma {:induction false} Promote(reg: Registry, t: Tables, c: string, r: Row) returns (u: Tables)
    requires r in FirstLedger(reg, t, c) && Alike(reg, c)(r)
    ensures Lead(reg, AllRows(t), c).Some?
    ensures LeadChanged(reg, t, u, c, Lead(reg, AllRows(t), c).value, r.head.symbol)
  {
    hide Lead, Alike, FirstLedger, AllRows, Promoted;
    var l := FirstLedger(reg, t, c);
    var i :| 0 <= i < |l| && l[i] == r;
    u := Promoted(reg, t, c, i);
    forall d { PromotedLeads(reg, t, c, i, d); }
    LeadInFirstLedger(reg, t, c);
    LeadFound(reg, l, c);
  }

  lemma FirstLedgerIn(reg: Registry, t: Tables, c: string, r: Row)
    requires r in FirstLedger(reg, t, c)
    ensures r in AllRows(t)
  {
  }

  lemma {:induction false} TwoSpellingsShow(reg: Registry, t: Tables, c: string, r: Row) returns (u: Tables, k: Key)
    requires r in FirstLedger(reg, t, c) && Alike(reg, c)(r)
    requires Lead(reg, AllRows(t), c) != Some(r.head.symbol)
    ensures Permuted(t, u) && Find(Stats(reg, t), k) != Find(Stats(reg, u), k)
  {
    hide Lead, Alike, FirstLedger, AllRows, Assigned, Stats, Find, Permuted, Canonical;
    u := Promote(reg, t, c, r);
    FirstLedgerIn(reg, t, c, r);
    var a, b := Lead(reg, AllRows(t), c).value, r.head.symbol;
    if Canonical(Assigned(reg, AllRows(t)), b) == Canonical(Assigned(reg, AllRows(u)), b) {
      k := ChangedLeadShows(reg, t, u, c, a, b, r);
    } else {
      k := ChangedNameMovesRow(reg, t, u, c, a, b, r);
    }
  }

  lemma {:induction false} TwoNamesShow(reg: Registry, t: Tables, c: string, r: Row) returns (u: Tables, k: Key)
    requires r in FirstLedger(reg, t, c) && Alike(reg, c)(r) && Lead(reg, AllRows(t), c).Some?
    requires reg.canonical(Lead(reg, AllRows(t), c).value) != reg.canonical(r.head.symbol)
    ensures Permuted(t, u) && !SameButBrokers(Find(Stats(reg, t), k), Find(Stats(reg, u), k))
  {
    hide Lead, Alike, FirstLedger, AllRows, Assigned, Stats, Find, Permuted, SameButBrokers;
    u := Promote(reg, t, c, r);
    FirstLedgerIn(reg, t, c, r);
    LeadFound(reg, AllRows(t), c);
    var a, b := Lead(reg, AllRows(t), c).value, r.head.symbol;
    var s :| s in AllRows(t) && Alike(reg, c)(s) && s.head.symbol == a;
    var x := if b in {reg.canonical(a), reg.canonical(b)} then s else r;
    RowsOfChangedLead(reg, t, u, c, a, b, s);
    RowsOfChangedLead(reg, t, u, c, a, b, r);
    k := ChangedNameMovesRow(reg, t, u, c, a, b, x);
  }

  /** Permuting the ledgers leaves every bucket as it is - which exist, every counter and sum, every
      set of names and latest time - exactly when, in the first ledger that has symbols of a compact
      form, all of them are spelled one way. */
  lemma {:induction false} BucketsIgnoreRowOrder(reg: Registry, t: Tables)
    ensures (forall u, k :: Permuted(t, u) ==> Find(Stats(reg, t), k) == Find(Stats(reg, u), k)) <==> OneSpelling(reg, t)
  {
    hide Lead, Alike, FirstLedger, AllRows, Stats, Find, Permuted;
    if OneSpelling(reg, t) {
      forall u, k | Permuted(t, u) ensures Find(Stats(reg, t), k) == Find(Stats(reg, u), k) {
        OneSpellingSuffices(reg, t, u, k);
      }
    } else {
      var c, r, s :| r in FirstLedger(reg, t, c) && s in FirstLedger(reg, t, c)
        && Alike(reg, c)(r) && Alike(reg, c)(s) && r.head.symbol != s.head.symbol;
      var x := if Lead(reg, AllRows(t), c) == Some(r.head.symbol) then s else r;
      var u, k := TwoSpellingsShow(reg, t, c, x);
    }
  }

  /** It leaves everything but the broker names as it is exactly when those symbols, however they are
      spelled, have one canonical name. */
  lemma {:induction false} OnlyBrokersFollowRowOrder(reg: Registry, t: Tables)
    ensures (forall u, k :: Permuted(t, u) ==> SameButBrokers(Find(Stats(reg, t), k), Find(Stats(reg, u), k)))
            <==> OneName(reg, t)
  {
    hide Lead, Alike, FirstLedger, AllRows, Stats, Find, Permuted, SameButBrokers;
    if OneName(reg, t) {
      forall u, k | Permuted(t, u) ensures SameButBrokers(Find(Stats(reg, t), k), Find(Stats(reg, u), k)) {
        OneNameSuffices(reg, t, u, k);
      }
    } else {
      var c, r, s :| r in FirstLedger(reg, t, c) && s in FirstLedger(reg, t, c)
        && Alike(reg, c)(r) && Alike(reg, c)(s) && reg.canonical(r.head.symbol) != reg.canonical(s.head.symbol);
      var v := Promote(reg, t, c, r);
      var lead := Lead(reg, AllRows(t), c).value;
      var x := if reg.canonical(lead) == reg.canonical(r.head.symbol) then s else r;
      var u, k := TwoNamesShow(reg, t, c, x);
    }
  }

  /** A ledger of two rows alike but for the spelling of their symbol. */
  function Respelled(head: Head, a: string, b: string, net: real): Tables {
    Tables([], [CloseRow(head.(symbol := a), net, 0.0, "", ""), CloseRow(head.(symbol := b), net, 0.0, "", "")], [], [])
  }

  lemma {:induction false} FirstLeads(reg: Registry, head: Head, a: string, b: string, net: real)
    requires a != "" && b != "" && reg.compact(a) == reg.compact(b)
    ensures var rows := AllRows(Respelled(head, a, b, net));
      && CloseRow(head.(symbol := a), net, 0.0, "", "") in rows
      && forall y :: y in rows ==> y.head.symbol != "" && Lead(reg, rows, reg.compact(y.head.symbol)) == Some(a)
  {
    var t := Respelled(head, a, b, net);
    assert AllRows(t) == t.close;
  }

  /** The smallest case: the bucket keeps the spelling that comes first and forgets the other. */
  lemma {:induction false} FirstSpellingWins(reg: Registry, head: Head, a: string, b: string, net: real)
    requires a != "" && b != "" && reg.compact(a) == reg.compact(b) && reg.canonical(a) !in {"", a}
    ensures var t := Respelled(head, a, b, net);
      var k := KeyOf(Assigned(reg, AllRows(t)), head.(symbol := a));
      k.Some? && BucketAt(Stats(reg, t), k.value).names.brokers == {a}
  {
    hide *;
    FirstLeads(reg, head, a, b, net);
    LeadIsBroker(reg, Respelled(head, a, b, net), CloseRow(head.(symbol := a), net, 0.0, "", ""), a);
  }

  /** If one symbol leads all rows it is the only broker name, unless it is the canonical one. */
  lemma {:induction false} LeadIsBroker(reg: Registry, t: Tables, r: Row, a: string)
    requires r in AllRows(t) && reg.canonical(a) !in {"", a}
    requires forall y :: y in AllRows(t) ==>
      y.head.symbol != "" && Lead(reg, AllRows(t), reg.compact(y.head.symbol)) == Some(a)
    ensures var k := KeyOf(Assigned(reg, AllRows(t)), r.head);
      k.Some? && BucketAt(Stats(reg, t), k.value).names.brokers == {a}
  {
    hide Lead, FoldRows, Assigned, BucketAt, Stats, AllRows;
    AssignedByLead(reg, AllRows(t), r);
    var k := KeyOf(Assigned(reg, AllRows(t)), r.head).value;
    assert InBucket(Assigned(reg, AllRows(t)), k)(r);
    forall x ensures x in BucketAt(Stats(reg, t), k).names.brokers <==> x == a {
      BrokersAreLeads(reg, t, k, x);
    }
  }

  // ---------------------------------------------------------------- the summary by symbol

  datatype SymbolRow = SymbolRow(symbols: set<string>, brokers: set<string>, slices: nat, closedTrades: nat,
                                 journalEvents: nat, outcomeLabels: nat, eventLinks: nat, netProfit: real, latest: string)

  const NewSymbol := SymbolRow({}, {}, 0, 0, 0, 0, 0, 0.0, "")

  function AddSlice(x: SymbolRow, b: Bucket): SymbolRow {
    SymbolRow(x.symbols + b.names.symbols, x.brokers + b.names.brokers, x.slices + 1,
              x.closedTrades + b.closedTrades, x.journalEvents + b.journalEvents, x.outcomeLabels + b.outcomeLabels,
              x.eventLinks + b.eventLinks, x.netProfit + b.netProfit, Max(x.latest, b.latest.any))
  }

  function SymbolAt(d: Dict<string, SymbolRow>, s: string): SymbolRow {
    var found := Find(d, s);
    if found.Some? then found.value else NewSymbol
  }

  function Summary(d: Dict<Key, Bucket>): Dict<string, SymbolRow> {
    if d == [] then [] else
      var front, e := Summary(d[..|d| - 1]), d[|d| - 1];
      Put(front, e.key.canonical, AddSlice(SymbolAt(front, e.key.canonical), e.value))
  }

  method SummarizeBySymbol(d: Dict<Key, Bucket>) returns (grouped: Dict<string, SymbolRow>)
    ensures grouped == Summary(d)
  {
    grouped := [];
    for i := 0 to |d|
      invariant grouped == Summary(d[..i])
    {
      assert d[..i + 1][..i] == d[..i];
      var symbol, b := d[i].key.canonical, d[i].value;
      if Find(grouped, symbol).None? {
        grouped := Put(grouped, symbol, NewSymbol);
        PutTwice(d[..i], symbol, AddSlice(NewSymbol, b));
      }
      grouped := Put(grouped, symbol, AddSlice(SymbolAt(grouped, symbol), b));
    }
    assert d[..|d|] == d;
  }

  lemma PutTwice(d: Dict<Key, Bucket>, s: string, x: SymbolRow)
    ensures Put(Put(Summary(d), s, NewSymbol), s, x) == Put(Summary(d), s, x)
    ensures Find(Put(Summary(d), s, NewSymbol), s) == Some(NewSymbol)
  {
    PutOver(Summary(d), s, NewSymbol, x);
    FindPut(Summary(d), s, NewSymbol, s);
  }

  lemma PutOver<K, V>(d: Dict<K, V>, k: K, a: V, b: V)
    ensures Put(Put(d, k, a), k, b) == Put(d, k, b)
  {
  }

  // ---------------------------------------------------------------- totals

  function EntryTotal(d: Dict<Key, Bucket>, f: (Key, Bucket) -> real): real {
    if d == [] then 0.0 else f(d[0].key, d[0].value) + EntryTotal(d[1..], f)
  }

  function SymbolTotal(d: Dict<string, SymbolRow>, h: SymbolRow -> real): real {
    if d == [] then 0.0 else h(d[0].value) + SymbolTotal(d[1..], h)
  }

  function RowTotal(m: Mapping, rows: seq<Row>, f: (Key, Bucket) -> real): real {
    if rows == [] then 0.0 else
      var r := rows[|rows| - 1];
      var key := KeyOf(m, r.head);
      RowTotal(m, rows[..|rows| - 1], f) + if key.Some? then f(key.value, Part(m, r)) else 0.0
  }

  lemma EntryTotalPut(d: Dict<Key, Bucket>, k: Key, b: Bucket, f: (Key, Bucket) -> real)
    ensures EntryTotal(Put(d, k, b), f)
            == EntryTotal(d, f) + f(k, b) - if Find(d, k).Some? then f(k, Find(d, k).value) else 0.0
  {
  }

  lemma EntryTotalConcat(a: Dict<Key, Bucket>, b: Dict<Key, Bucket>, f: (Key, Bucket) -> real)
    ensures EntryTotal(a + b, f) == EntryTotal(a, f) + EntryTotal(b, f)
  {
    if a == [] {
      assert a + b == b;
    } else {
      assert (a + b)[1..] == a[1..] + b;
    }
  }

  lemma SymbolTotalPut(d: Dict<string, SymbolRow>, s: string, x: SymbolRow, h: SymbolRow -> real)
    ensures SymbolTotal(Put(d, s, x), h)
            == SymbolTotal(d, h) + h(x) - if Find(d, s).Some? then h(Find(d, s).value) else 0.0
  {
  }

  ghost predicate Additive(f: (Key, Bucket) -> real) {
    (forall k :: f(k, Empty) == 0.0) && forall k, a, b :: f(k, Merge(a, b)) == f(k, a) + f(k, b)
  }

  /** Anything that adds up over merging has the same total over buckets as over rows. */
  lemma {:induction false} BucketTotalIsRowTotal(m: Mapping, rows: seq<Row>, f: (Key, Bucket) -> real)
    requires Additive(f)
    ensures EntryTotal(Buckets(m, rows), f) == RowTotal(m, rows, f)
  {
    if rows != [] {
      hide Merge, Part, KeyOf, Put, Find;
      var front, r := rows[..|rows| - 1], rows[|rows| - 1];
      BucketTotalIsRowTotal(m, front, f);
      var d, key := Buckets(m, front), KeyOf(m, r.head);
      if key.Some? {
        EntryTotalPut(d, key.value, Merge(BucketAt(d, key.value), Part(m, r)), f);
        assert f(key.value, Merge(BucketAt(d, key.value), Part(m, r)))
               == f(key.value, BucketAt(d, key.value)) + f(key.value, Part(m, r));
        assert f(key.value, Empty) == 0.0;
      }
    }
  }

  /** `h` reads off a symbol row what `f` reads off buckets. */
  ghost predicate Tracks(h: SymbolRow -> real, f: Bucket -> real) {
    h(NewSymbol) == 0.0 && forall x, b :: h(AddSlice(x, b)) == h(x) + f(b)
  }

  function OfSymbol(s: string, f: Bucket -> real): (Key, Bucket) -> real {
    (k: Key, b: Bucket) => if k.canonical == s then f(b) else 0.0
  }

  function OfAny(f: Bucket -> real): (Key, Bucket) -> real {
    (k: Key, b: Bucket) => f(b)
  }

  lemma {:induction false} SummaryTotals(d: Dict<Key, Bucket>, s: string, h: SymbolRow -> real, f: Bucket -> real)
    requires Tracks(h, f)
    ensures h(SymbolAt(Summary(d), s)) == EntryTotal(d, OfSymbol(s, f))
    ensures SymbolTotal(Summary(d), h) == EntryTotal(d, OfAny(f))
  {
    if d == [] {
      FindNone(Summary(d), s);
    } else {
      hide AddSlice, Put, Find;
      var n := |d| - 1;
      var front, e := d[..n], d[n];
      SummaryTotals(front, s, h, f);
      assert d == front + [e];
      EntryTotalConcat(front, [e], OfSymbol(s, f));
      EntryTotalConcat(front, [e], OfAny(f));
      assert [e][1..] == [];
      var rows, name := Summary(front), e.key.canonical;
      var row := AddSlice(SymbolAt(rows, name), e.value);
      FindPut(rows, name, row, s);
      SymbolTotalPut(rows, name, row, h);
    }
  }

  // ---------------------------------------------------------------- conservation, ledger to summary

  datatype Ledger = Journal | Close | Outcome | Link

  function CountIn(b: Bucket, l: Ledger): real {
    (match l
     case Journal => b.journalEvents
     case Close => b.closedTrades
     case Outcome => b.outcomeLabels
     case Link => b.eventLinks) as real
  }

  function CountOfSymbol(x: SymbolRow, l: Ledger): real {
    (match l
     case Journal => x.journalEvents
     case Close => x.closedTrades
     case Outcome => x.outcomeLabels
     case Link => x.eventLinks) as real
  }

  predicate FromLedger(r: Row, l: Ledger) {
    match l
    case Journal => r.JournalRow?
    case Close => r.CloseRow?
    case Outcome => r.OutcomeRow?
    case Link => r.LinkRow?
  }

  /** The rows of one ledger that have a symbol; of one symbol when `s` is given. */
  function Counted(m: Mapping, l: Ledger, s: Option<string>): Row -> bool {
    (r: Row) => FromLedger(r, l) && Canonical(m, r.head.symbol) != ""
                && (s.None? || Canonical(m, r.head.symbol) == s.value)
  }

  lemma {:induction false} RowTotalCounts(m: Mapping, rows: seq<Row>, l: Ledger, s: string)
    ensures RowTotal(m, rows, OfSymbol(s, (b: Bucket) => CountIn(b, l)))
            == |Filter(Counted(m, l, Some(s)), rows)| as real
  {
    hide Part, Filter, CountIn, FromLedger;
    FilterNone(Counted(m, l, Some(s)), []);
    if rows != [] {
      var front, r := rows[..|rows| - 1], rows[|rows| - 1];
      RowTotalCounts(m, front, l, s);
      assert rows == front + [r];
      FilterAppend(Counted(m, l, Some(s)), front, r);
      PartCounts(m, r, l);
    }
  }

  lemma {:induction false} RowTotalCount(m: Mapping, rows: seq<Row>, l: Ledger)
    ensures RowTotal(m, rows, OfAny((b: Bucket) => CountIn(b, l))) == |Filter(Counted(m, l, None), rows)| as real
  {
    hide Part, Filter, CountIn, FromLedger;
    FilterNone(Counted(m, l, None), []);
    if rows != [] {
      var front, r := rows[..|rows| - 1], rows[|rows| - 1];
      RowTotalCount(m, front, l);
      assert rows == front + [r];
      FilterAppend(Counted(m, l, None), front, r);
      PartCounts(m, r, l);
    }
  }

  lemma PartCounts(m: Mapping, r: Row, l: Ledger)
    ensures CountIn(Part(m, r), l) == if FromLedger(r, l) then 1.0 else 0.0
  {
  }

  lemma {:induction false} MappedCounts(m: Mapping, rows: seq<Row>, l: Ledger, s: string)
    ensures var d := Buckets(m, rows);
      && CountOfSymbol(SymbolAt(Summary(d), s), l) == |Filter(Counted(m, l, Some(s)), rows)| as real
      && SymbolTotal(Summary(d), (x: SymbolRow) => CountOfSymbol(x, l)) == |Filter(Counted(m, l, None), rows)| as real
      && EntryTotal(d, OfAny((b: Bucket) => CountIn(b, l))) == |Filter(Counted(m, l, None), rows)| as real
  {
    var d := Buckets(m, rows);
    var f, h := (b: Bucket) => CountIn(b, l), (x: SymbolRow) => CountOfSymbol(x, l);
    assert Tracks(h, f);
    assert Additive(OfSymbol(s, f)) && Additive(OfAny(f));
    hide Buckets, Summary, RowTotal, EntryTotal, SymbolTotal, CountIn, CountOfSymbol, Filter;
    SummaryTotals(d, s, h, f);
    BucketTotalIsRowTotal(m, rows, OfSymbol(s, f));
    BucketTotalIsRowTotal(m, rows, OfAny(f));
    RowTotalCounts(m, rows, l, s);
    RowTotalCount(m, rows, l);
  }

  /** Nothing is lost or counted twice between the ledgers, the buckets and the summary: for each
      ledger and symbol the summary row counts exactly that symbol's rows, and the totals over
      buckets and over symbols are both the number of rows that have a symbol. */
  lemma {:induction false} CountsAreConserved(reg: Registry, t: Tables, l: Ledger, s: string)
    ensures var d, rows, m := Stats(reg, t), AllRows(t), Assigned(reg, AllRows(t));
      && CountOfSymbol(SymbolAt(Summary(d), s), l) == |Filter(Counted(m, l, Some(s)), rows)| as real
      && SymbolTotal(Summary(d), (x: SymbolRow) => CountOfSymbol(x, l)) == |Filter(Counted(m, l, None), rows)| as real
      && EntryTotal(d, OfAny((b: Bucket) => CountIn(b, l))) == |Filter(Counted(m, l, None), rows)| as real
  {
    hide Buckets, Summary, SymbolAt, EntryTotal, SymbolTotal, CountIn, CountOfSymbol, Filter, FoldRows, Assigned;
    FoldIsFixed(reg, AllRows(t));
    MappedCounts(Assigned(reg, AllRows(t)), AllRows(t), l, s);
  }

  /** The net profit of close rows added up. */
  function NetSum(rows: seq<Row>): real {
    if rows == [] then 0.0 else
      var last := rows[|rows| - 1];
      NetSum(rows[..|rows| - 1]) + if last.CloseRow? then last.net else 0.0
  }

  lemma NetSumAppend(rows: seq<Row>, r: Row)
    ensures NetSum(rows + [r]) == NetSum(rows) + if r.CloseRow? then r.net else 0.0
  {
    assert (rows + [r])[..|rows|] == rows;
  }

  lemma {:induction false} NetSumFilter(p: Row -> bool, rows: seq<Row>, r: Row)
    ensures NetSum(Filter(p, rows + [r])) == NetSum(Filter(p, rows)) + if p(r) && r.CloseRow? then r.net else 0.0
  {
    hide Filter, NetSum;
    FilterAppend(p, rows, r);
    NetSumAppend(Filter(p, rows), r);
    assert Filter(p, rows) + [] == Filter(p, rows);
  }

  lemma {:induction false} RowTotalNets(m: Mapping, rows: seq<Row>, s: string)
    ensures RowTotal(m, rows, OfSymbol(s, (b: Bucket) => b.netProfit)) == NetSum(Filter(Counted(m, Close, Some(s)), rows))
  {
    hide Part, Filter, NetSum;
    NoNet(m, s);
    if rows != [] {
      var front, r := rows[..|rows| - 1], rows[|rows| - 1];
      RowTotalNets(m, front, s);
      assert rows == front + [r];
      NetSumFilter(Counted(m, Close, Some(s)), front, r);
      PartNet(m, r);
    }
  }

  lemma {:induction false} RowTotalNet(m: Mapping, rows: seq<Row>)
    ensures RowTotal(m, rows, OfAny((b: Bucket) => b.netProfit)) == NetSum(Filter(Counted(m, Close, None), rows))
  {
    hide Part, Filter, NetSum;
    NoNet(m, "");
    if rows != [] {
      var front, r := rows[..|rows| - 1], rows[|rows| - 1];
      RowTotalNet(m, front);
      assert rows == front + [r];
      NetSumFilter(Counted(m, Close, None), front, r);
      PartNet(m, r);
    }
  }

  lemma NoNet(m: Mapping, s: string)
    ensures NetSum(Filter(Counted(m, Close, Some(s)), [])) == 0.0 == NetSum(Filter(Counted(m, Close, None), []))
  {
  }

  lemma PartNet(m: Mapping, r: Row)
    ensures Part(m, r).netProfit == if r.CloseRow? then r.net else 0.0
  {
  }

  lemma {:induction false} MappedNets(m: Mapping, rows: seq<Row>, s: string)
    ensures var d, net := Buckets(m, rows), (b: Bucket) => b.netProfit;
      && SymbolAt(Summary(d), s).netProfit == NetSum(Filter(Counted(m, Close, Some(s)), rows))
      && SymbolTotal(Summary(d), (x: SymbolRow) => x.netProfit) == NetSum(Filter(Counted(m, Close, None), rows))
      && EntryTotal(d, OfAny(net)) == NetSum(Filter(Counted(m, Close, None), rows))
  {
    var d := Buckets(m, rows);
    var net, h := (b: Bucket) => b.netProfit, (x: SymbolRow) => x.netProfit;
    assert Tracks(h, net) && Additive(OfSymbol(s, net)) && Additive(OfAny(net));
    hide Buckets, Summary, SymbolAt, RowTotal, EntryTotal, SymbolTotal, Filter, NetSum;
    SummaryTotals(d, s, h, net);
    BucketTotalIsRowTotal(m, rows, OfSymbol(s, net));
    BucketTotalIsRowTotal(m, rows, OfAny(net));
    RowTotalNets(m, rows, s);
    RowTotalNet(m, rows);
  }

  /** Money too: each symbol row's net profit is the sum over the close rows of that symbol, and the
      totals over symbols and over buckets are the sum over the close rows that have a symbol. */
  lemma {:induction false} NetProfitIsConserved(reg: Registry, t: Tables, s: string)
    ensures var d, rows, m := Stats(reg, t), AllRows(t), Assigned(reg, AllRows(t));
      && SymbolAt(Summary(d), s).netProfit == NetSum(Filter(Counted(m, Close, Some(s)), rows))
      && SymbolTotal(Summary(d), (x: SymbolRow) => x.netProfit) == NetSum(Filter(Counted(m, Close, None), rows))
      && EntryTotal(d, OfAny((b: Bucket) => b.netProfit)) == NetSum(Filter(Counted(m, Close, None), rows))
  {
    hide Buckets, Summary, SymbolAt, EntryTotal, SymbolTotal, Filter, FoldRows, Assigned, NetSum;
    FoldIsFixed(reg, AllRows(t));
    MappedNets(Assigned(reg, AllRows(t)), AllRows(t), s);
  }
}
