/** The single-flight run cache (`runCached` in Dashboard/api_perf_cache.js).

    A call either joins a load in flight, serves a stored value, or launches a load.  Loads end
    later, in any order, and their callbacks write to the map as it is then: entries in flight
    may have been trimmed away meanwhile, and orphaned loads may overwrite or delete newer
    entries of their key. */
module RunCache {
  import opened Sequences
  import opened Dictionaries
  import opened Numbers

  type Key = string
  type Value = string

  /** An entry holds the promise of a load (named by a number) or a value. */
  datatype Slot = Inflight(load: nat, expiresAt: int) | Stored(value: Value, expiresAt: int)

  type Cache = Dict<Key, Slot>

  datatype Reply = Join(load: nat) | Serve(value: Value) | Launch(load: nat)

  // ---------------------------------------------------------------- the three callbacks

  /** A call for `key`; `newId` names the load it would launch. */
  function AfterCall(c: Cache, key: Key, ttl: int, maxEntries: int, now: int, newId: nat): (Cache, Reply) {
    var found: Option<Slot> := Find(c, key);
    if found.Some? && found.value.Inflight? then (c, Join(found.value.load))
    else if found.Some? && found.value.expiresAt > now then
      (Put(Remove(c, key), key, found.value), Serve(found.value.value))
    else
      (Trimmed(Put(c, key, Inflight(newId, now + NonNegative(ttl))), maxEntries), Launch(newId))
  }

  function AfterResolve(c: Cache, key: Key, value: Value, ttl: int, maxEntries: int, now: int): Cache {
    Trimmed(Put(c, key, Stored(value, now + NonNegative(ttl))), maxEntries)
  }

  method RunCached(cache: LinkedMap<Key, Slot>, key: Key, ttl: int, maxEntries: int, now: int, newId: nat)
    returns (reply: Reply)
    modifies cache
    ensures (cache.entries, reply) == AfterCall(old(cache.entries), key, ttl, maxEntries, now, newId)
  {
    var existing := cache.Get(key);
    if existing.Some? {
      if existing.value.Inflight? {
        return Join(existing.value.load);
      }
      if existing.value.expiresAt > now {
        cache.Delete(key);
        cache.Set(key, existing.value);
        return Serve(existing.value.value);
      }
    }
    cache.Set(key, Inflight(newId, now + NonNegative(ttl)));
    cache.Trim(maxEntries);
    reply := Launch(newId);
  }

  method OnResolve(cache: LinkedMap<Key, Slot>, key: Key, value: Value, ttl: int, maxEntries: int, now: int)
    modifies cache
    ensures cache.entries == AfterResolve(old(cache.entries), key, value, ttl, maxEntries, now)
  {
    cache.Set(key, Stored(value, now + NonNegative(ttl)));
    cache.Trim(maxEntries);
  }

  method OnReject(cache: LinkedMap<Key, Slot>, key: Key)
    modifies cache
    ensures cache.entries == Remove(old(cache.entries), key)
  {
    cache.Delete(key);
  }

  // ---------------------------------------------------------------- runs

  /** A load remembers the options of the call that launched it. */
  datatype Load = Load(key: Key, ttl: int, maxEntries: int)

  /** A finished load: which key, which value, its ttl and when it finished. */
  datatype Finished = Finished(key: Key, value: Value, ttl: int, at: int)

  /** The cache, the loads still running, and a history: finished loads, and the keys whose
      in-flight entries were trimmed. */
  datatype World = World(cache: Cache, pending: Dict<nat, Load>, next: nat, now: int,
                         finished: seq<Finished>, trimmed: seq<Key>)

  datatype Event =
    | Call(key: Key, ttl: int, maxEntries: int)
    | Resolve(load: nat, value: Value)
    | Reject(load: nat)
    | Tick(ms: nat)

  function InflightKeys(d: Cache): seq<Key> {
    if d == [] then [] else (if d[0].value.Inflight? then [d[0].key] else []) + InflightKeys(d[1..])
  }

  function Occurrences(s: seq<Key>, k: Key): nat {
    if s == [] then 0 else (if s[0] == k then 1 else 0) + Occurrences(s[1..], k)
  }

  function LoadsOf(pending: Dict<nat, Load>, k: Key): nat {
    if pending == [] then 0 else (if pending[0].value.key == k then 1 else 0) + LoadsOf(pending[1..], k)
  }

  function ReplyTo(w: World, e: Event): Reply
    requires e.Call?
  {
    AfterCall(w.cache, e.key, e.ttl, e.maxEntries, w.now, w.next).1
  }

  /** One event.  A load that is not running can neither resolve nor reject. */
  function Step(w: World, e: Event): World {
    match e
    case Call(key, ttl, maxEntries) =>
      var (cache, reply) := AfterCall(w.cache, key, ttl, maxEntries, w.now, w.next);
      if reply.Launch? then
        var full := Put(w.cache, key, Inflight(w.next, w.now + NonNegative(ttl)));
        w.(cache := cache, pending := Put(w.pending, w.next, Load(key, ttl, maxEntries)), next := w.next + 1,
           trimmed := w.trimmed + InflightKeys(Dropped(full, maxEntries)))
      else w.(cache := cache)
    case Resolve(load, value) =>
      (match Find(w.pending, load)
       case None => w
       case Some(l) =>
         var full := Put(w.cache, l.key, Stored(value, w.now + NonNegative(l.ttl)));
         w.(cache := AfterResolve(w.cache, l.key, value, l.ttl, l.maxEntries, w.now),
            pending := Remove(w.pending, load),
            finished := w.finished + [Finished(l.key, value, l.ttl, w.now)],
            trimmed := w.trimmed + InflightKeys(Dropped(full, l.maxEntries))))
    case Reject(load) =>
      (match Find(w.pending, load)
       case None => w
       case Some(l) => w.(cache := Remove(w.cache, l.key), pending := Remove(w.pending, load)))
    case Tick(ms) => w.(now := w.now + ms)
  }

  function Exec(start: int, events: seq<Event>): World {
    if events == [] then World([], [], 0, start, [], [])
    else Step(Exec(start, events[..|events| - 1]), events[|events| - 1])
  }

  // ---------------------------------------------------------------- the invariant

  predicate InFlight(c: Cache, k: Key) {
    Find(c, k).Some? && Find(c, k).value.Inflight?
  }

  ghost predicate WasLoaded(finished: seq<Finished>, k: Key, value: Value, expiresAt: int, now: int) {
    exists i :: 0 <= i < |finished| && finished[i].key == k && finished[i].value == value
      && finished[i].at <= now && expiresAt == finished[i].at + NonNegative(finished[i].ttl)
  }

  /** What an entry found under `k` says about the world. */
  ghost predicate EntryOk(w: World, k: Key) {
    var found: Option<Slot> := Find(w.cache, k);
    match found
    case None => true
    case Some(Inflight(load, _)) => Find(w.pending, load).Some? && Find(w.pending, load).value.key == k
    case Some(Stored(value, expiresAt)) => WasLoaded(w.finished, k, value, expiresAt, w.now)
  }

  /** Loads of `k` still running: at most the one in the cache and those trimmed out of it. */
  predicate LoadsOk(w: World, k: Key) {
    LoadsOf(w.pending, k) <= (if InFlight(w.cache, k) then 1 else 0) + Occurrences(w.trimmed, k)
  }

  ghost predicate Inv(w: World) {
    && Distinct(w.cache) && Distinct(w.pending)
    && (forall id: nat :: Find(w.pending, id).Some? ==> id < w.next)
    && (forall k :: EntryOk(w, k))
    && (forall k :: LoadsOk(w, k))
  }

  lemma OccurrencesConcat(a: seq<Key>, b: seq<Key>, k: Key)
    ensures Occurrences(a + b, k) == Occurrences(a, k) + Occurrences(b, k)
  {
    if a == [] {
      assert a + b == b;
    } else {
      assert (a + b)[1..] == a[1..] + b;
    }
  }

  lemma InflightKeysCount(d: Cache, k: Key)
    ensures InFlight(d, k) ==> Occurrences(InflightKeys(d), k) >= 1
  {
    if d != [] {
      OccurrencesConcat(if d[0].value.Inflight? then [d[0].key] else [], InflightKeys(d[1..]), k);
    }
  }

  lemma LoadsPut(pending: Dict<nat, Load>, id: nat, l: Load, k: Key)
    requires Find(pending, id).None?
    ensures LoadsOf(Put(pending, id, l), k) == LoadsOf(pending, k) + if l.key == k then 1 else 0
  {
  }

  lemma LoadsRemove(pending: Dict<nat, Load>, id: nat, k: Key)
    requires Find(pending, id).Some?
    ensures LoadsOf(Remove(pending, id), k)
            == LoadsOf(pending, k) - if Find(pending, id).value.key == k then 1 else 0
  {
  }

  /** What a write followed by a trim does to one key: either the key's entry is as written (or
      as before), or it was dropped and, had it been in flight, is counted as trimmed. */
  lemma {:induction false} WriteThenTrim(c: Cache, key: Key, slot: Slot, maxEntries: int, trimmed: seq<Key>, k: Key)
    requires Distinct(c)
    ensures var after := Trimmed(Put(c, key, slot), maxEntries);
      Distinct(after) && (Find(after, k) == None || Find(after, k) == if k == key then Some(slot) else Find(c, k))
    ensures var full := Put(c, key, slot);
      var logged := Occurrences(trimmed + InflightKeys(Dropped(full, maxEntries)), k);
      var lost := (if k == key then slot.Inflight? else InFlight(c, k)) && !InFlight(Trimmed(full, maxEntries), k);
      logged >= Occurrences(trimmed, k) + if lost then 1 else 0
  {
    var full := Put(c, key, slot);
    PutFacts(c, key, slot);
    FindPut(c, key, slot, k);
    FindTrimmed(full, maxEntries, k);
    InflightKeysCount(Dropped(full, maxEntries), k);
    OccurrencesConcat(trimmed, InflightKeys(Dropped(full, maxEntries)), k);
    FindConcat(Dropped(full, maxEntries), Trimmed(full, maxEntries), k);
    assert full == Dropped(full, maxEntries) + Trimmed(full, maxEntries);
  }

  lemma LoadedStays(finished: seq<Finished>, more: seq<Finished>, k: Key, value: Value, expiresAt: int, now: int, later: int)
    requires WasLoaded(finished, k, value, expiresAt, now) && now <= later
    ensures WasLoaded(finished + more, k, value, expiresAt, later)
  {
    var i :| 0 <= i < |finished| && finished[i].key == k && finished[i].value == value
      && finished[i].at <= now && expiresAt == finished[i].at + NonNegative(finished[i].ttl);
    assert (finished + more)[i] == finished[i];
  }

  lemma {:induction false} CallKeepsInv(w: World, e: Event)
    requires Inv(w) && e.Call?
    ensures Inv(Step(w, e))
  {
    hide Find, Put, Remove, LoadsOf, Occurrences, InflightKeys, Trimmed, Dropped;
    var w' := Step(w, e);
    var reply := ReplyTo(w, e);
    if reply.Launch? {
      PutFacts(w.pending, w.next, Load(e.key, e.ttl, e.maxEntries));
      forall id: nat | Find(w'.pending, id).Some? ensures id < w'.next {
        FindPut(w.pending, w.next, Load(e.key, e.ttl, e.maxEntries), id);
      }
      forall k ensures EntryOk(w', k) && LoadsOk(w', k) && Distinct(w'.cache) {
        LaunchKeeps(w, e, k);
      }
      assert EntryOk(w', e.key);
    } else if reply.Serve? {
      RemoveFacts(w.cache, e.key);
      PutFacts(Remove(w.cache, e.key), e.key, Find(w.cache, e.key).value);
      forall k ensures Find(w'.cache, k) == Find(w.cache, k) {
        FindPut(Remove(w.cache, e.key), e.key, Find(w.cache, e.key).value, k);
        FindRemove(w.cache, e.key, k);
      }
      forall k ensures EntryOk(w', k) && LoadsOk(w', k) {
        assert EntryOk(w, k) && LoadsOk(w, k);
      }
    } else {
      assert w' == w;
    }
  }

  lemma {:induction false} LaunchKeeps(w: World, e: Event, k: Key)
    requires Inv(w) && e.Call? && ReplyTo(w, e).Launch?
    ensures EntryOk(Step(w, e), k) && LoadsOk(Step(w, e), k) && Distinct(Step(w, e).cache)
  {
    hide Put, Remove, LoadsOf, Occurrences, InflightKeys, Trimmed, Dropped, Find;
    var w' := Step(w, e);
    var load := Load(e.key, e.ttl, e.maxEntries);
    var slot := Inflight(w.next, w.now + NonNegative(e.ttl));
    assert Find(w.pending, w.next).None?;
    WriteThenTrim(w.cache, e.key, slot, e.maxEntries, w.trimmed, k);
    LoadsPut(w.pending, w.next, load, k);
    FindPut(w.pending, w.next, load, w.next);
    assert EntryOk(w, k) && LoadsOk(w, k);
    if InFlight(w.cache, k) {
      FindPut(w.pending, w.next, load, Find(w.cache, k).value.load);
    }
  }

  lemma {:induction false} ResolveKeeps(w: World, e: Event, k: Key)
    requires Inv(w) && e.Resolve? && Find(w.pending, e.load).Some?
    ensures EntryOk(Step(w, e), k) && LoadsOk(Step(w, e), k) && Distinct(Step(w, e).cache)
  {
    hide Put, Remove, LoadsOf, Occurrences, InflightKeys, Trimmed, Dropped, Find;
    var w' := Step(w, e);
    var load := Find(w.pending, e.load).value;
    var slot := Stored(e.value, w.now + NonNegative(load.ttl));
    WriteThenTrim(w.cache, load.key, slot, load.maxEntries, w.trimmed, k);
    LoadsRemove(w.pending, e.load, k);
    assert EntryOk(w, k) && LoadsOk(w, k);
    var found: Option<Slot> := Find(w'.cache, k);
    if found.Some? && k == load.key {
      assert w'.finished[|w.finished|] == Finished(k, e.value, load.ttl, w.now);
    } else if found.Some? && found.value.Inflight? {
      FindRemove(w.pending, e.load, found.value.load);
    } else if found.Some? {
      LoadedStays(w.finished, [Finished(load.key, e.value, load.ttl, w.now)], k,
                  found.value.value, found.value.expiresAt, w.now, w.now);
    }
  }

  lemma {:induction false} RejectKeeps(w: World, e: Event, k: Key)
    requires Inv(w) && e.Reject? && Find(w.pending, e.load).Some?
    ensures EntryOk(Step(w, e), k) && LoadsOk(Step(w, e), k)
  {
    hide Put, Remove, LoadsOf, Occurrences, InflightKeys, Trimmed, Dropped, Find;
    var load := Find(w.pending, e.load).value;
    LoadsRemove(w.pending, e.load, k);
    FindRemove(w.cache, load.key, k);
    assert EntryOk(w, k) && LoadsOk(w, k);
    if InFlight(w.cache, k) {
      FindRemove(w.pending, e.load, Find(w.cache, k).value.load);
    }
  }

  lemma {:induction false} StepKeepsInv(w: World, e: Event)
    requires Inv(w)
    ensures Inv(Step(w, e))
  {
    hide Put, Remove, LoadsOf, Occurrences, InflightKeys, Trimmed, Dropped, Find, AfterResolve;
    var w' := Step(w, e);
    if e.Call? {
      CallKeepsInv(w, e);
    } else if e.Tick? {
      forall k ensures EntryOk(w', k) && LoadsOk(w', k) {
        assert EntryOk(w, k) && LoadsOk(w, k);
        var found: Option<Slot> := Find(w.cache, k);
        if found.Some? && found.value.Stored? {
          LoadedStays(w.finished, [], k, found.value.value, found.value.expiresAt, w.now, w'.now);
          assert w.finished + [] == w.finished;
        }
      }
    } else if Find(w.pending, e.load).Some? {
      var load := Find(w.pending, e.load).value;
      RemoveFacts(w.pending, e.load);
      RemoveFacts(w.cache, load.key);
      forall id: nat | Find(w'.pending, id).Some? ensures id < w'.next {
        FindRemove(w.pending, e.load, id);
      }
      forall k ensures EntryOk(w', k) && LoadsOk(w', k) && Distinct(w'.cache) {
        if e.Resolve? {
          ResolveKeeps(w, e, k);
        } else {
          RejectKeeps(w, e, k);
        }
      }
      assert EntryOk(w', load.key);
    }
  }

  /** The invariant holds after every run. */
  lemma {:induction false} RunKeepsInv(start: int, events: seq<Event>)
    ensures Inv(Exec(start, events))
  {
    if events != [] {
      RunKeepsInv(start, events[..|events| - 1]);
      StepKeepsInv(Exec(start, events[..|events| - 1]), events[|events| - 1]);
    }
  }

  // ---------------------------------------------------------------- main results

  /** A value served from the map was loaded for that same key, by a load that finished no later
      than now and whose time to live has not run out. */
  lemma {:induction false} ServedValueIsFresh(start: int, events: seq<Event>, e: Event)
    requires e.Call? && ReplyTo(Exec(start, events), e).Serve?
    ensures var w := Exec(start, events);
      exists i :: 0 <= i < |w.finished| && w.finished[i].key == e.key
        && w.finished[i].value == ReplyTo(w, e).value
        && w.finished[i].at <= w.now < w.finished[i].at + w.finished[i].ttl
  {
    RunKeepsInv(start, events);
    var w := Exec(start, events);
    assert EntryOk(w, e.key);
    var found: Option<Slot> := Find(w.cache, e.key);
    var i :| 0 <= i < |w.finished| && w.finished[i].key == e.key && w.finished[i].value == found.value.value
      && w.finished[i].at <= w.now && found.value.expiresAt == w.finished[i].at + NonNegative(w.finished[i].ttl);
    assert w.finished[i].at <= w.now < w.finished[i].at + w.finished[i].ttl;
  }

  /** Joining callers wait for a load of their own key that is still running. */
  lemma {:induction false} JoinedLoadIsRunning(start: int, events: seq<Event>, e: Event)
    requires e.Call? && ReplyTo(Exec(start, events), e).Join?
    ensures var w := Exec(start, events);
      var load := Find(w.pending, ReplyTo(w, e).load);
      load.Some? && load.value.key == e.key
  {
    RunKeepsInv(start, events);
    assert EntryOk(Exec(start, events), e.key);
  }

  /** The loads of a key running at once number at most one plus the in-flight entries of that
      key ever trimmed; while none was trimmed, a load is launched only when none is running. */
  lemma {:induction false} LoadsPerKey(start: int, events: seq<Event>, k: Key)
    ensures var w := Exec(start, events);
      LoadsOf(w.pending, k) <= 1 + Occurrences(w.trimmed, k)
    ensures var w := Exec(start, events);
      forall ttl, maxEntries :: ReplyTo(w, Call(k, ttl, maxEntries)).Launch? && Occurrences(w.trimmed, k) == 0
        ==> LoadsOf(w.pending, k) == 0
  {
    RunKeepsInv(start, events);
    assert LoadsOk(Exec(start, events), k);
  }

  /** Every call of a run uses the same entry limit. */
  predicate FixedLimit(events: seq<Event>, limit: int) {
    forall i :: 0 <= i < |events| && events[i].Call? ==> events[i].maxEntries == limit
  }

  ghost predicate Bounded(w: World, limit: int) {
    && |w.cache| <= TrimLimit(limit)
    && forall id: nat :: Find(w.pending, id).Some? ==> Find(w.pending, id).value.maxEntries == limit
  }

  lemma {:induction false} RunIsBounded(start: int, events: seq<Event>, limit: int)
    requires FixedLimit(events, limit)
    ensures Bounded(Exec(start, events), limit)
  {
    hide Put, Remove, Find, Trimmed, Dropped, InflightKeys;
    if events == [] {
      assert forall id: nat :: Find(Exec(start, events).pending, id) == None by {
        forall id: nat { FindNone(Exec(start, events).pending, id); }
      }
    } else {
      var front, e := events[..|events| - 1], events[|events| - 1];
      RunIsBounded(start, front, limit);
      RunKeepsInv(start, front);
      StepIsBounded(Exec(start, front), e, limit);
    }
  }

  lemma {:induction false} StepIsBounded(w: World, e: Event, limit: int)
    requires Inv(w) && Bounded(w, limit) && (e.Call? ==> e.maxEntries == limit)
    ensures Bounded(Step(w, e), limit)
    ensures e.Call? ==> Find(Step(w, e).cache, e.key).Some?
    ensures e.Resolve? && Find(w.pending, e.load).Some? ==>
      var load := Find(w.pending, e.load).value;
      Find(Step(w, e).cache, load.key) == Some(Stored(e.value, w.now + NonNegative(load.ttl)))
  {
    hide Put, Remove, Find, Trimmed, Dropped, InflightKeys;
    if e.Call? {
      var reply := ReplyTo(w, e);
      if reply.Launch? {
        PutThenTrim(w.cache, e.key, Inflight(w.next, w.now + NonNegative(e.ttl)), limit);
        var load := Load(e.key, e.ttl, limit);
        forall id: nat | Find(Put(w.pending, w.next, load), id).Some?
          ensures Find(Put(w.pending, w.next, load), id).value.maxEntries == limit {
          FindPut(w.pending, w.next, load, id);
        }
      } else if reply.Serve? {
        var slot := Find(w.cache, e.key).value;
        RemoveFacts(w.cache, e.key);
        FindRemove(w.cache, e.key, e.key);
        PutFacts(Remove(w.cache, e.key), e.key, slot);
        FindPut(Remove(w.cache, e.key), e.key, slot, e.key);
      }
    } else if !e.Tick? && Find(w.pending, e.load).Some? {
      var load := Find(w.pending, e.load).value;
      forall id: nat | Find(Remove(w.pending, e.load), id).Some?
        ensures Find(Remove(w.pending, e.load), id).value.maxEntries == limit {
        FindRemove(w.pending, e.load, id);
      }
      RemoveFacts(w.cache, load.key);
      if e.Resolve? {
        PutThenTrim(w.cache, load.key, Stored(e.value, w.now + NonNegative(load.ttl)), limit);
      }
    }
  }

  /** With one entry limit for all calls the map never outgrows it, and no call or finished load
      trims away the key it has just written. */
  lemma {:induction false} CacheIsBounded(start: int, events: seq<Event>, e: Event, limit: int)
    requires FixedLimit(events + [e], limit)
    ensures var w := Exec(start, events + [e]);
      |w.cache| <= Max(1, limit) && Distinct(w.cache)
    ensures e.Call? ==> Find(Exec(start, events + [e]).cache, e.key).Some?
    ensures var w := Exec(start, events);
      e.Resolve? && Find(w.pending, e.load).Some? ==>
      var load := Find(w.pending, e.load).value;
      Find(Exec(start, events + [e]).cache, load.key) == Some(Stored(e.value, w.now + NonNegative(load.ttl)))
  {
    hide Put, Remove, Find, Trimmed, Dropped, InflightKeys, Step;
    assert (events + [e])[..|events|] == events && (events + [e])[|events|] == e;
    assert FixedLimit(events, limit) by {
      assert forall i :: 0 <= i < |events| ==> (events + [e])[i] == events[i];
    }
    RunIsBounded(start, events, limit);
    RunKeepsInv(start, events);
    RunKeepsInv(start, events + [e]);
    StepIsBounded(Exec(start, events), e, limit);
  }

  // ---------------------------------------------------------------- when single flight holds

  /** Every call of a run is for one of the keys. */
  predicate CallsFor(events: seq<Event>, keys: set<Key>) {
    forall i :: 0 <= i < |events| && events[i].Call? ==> events[i].key in keys
  }

  /** In every run whose calls are for these keys and use this limit, a load is launched only when
      none of its key is running. */
  ghost predicate SingleFlight(keys: set<Key>, limit: int) {
    forall start: int, events: seq<Event>, e: Event ::
      CallsFor(events + [e], keys) && FixedLimit(events + [e], limit)
      && e.Call? && ReplyTo(Exec(start, events), e).Launch?
      ==> LoadsOf(Exec(start, events).pending, e.key) == 0
  }

  /** Nothing was trimmed, and the cache and the running loads are about the keys. */
  ghost predicate Untrimmed(w: World, keys: set<Key>) {
    && w.trimmed == []
    && (forall k :: Find(w.cache, k).Some? ==> k in keys)
    && (forall id: nat :: Find(w.pending, id).Some? ==> Find(w.pending, id).value.key in keys)
  }

  lemma NothingInFlight()
    ensures InflightKeys([]) == []
  {
  }

  lemma {:induction false} StepTrimsNothing(w: World, e: Event, limit: int, keys: set<Key>)
    requires Inv(w) && Bounded(w, limit) && Untrimmed(w, keys) && |keys| <= TrimLimit(limit)
    requires e.Call? ==> e.key in keys && e.maxEntries == limit
    ensures Untrimmed(Step(w, e), keys)
  {
    hide Find, Put, Remove, Trimmed, Dropped, InflightKeys;
    NothingInFlight();
    if e.Call? {
      var reply := ReplyTo(w, e);
      if reply.Launch? {
        WriteTrimsNothing(w.cache, e.key, Inflight(w.next, w.now + NonNegative(e.ttl)), limit, keys);
        forall id { FindPut(w.pending, w.next, Load(e.key, e.ttl, limit), id); }
        assert w.trimmed + [] == w.trimmed;
      } else if reply.Serve? {
        var slot := Find(w.cache, e.key).value;
        forall k ensures Find(Put(Remove(w.cache, e.key), e.key, slot), k) == Find(w.cache, k) {
          FindPut(Remove(w.cache, e.key), e.key, slot, k);
          FindRemove(w.cache, e.key, k);
        }
      }
    } else if !e.Tick? && Find(w.pending, e.load).Some? {
      var load := Find(w.pending, e.load).value;
      forall id { FindRemove(w.pending, e.load, id); }
      if e.Resolve? {
        WriteTrimsNothing(w.cache, load.key, Stored(e.value, w.now + NonNegative(load.ttl)), limit, keys);
        assert w.trimmed + [] == w.trimmed;
      } else {
        forall k { FindRemove(w.cache, load.key, k); }
      }
    }
  }

  lemma StartsUntrimmed(start: int, keys: set<Key>)
    ensures Untrimmed(Exec(start, []), keys)
  {
  }

  lemma {:induction false} RunTrimsNothing(start: int, events: seq<Event>, limit: int, keys: set<Key>)
    requires CallsFor(events, keys) && FixedLimit(events, limit) && |keys| <= TrimLimit(limit)
    ensures Untrimmed(Exec(start, events), keys)
  {
    hide Find, Step;
    if events == [] {
      StartsUntrimmed(start, keys);
    } else {
      var front, e := events[..|events| - 1], events[|events| - 1];
      RunTrimsNothing(start, front, limit, keys);
      RunKeepsInv(start, front);
      RunIsBounded(start, front, limit);
      StepTrimsNothing(Exec(start, front), e, limit, keys);
    }
  }

  /** One call for each key in turn. */
  function CallEach(ks: seq<Key>, ttl: int, limit: int): seq<Event> {
    seq(|ks|, i requires 0 <= i < |ks| => Call(ks[i], ttl, limit))
  }

  /** As long as the limit has room, calls for new keys launch loads that all stay in the map. */
  lemma {:induction false} CallsFillTheMap(start: int, ks: seq<Key>, ttl: int, limit: int)
    requires NoDuplicates(ks) && |ks| <= TrimLimit(limit)
    ensures var w := Exec(start, CallEach(ks, ttl, limit));
      && w.next == |w.cache| == |w.pending| == |ks| && w.now == start
      && forall i :: 0 <= i < |ks| ==>
           && w.cache[i] == Entry(ks[i], Inflight(i, start + NonNegative(ttl)))
           && w.pending[i] == Entry(i, Load(ks[i], ttl, limit))
  {
    hide Find, Put, Occurrences, InflightKeys, LoadsOf, Step, ReplyTo;
    if ks != [] {
      var n := |ks| - 1;
      CallsFillTheMap(start, ks[..n], ttl, limit);
      OneMoreCall(start, ks, ttl, limit);
      hide Exec, CallEach;
      var w := Exec(start, CallEach(ks[..n], ttl, limit));
      DistinctByKeys(w.cache, ks[..n]);
      Numbered(n);
      DistinctByKeys(w.pending, seq(n, i requires 0 <= i < n => i));
      CallForNewKey(w, ks[n], ttl, limit);
    }
  }

  lemma Numbered(n: nat)
    ensures NoDuplicates(seq(n, i requires 0 <= i < n => i))
  {
  }

  /** What a call for a key that is not in the map writes. */
  lemma {:induction false} CallForNewKey(w: World, key: Key, ttl: int, limit: int)
    requires Distinct(w.cache) && Distinct(w.pending)
    requires forall i :: 0 <= i < |w.cache| ==> w.cache[i].key != key
    requires forall i :: 0 <= i < |w.pending| ==> w.pending[i].key != w.next
    ensures var after := Step(w, Call(key, ttl, limit));
      && ReplyTo(w, Call(key, ttl, limit)).Launch?
      && after.cache == Trimmed(w.cache + [Entry(key, Inflight(w.next, w.now + NonNegative(ttl)))], limit)
      && after.pending == w.pending + [Entry(w.next, Load(key, ttl, limit))]
      && after.next == w.next + 1 && after.now == w.now
  {
    hide Find, Put, InflightKeys;
    FindNone(w.cache, key);
    FindNone(w.pending, w.next);
    PutFacts(w.cache, key, Inflight(w.next, w.now + NonNegative(ttl)));
    PutFacts(w.pending, w.next, Load(key, ttl, limit));
  }

  lemma LoadsOfFirst(pending: Dict<nat, Load>, k: Key)
    requires pending != [] && pending[0].value.key == k
    ensures LoadsOf(pending, k) >= 1
  {
  }

  lemma LoadsOfLast(pending: Dict<nat, Load>, id: nat, l: Load)
    ensures LoadsOf(pending + [Entry(id, l)], l.key) == LoadsOf(pending, l.key) + 1
  {
    if pending != [] {
      assert (pending + [Entry(id, l)])[1..] == pending[1..] + [Entry(id, l)];
    }
  }

  lemma {:induction false} OneMoreCall(start: int, ks: seq<Key>, ttl: int, limit: int)
    requires ks != []
    ensures var n := |ks| - 1;
      Exec(start, CallEach(ks, ttl, limit)) == Step(Exec(start, CallEach(ks[..n], ttl, limit)), Call(ks[n], ttl, limit))
  {
    hide Step;
    assert CallEach(ks, ttl, limit)[..|ks| - 1] == CallEach(ks[..|ks| - 1], ttl, limit);
  }

  lemma DistinctByKeys<K, V>(d: Dict<K, V>, ks: seq<K>)
    requires NoDuplicates(ks) && |d| == |ks| && forall i :: 0 <= i < |d| ==> d[i].key == ks[i]
    ensures Distinct(d)
  {
  }

  /** The map and the loads after one key too many: the first key is gone from the map. */
  lemma {:induction false} FirstIsTrimmed(start: int, ks: seq<Key>, ttl: int, limit: int)
    requires NoDuplicates(ks) && |ks| == TrimLimit(limit) + 1
    ensures var w := Exec(start, CallEach(ks, ttl, limit));
      && |w.cache| == |ks| - 1 && (forall i :: 0 <= i < |w.cache| ==> w.cache[i].key == ks[1..][i])
      && |w.pending| == w.next == |ks| && w.pending[0].value.key == ks[0]
      && forall i :: 0 <= i < |w.pending| ==> w.pending[i].key == i
  {
    hide Find, Put, Occurrences, InflightKeys, LoadsOf, Step, ReplyTo;
    var n := |ks| - 1;
    var v := Exec(start, CallEach(ks[..n], ttl, limit));
    CallsFillTheMap(start, ks[..n], ttl, limit);
    OneMoreCall(start, ks, ttl, limit);
    hide Exec, CallEach;
    DistinctByKeys(v.cache, ks[..n]);
    CallForNewKey(v, ks[n], ttl, limit);
  }

  lemma FirstIsElsewhere(ks: seq<Key>)
    requires ks != [] && NoDuplicates(ks)
    ensures ks[0] !in ks[1..] && NoDuplicates(ks[1..])
  {
  }

  /** With one key more than the limit has room for, one call each and then the first again: the
      first load has been trimmed out of the map and is loaded a second time beside itself. */
  lemma {:induction false} TrimmedLoadRunsTwice(start: int, ks: seq<Key>, ttl: int, limit: int)
    requires NoDuplicates(ks) && |ks| == TrimLimit(limit) + 1
    ensures var w, e := Exec(start, CallEach(ks, ttl, limit)), Call(ks[0], ttl, limit);
      && ReplyTo(w, e).Launch? && LoadsOf(w.pending, ks[0]) >= 1 && LoadsOf(Step(w, e).pending, ks[0]) >= 2
  {
    hide *;
    FirstIsTrimmed(start, ks, ttl, limit);
    var w := Exec(start, CallEach(ks, ttl, limit));
    FirstIsElsewhere(ks);
    DistinctByKeys(w.cache, ks[1..]);
    Numbered(|ks|);
    DistinctByKeys(w.pending, seq(|ks|, i requires 0 <= i < |ks| => i));
    CallForNewKey(w, ks[0], ttl, limit);
    LoadsOfFirst(w.pending, ks[0]);
    LoadsOfLast(w.pending, w.next, Load(ks[0], ttl, limit));
  }

  lemma {:induction false} PickKeys(keys: set<Key>, n: nat) returns (ks: seq<Key>)
    requires n <= |keys|
    ensures NoDuplicates(ks) && |ks| == n && forall i :: 0 <= i < n ==> ks[i] in keys
  {
    if n == 0 {
      ks := [];
    } else {
      var k :| k in keys;
      ks := PickKeys(keys - {k}, n - 1);
      ks := ks + [k];
    }
  }

  /** Single flight holds exactly when the limit has room for every key that is called for. */
  lemma {:induction false} SingleFlightExactly(keys: set<Key>, limit: int)
    ensures SingleFlight(keys, limit) <==> |keys| <= Max(1, limit)
  {
    hide ReplyTo, Exec, LoadsOf, Find;
    if |keys| <= TrimLimit(limit) {
      forall start: int, events: seq<Event>, e: Event | CallsFor(events + [e], keys) && FixedLimit(events + [e], limit)
        && e.Call? && ReplyTo(Exec(start, events), e).Launch?
        ensures LoadsOf(Exec(start, events).pending, e.key) == 0 {
        assert forall i :: 0 <= i < |events| ==> (events + [e])[i] == events[i];
        RunTrimsNothing(start, events, limit, keys);
        LoadsPerKey(start, events, e.key);
        assert e == Call(e.key, e.ttl, e.maxEntries);
      }
    } else {
      var ks := PickKeys(keys, TrimLimit(limit) + 1);
      var events, e := CallEach(ks, 0, limit), Call(ks[0], 0, limit);
      TrimmedLoadRunsTwice(0, ks, 0, limit);
      assert CallsFor(events + [e], keys) && FixedLimit(events + [e], limit);
      assert ReplyTo(Exec(0, events), e).Launch?;
    }
  }

  // ---------------------------------------------------------------- what every call answers

  /** The last load of a key to end, if it did not fail. */
  function LastLoaded(start: int, events: seq<Event>, k: Key): Option<Finished> {
    if events == [] then None else
      var front, e := events[..|events| - 1], events[|events| - 1];
      var pending := Exec(start, front).pending;
      match e
      case Resolve(load, value) =>
        var l := Find(pending, load);
        if l.Some? && l.value.key == k then Some(Finished(k, value, l.value.ttl, Exec(start, front).now))
        else LastLoaded(start, front, k)
      case Reject(load) =>
        var l := Find(pending, load);
        if l.Some? && l.value.key == k then None else LastLoaded(start, front, k)
      case _ => LastLoaded(start, front, k)
  }

  /** A finished load is fresh until its time to live is over. */
  predicate Fresh(f: Option<Finished>, now: int) {
    f.Some? && now < f.value.at + f.value.ttl
  }

  function Remembered(f: Option<Finished>): Option<Slot> {
    if f.None? then None else Some(Stored(f.value.value, f.value.at + NonNegative(f.value.ttl)))
  }

  /** Unless a load of the key is in flight, its entry is what the last load left. */
  predicate Settled(w: World, last: Option<Finished>, k: Key) {
    (InFlight(w.cache, k) || Find(w.cache, k) == Remembered(last))
    && (last.Some? ==> last.value.at <= w.now)
  }

  lemma {:induction false} LoadFound(pending: Dict<nat, Load>, id: nat, k: Key)
    requires Find(pending, id).Some? && Find(pending, id).value.key == k
    ensures LoadsOf(pending, k) >= 1
  {
    if pending[0].key != id {
      LoadFound(pending[1..], id, k);
    }
  }

  /** While nothing was trimmed, a key is in flight exactly if a load of it runs. */
  lemma {:induction false} InFlightWhileRunning(w: World, keys: set<Key>, k: Key)
    requires Inv(w) && Untrimmed(w, keys)
    ensures InFlight(w.cache, k) <==> LoadsOf(w.pending, k) == 1
    ensures LoadsOf(w.pending, k) <= 1
  {
    hide LoadsOf, Find;
    assert EntryOk(w, k) && LoadsOk(w, k);
    if InFlight(w.cache, k) {
      LoadFound(w.pending, Find(w.cache, k).value.load, k);
    }
  }

  lemma {:induction false} EndedLoadIsSettled(w: World, e: Event, limit: int, keys: set<Key>, last: Option<Finished>, k: Key)
    requires Inv(w) && Bounded(w, limit) && Untrimmed(w, keys) && |keys| <= TrimLimit(limit)
    requires (e.Resolve? || e.Reject?) && Find(w.pending, e.load).Some? && Settled(w, last, k)
    ensures var load := Find(w.pending, e.load).value;
      Settled(Step(w, e),
              if load.key != k then last else if e.Reject? then None else Some(Finished(k, e.value, load.ttl, w.now)), k)
  {
    hide Find, Put, Remove, Trimmed, Dropped, InflightKeys;
    var load := Find(w.pending, e.load).value;
    if e.Resolve? {
      var slot := Stored(e.value, w.now + NonNegative(load.ttl));
      WriteTrimsNothing(w.cache, load.key, slot, limit, keys);
      FindPut(w.cache, load.key, slot, k);
    } else {
      FindRemove(w.cache, load.key, k);
    }
  }

  lemma {:induction false} CallIsSettled(w: World, e: Event, limit: int, keys: set<Key>, last: Option<Finished>, k: Key)
    requires Inv(w) && Bounded(w, limit) && Untrimmed(w, keys) && |keys| <= TrimLimit(limit)
    requires e.Call? && e.key in keys && e.maxEntries == limit && Settled(w, last, k)
    ensures Settled(Step(w, e), last, k)
  {
    hide Find, Put, Remove, Trimmed, Dropped, InflightKeys;
    var reply := ReplyTo(w, e);
    if reply.Launch? {
      var slot := Inflight(w.next, w.now + NonNegative(e.ttl));
      WriteTrimsNothing(w.cache, e.key, slot, limit, keys);
      FindPut(w.cache, e.key, slot, k);
    } else if reply.Serve? {
      FindPut(Remove(w.cache, e.key), e.key, Find(w.cache, e.key).value, k);
      FindRemove(w.cache, e.key, k);
    }
  }

  lemma StartIsSettled(start: int, k: Key)
    ensures Settled(Exec(start, []), LastLoaded(start, [], k), k)
  {
  }

  lemma {:induction false} RunIsSettled(start: int, events: seq<Event>, limit: int, keys: set<Key>, k: Key)
    requires CallsFor(events, keys) && FixedLimit(events, limit) && |keys| <= TrimLimit(limit)
    ensures Settled(Exec(start, events), LastLoaded(start, events, k), k)
  {
    hide Find, Put, Remove, Trimmed, Dropped, InflightKeys, InFlight, AfterCall, AfterResolve;
    if events == [] {
      StartIsSettled(start, k);
    } else {
      var front, e := events[..|events| - 1], events[|events| - 1];
      var w, last := Exec(start, front), LastLoaded(start, front, k);
      RunIsSettled(start, front, limit, keys, k);
      RunKeepsInv(start, front);
      RunIsBounded(start, front, limit);
      RunTrimsNothing(start, front, limit, keys);
      if e.Call? {
        CallIsSettled(w, e, limit, keys, last, k);
      } else if (e.Resolve? || e.Reject?) && Find(w.pending, e.load).Some? {
        EndedLoadIsSettled(w, e, limit, keys, last, k);
      }
    }
  }

  /** With room for every key that is called for, the cache is no more and no less than this: a call
      joins the load of its key that is running; with none running it serves the value of the last
      load of its key, while that is fresh, whatever the call's own time to live; and it launches a
      load only when there is neither. */
  lemma {:induction false} CallAnswersExactly(start: int, events: seq<Event>, e: Event, limit: int, keys: set<Key>)
    requires CallsFor(events + [e], keys) && FixedLimit(events + [e], limit) && |keys| <= Max(1, limit) && e.Call?
    ensures var w, last := Exec(start, events), LastLoaded(start, events, e.key);
      var reply := ReplyTo(w, e);
      if LoadsOf(w.pending, e.key) > 0 then
        reply.Join? && Find(w.pending, reply.load).Some? && Find(w.pending, reply.load).value.key == e.key
      else if Fresh(last, w.now) then reply == Serve(last.value.value)
      else reply == Launch(w.next)
  {
    hide Find, Put, Remove, Trimmed, LoadsOf, Exec, LastLoaded;
    assert (events + [e])[|events|] == e;
    assert forall i :: 0 <= i < |events| ==> (events + [e])[i] == events[i];
    var w := Exec(start, events);
    RunIsSettled(start, events, limit, keys, e.key);
    RunKeepsInv(start, events);
    RunTrimsNothing(start, events, limit, keys);
    InFlightWhileRunning(w, keys, e.key);
    assert EntryOk(w, e.key);
  }
}
