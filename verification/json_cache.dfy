/** The JSON file cache (`readJsonFileCached` in Dashboard/api_perf_cache.js): an entry is
    trusted while it has not expired and the file's modification time and size are as they
    were, and each hit puts its expiry off. */
module JsonCache {
  import opened Sequences
  import opened Dictionaries
  import opened Numbers

  type Path = string

  datatype File = File(mtime: int, size: nat, text: string)

  datatype Parsed<P> = Parsed(payload: P, mtime: int, size: nat, expiresAt: int)

  type Cache<P> = Dict<Path, Parsed<P>>

  predicate Trusted<P>(entry: Option<Parsed<P>>, file: File, now: int) {
    entry.Some? && entry.value.expiresAt > now && entry.value.mtime == file.mtime && entry.value.size == file.size
  }

  /** One call on a file that exists: the cache afterwards, and the payload unless parsing
      throws.  `parse` strips the byte order mark and parses. */
  function AfterRead<P>(c: Cache<P>, path: Path, file: File, ttl: int, maxEntries: int, now: int,
                        parse: string -> Option<P>): (Cache<P>, Option<P>) {
    var cached := Find(c, path);
    var expiresAt := now + NonNegative(ttl);
    if Trusted(cached, file, now) then
      (Put(Remove(c, path), path, cached.value.(expiresAt := expiresAt)), Some(cached.value.payload))
    else
      var payload := parse(file.text);
      if payload.None? then (c, None)
      else (Trimmed(Put(c, path, Parsed(payload.value, file.mtime, file.size, expiresAt)), maxEntries), payload)
  }

  method ReadJsonFileCached<P>(cache: LinkedMap<Path, Parsed<P>>, path: Path, file: File, ttl: int, maxEntries: int,
                               now: int, parse: string -> Option<P>) returns (payload: Option<P>)
    modifies cache
    ensures (cache.entries, payload) == AfterRead(old(cache.entries), path, file, ttl, maxEntries, now, parse)
  {
    var cached := cache.Get(path);
    var expiresAt := now + NonNegative(ttl);
    if Trusted(cached, file, now) {
      cache.Delete(path);
      cache.Set(path, cached.value.(expiresAt := expiresAt));
      return Some(cached.value.payload);
    }
    payload := parse(file.text);
    if payload.Some? {
      cache.Set(path, Parsed(payload.value, file.mtime, file.size, expiresAt));
      cache.Trim(maxEntries);
    }
  }

  // ---------------------------------------------------------------- runs

  datatype World<P> = World(files: Dict<Path, File>, cache: Cache<P>, now: int)

  datatype Event =
    | Write(path: Path, mtime: int, size: nat, text: string)
    | Unlink(path: Path)
    | Read(path: Path, ttl: int)
    | Advance(ms: int)
    | Clear

  /** A read of a missing file throws at the stat and changes nothing. */
  function Step<P>(w: World<P>, e: Event, maxEntries: int, parse: string -> Option<P>): World<P> {
    match e
    case Write(path, mtime, size, text) => w.(files := Put(w.files, path, File(mtime, size, text)))
    case Unlink(path) => w.(files := Remove(w.files, path))
    case Read(path, ttl) =>
      (match Find(w.files, path)
       case None => w
       case Some(file) => w.(cache := AfterRead(w.cache, path, file, ttl, maxEntries, w.now, parse).0))
    case Advance(ms) => w.(now := w.now + ms)
    case Clear => w.(cache := [])
  }

  function Exec<P>(start: int, events: seq<Event>, maxEntries: int, parse: string -> Option<P>): World<P> {
    if events == [] then World([], [], start)
    else Step(Exec(start, events[..|events| - 1], maxEntries, parse), events[|events| - 1], maxEntries, parse)
  }

  function ReadReply<P>(w: World<P>, path: Path, ttl: int, maxEntries: int, parse: string -> Option<P>): Option<P> {
    match Find(w.files, path)
    case None => None
    case Some(file) => AfterRead(w.cache, path, file, ttl, maxEntries, w.now, parse).1
  }

  /** What reading the file without a cache gives. */
  function DirectRead<P>(w: World<P>, path: Path, parse: string -> Option<P>): Option<P> {
    match Find(w.files, path)
    case None => None
    case Some(file) => parse(file.text)
  }

  /** What may be written: which paths get which files. */
  type Writes = (Path, File) -> bool

  predicate WritesWithin(events: seq<Event>, allowed: Writes) {
    forall i :: 0 <= i < |events| && events[i].Write? ==>
      allowed(events[i].path, File(events[i].mtime, events[i].size, events[i].text))
  }

  predicate SameStamp(f: File, g: File) {
    f.mtime == g.mtime && f.size == g.size
  }

  /** Modification time and size of a path's file determine what its text parses to. */
  ghost predicate StampDecides<P>(allowed: Writes, parse: string -> Option<P>) {
    forall path, f, g :: allowed(path, f) && allowed(path, g) && SameStamp(f, g) ==> parse(f.text) == parse(g.text)
  }

  /** In every run that writes only what is allowed, every read answers what reading and parsing
      the file would. */
  ghost predicate ReadsAreDirect<P(!new)>(allowed: Writes, maxEntries: int, parse: string -> Option<P>) {
    forall start: int, events: seq<Event>, path: Path, ttl: int :: WritesWithin(events, allowed) ==>
      var w := Exec(start, events, maxEntries, parse);
      ReadReply(w, path, ttl, maxEntries, parse) == DirectRead(w, path, parse)
  }

  // ---------------------------------------------------------------- the invariant

  /** Some file that was allowed at the path has the entry's stamp and parses to its payload. */
  ghost predicate Explained<P>(path: Path, e: Parsed<P>, allowed: Writes, parse: string -> Option<P>) {
    exists f: File :: allowed(path, f) && f.mtime == e.mtime && f.size == e.size && parse(f.text) == Some(e.payload)
  }

  ghost predicate Honest<P>(w: World<P>, allowed: Writes, parse: string -> Option<P>) {
    && Distinct(w.cache) && Distinct(w.files)
    && (forall path :: Find(w.files, path).Some? ==> allowed(path, Find(w.files, path).value))
    && (forall path :: Find(w.cache, path).Some? ==> Explained(path, Find(w.cache, path).value, allowed, parse))
  }

  lemma {:induction false} ReadKeepsHonest<P(!new)>(w: World<P>, path: Path, ttl: int, maxEntries: int,
                                               allowed: Writes, parse: string -> Option<P>)
    requires Honest(w, allowed, parse) && StampDecides(allowed, parse) && Find(w.files, path).Some?
    ensures var file := Find(w.files, path).value;
      var (cache, payload) := AfterRead(w.cache, path, file, ttl, maxEntries, w.now, parse);
      payload == parse(file.text) && Honest(w.(cache := cache), allowed, parse)
  {
    hide Put, Remove, Find, Trimmed;
    var file := Find(w.files, path).value;
    var (cache, payload) := AfterRead(w.cache, path, file, ttl, maxEntries, w.now, parse);
    var cached := Find(w.cache, path);
    var expiresAt := w.now + NonNegative(ttl);
    if Trusted(cached, file, w.now) {
      var f: File :| allowed(path, f) && f.mtime == cached.value.mtime && f.size == cached.value.size
        && parse(f.text) == Some(cached.value.payload);
      assert SameStamp(f, file);
      var entry := cached.value.(expiresAt := expiresAt);
      assert Explained(path, entry, allowed, parse);
      RemoveFacts(w.cache, path);
      PutFacts(Remove(w.cache, path), path, entry);
      forall k ensures Find(cache, k) == if k == path then Some(entry) else Find(w.cache, k) {
        FindPut(Remove(w.cache, path), path, entry, k);
        FindRemove(w.cache, path, k);
      }
    } else if payload.Some? {
      var entry := Parsed(payload.value, file.mtime, file.size, expiresAt);
      assert Explained(path, entry, allowed, parse);
      PutFacts(w.cache, path, entry);
      forall k ensures Distinct(cache)
        && (Find(cache, k) == None || Find(cache, k) == if k == path then Some(entry) else Find(w.cache, k)) {
        FindPut(w.cache, path, entry, k);
        FindTrimmed(Put(w.cache, path, entry), maxEntries, k);
      }
      assert Distinct(cache) by {
        FindTrimmed(Put(w.cache, path, entry), maxEntries, path);
      }
    }
  }

  lemma {:induction false} RunIsHonest<P(!new)>(start: int, events: seq<Event>, maxEntries: int,
                                           allowed: Writes, parse: string -> Option<P>)
    requires WritesWithin(events, allowed) && StampDecides(allowed, parse)
    ensures Honest(Exec(start, events, maxEntries, parse), allowed, parse)
  {
    if events != [] {
      hide Put, Remove, Find, Trimmed, AfterRead, StampDecides, Explained;
      var front, e := events[..|events| - 1], events[|events| - 1];
      RunIsHonest(start, front, maxEntries, allowed, parse);
      var w := Exec(start, front, maxEntries, parse);
      match e
      case Write(path, mtime, size, text) =>
        PutFacts(w.files, path, File(mtime, size, text));
        forall k { FindPut(w.files, path, File(mtime, size, text), k); }
      case Unlink(path) =>
        RemoveFacts(w.files, path);
        forall k { FindRemove(w.files, path, k); }
      case Read(path, ttl) =>
        if Find(w.files, path).Some? {
          ReadKeepsHonest(w, path, ttl, maxEntries, allowed, parse);
        }
      case Clear =>
        var none: Cache<P> := [];
        forall k { FindNone(none, k); }
      case Advance(_) =>
    }
  }

  /** Two writes of a path with the same time and size, of which the first parses, and a read in
      between: the next read answers what the first text parses to. */
  lemma {:induction false} SameStampReadsStale<P>(path: Path, f: File, g: File, start: int, ttl: int, maxEntries: int,
                                                  parse: string -> Option<P>)
    requires SameStamp(f, g) && parse(f.text).Some? && ttl > 0
    ensures var w := Exec(start, TwoWrites(path, f, g, ttl), maxEntries, parse);
      && ReadReply(w, path, ttl, maxEntries, parse) == parse(f.text)
      && DirectRead(w, path, parse) == parse(g.text)
  {
    var events := TwoWrites(path, f, g, ttl);
    var w0 := Exec(start, [], maxEntries, parse);
    var w1 := Step(w0, events[0], maxEntries, parse);
    var w2 := Step(w1, events[1], maxEntries, parse);
    assert events[..2][..1] == events[..1] && events[..1][..0] == [];
    assert Exec(start, events[..1], maxEntries, parse) == w1 && Exec(start, events[..2], maxEntries, parse) == w2;
    assert w1.files == [Entry(path, f)];
    assert w2.cache == [Entry(path, Parsed(parse(f.text).value, f.mtime, f.size, start + ttl))];
    var w3 := Exec(start, events, maxEntries, parse);
    assert w3 == Step(w2, events[2], maxEntries, parse);
    assert w3.files == [Entry(path, g)] && w3.cache == w2.cache && w3.now == start;
  }

  function TwoWrites(path: Path, f: File, g: File, ttl: int): seq<Event> {
    [Write(path, f.mtime, f.size, f.text), Read(path, ttl), Write(path, g.mtime, g.size, g.text)]
  }

  /** The cache is transparent - through any run of permitted writes, deletions, reads, clock steps
      and clears a read answers what reading and parsing the file would, so that sliding expiry,
      trimming and failed parses never show - exactly when any two permitted files of a path with
      the same time and size parse alike. */
  lemma {:induction false} CachedReadIsDirectRead<P(!new)>(allowed: Writes, maxEntries: int, parse: string -> Option<P>)
    ensures ReadsAreDirect(allowed, maxEntries, parse) <==> StampDecides(allowed, parse)
  {
    hide Exec, ReadReply, DirectRead;
    if StampDecides(allowed, parse) {
      forall start: int, events: seq<Event>, path: Path, ttl: int | WritesWithin(events, allowed)
        ensures var w := Exec(start, events, maxEntries, parse);
          ReadReply(w, path, ttl, maxEntries, parse) == DirectRead(w, path, parse) {
        RunReadsDirectly(start, events, path, ttl, maxEntries, allowed, parse);
      }
    } else {
      var path, f, g :| allowed(path, f) && allowed(path, g) && SameStamp(f, g) && parse(f.text) != parse(g.text);
      var first, second := if parse(f.text).Some? then f else g, if parse(f.text).Some? then g else f;
      SameStampReadsStale(path, first, second, 0, 1, maxEntries, parse);
      assert WritesWithin(TwoWrites(path, first, second, 1), allowed);
    }
  }

  lemma {:induction false} RunReadsDirectly<P(!new)>(start: int, events: seq<Event>, path: Path, ttl: int,
      maxEntries: int, allowed: Writes, parse: string -> Option<P>)
    requires WritesWithin(events, allowed) && StampDecides(allowed, parse)
    ensures var w := Exec(start, events, maxEntries, parse);
      ReadReply(w, path, ttl, maxEntries, parse) == DirectRead(w, path, parse)
  {
    hide Exec, AfterRead;
    RunIsHonest(start, events, maxEntries, allowed, parse);
    var w := Exec(start, events, maxEntries, parse);
    if Find(w.files, path).Some? {
      ReadKeepsHonest(w, path, ttl, maxEntries, allowed, parse);
    }
  }

  // ---------------------------------------------------------------- what every read answers

  /** Every read of a run is of one of the paths. */
  predicate ReadsOf(events: seq<Event>, paths: set<Path>) {
    forall i :: 0 <= i < |events| && events[i].Read? ==> events[i].path in paths
  }

  ghost predicate CachedOnly<P>(w: World<P>, paths: set<Path>) {
    Distinct(w.cache) && forall k :: Find(w.cache, k).Some? ==> k in paths
  }

  /** What a read does to one entry of a map that has room: nothing to those of other paths. */
  lemma {:induction false} ReadWithRoom<P>(c: Cache<P>, path: Path, file: File, ttl: int, maxEntries: int, now: int,
                                           parse: string -> Option<P>, paths: set<Path>, k: Path)
    requires Distinct(c) && (forall j :: Find(c, j).Some? ==> j in paths) && path in paths && |paths| <= TrimLimit(maxEntries)
    ensures var (after, payload) := AfterRead(c, path, file, ttl, maxEntries, now, parse);
      && Distinct(after)
      && (k != path ==> Find(after, k) == Find(c, k))
      && (payload.Some? ==>
            Find(after, path) == Some(Parsed(payload.value, file.mtime, file.size, now + NonNegative(ttl))))
      && (payload.None? ==> after == c)
  {
    hide Put, Remove, Find, Trimmed;
    var cached := Find(c, path);
    var expiresAt := now + NonNegative(ttl);
    if Trusted(cached, file, now) {
      var entry := cached.value.(expiresAt := expiresAt);
      RemoveFacts(c, path);
      PutFacts(Remove(c, path), path, entry);
      FindPut(Remove(c, path), path, entry, k);
      FindPut(Remove(c, path), path, entry, path);
      FindRemove(c, path, k);
    } else if parse(file.text).Some? {
      var entry := Parsed(parse(file.text).value, file.mtime, file.size, expiresAt);
      WriteTrimsNothing(c, path, entry, maxEntries, paths);
      PutFacts(c, path, entry);
      FindPut(c, path, entry, k);
      FindPut(c, path, entry, path);
    }
  }

  lemma {:induction false} StepWithRoom<P(!new)>(w: World<P>, e: Event, maxEntries: int, parse: string -> Option<P>,
                                                 paths: set<Path>)
    requires CachedOnly(w, paths) && |paths| <= TrimLimit(maxEntries) && (e.Read? ==> e.path in paths)
    ensures CachedOnly(Step(w, e, maxEntries, parse), paths)
    ensures forall k :: !e.Clear? && (e.Read? ==> e.path != k) ==>
      Find(Step(w, e, maxEntries, parse).cache, k) == Find(w.cache, k)
  {
    hide Find, AfterRead, Put, Remove;
    if e.Read? && Find(w.files, e.path).Some? {
      var file := Find(w.files, e.path).value;
      var after := AfterRead(w.cache, e.path, file, e.ttl, maxEntries, w.now, parse).0;
      forall k ensures Distinct(after) && (k != e.path ==> Find(after, k) == Find(w.cache, k)) {
        ReadWithRoom(w.cache, e.path, file, e.ttl, maxEntries, w.now, parse, paths, k);
      }
      ReadWithRoom(w.cache, e.path, file, e.ttl, maxEntries, w.now, parse, paths, e.path);
    } else if e.Clear? {
      var none: Cache<P> := [];
      forall k { FindNone(none, k); }
    }
  }

  lemma {:induction false} RunWithRoom<P(!new)>(start: int, events: seq<Event>, maxEntries: int,
                                                parse: string -> Option<P>, paths: set<Path>)
    requires ReadsOf(events, paths) && |paths| <= TrimLimit(maxEntries)
    ensures CachedOnly(Exec(start, events, maxEntries, parse), paths)
  {
    if events != [] {
      hide Find, Step;
      RunWithRoom(start, events[..|events| - 1], maxEntries, parse, paths);
      StepWithRoom(Exec(start, events[..|events| - 1], maxEntries, parse), events[|events| - 1], maxEntries, parse, paths);
    }
  }

  /** Events that leave the entry of a path alone: no read of it, and no clearing. */
  predicate Apart(events: seq<Event>, path: Path) {
    forall i :: 0 <= i < |events| ==> !events[i].Clear? && (events[i].Read? ==> events[i].path != path)
  }

  lemma {:induction false} EntryStays<P(!new)>(start: int, front: seq<Event>, later: seq<Event>, path: Path, maxEntries: int,
                                               parse: string -> Option<P>, paths: set<Path>)
    requires ReadsOf(front + later, paths) && Apart(later, path) && |paths| <= TrimLimit(maxEntries)
    ensures Find(Exec(start, front + later, maxEntries, parse).cache, path)
            == Find(Exec(start, front, maxEntries, parse).cache, path)
  {
    hide Find, Step;
    if later == [] {
      assert front + later == front;
    } else {
      var n := |later| - 1;
      var all := front + later;
      assert all[..|all| - 1] == front + later[..n] && all[|all| - 1] == later[n];
      EntryStays(start, front, later[..n], path, maxEntries, parse, paths);
      RunWithRoom(start, front + later[..n], maxEntries, parse, paths);
      StepWithRoom(Exec(start, front + later[..n], maxEntries, parse), later[n], maxEntries, parse, paths);
    }
  }

  /** With room for every path that is read, a read after a successful one answers just this: what
      that one answered, while the file has the time and size it had and the time to live of that
      read is not over; and otherwise what reading and parsing the file gives. */
  lemma {:induction false} ReadAnswersExactly<P(!new)>(start: int, front: seq<Event>, path: Path, ttl: int,
      later: seq<Event>, ttl2: int, maxEntries: int, parse: string -> Option<P>, paths: set<Path>)
    requires ReadsOf(front + [Read(path, ttl)] + later, paths) && Apart(later, path) && |paths| <= Max(1, maxEntries)
    requires ReadReply(Exec(start, front, maxEntries, parse), path, ttl, maxEntries, parse).Some?
    ensures var first := Exec(start, front, maxEntries, parse);
      var last := Exec(start, front + [Read(path, ttl)] + later, maxEntries, parse);
      var before, after := Find(first.files, path), Find(last.files, path);
      && before.Some?
      && ReadReply(last, path, ttl2, maxEntries, parse) ==
         if after.None? then None
         else if SameStamp(before.value, after.value) && last.now < first.now + NonNegative(ttl)
         then ReadReply(first, path, ttl, maxEntries, parse)
         else parse(after.value.text)
  {
    hide Find, Put, Remove, Trimmed, Exec;
    var read := front + [Read(path, ttl)];
    assert (read + later)[|front|] == Read(path, ttl) && (read + later)[..|front|] == front;
    assert ReadsOf(front, paths) by {
      assert forall i :: 0 <= i < |front| ==> (read + later)[i] == front[i];
    }
    var w := Exec(start, front, maxEntries, parse);
    RunWithRoom(start, front, maxEntries, parse, paths);
    ReadWithRoom(w.cache, path, Find(w.files, path).value, ttl, maxEntries, w.now, parse, paths, path);
    OneMoreRead(start, front, path, ttl, maxEntries, parse);
    EntryStays(start, read, later, path, maxEntries, parse, paths);
  }

  lemma OneMoreRead<P>(start: int, front: seq<Event>, path: Path, ttl: int, maxEntries: int, parse: string -> Option<P>)
    ensures Exec(start, front + [Read(path, ttl)], maxEntries, parse)
            == Step(Exec(start, front, maxEntries, parse), Read(path, ttl), maxEntries, parse)
  {
    assert (front + [Read(path, ttl)])[..|front|] == front;
  }

  /** The cache never outgrows its limit, and the path just read and parsed is in it. */
  lemma {:induction false} CacheIsBounded<P(!new)>(start: int, events: seq<Event>, maxEntries: int, parse: string -> Option<P>)
    ensures var w := Exec(start, events, maxEntries, parse);
      |w.cache| <= Max(1, maxEntries) && Distinct(w.cache)
    ensures events != [] && events[|events| - 1].Read? ==>
      var before := Exec(start, events[..|events| - 1], maxEntries, parse);
      var e := events[|events| - 1];
      ReadReply(before, e.path, e.ttl, maxEntries, parse).Some? ==>
        Find(Exec(start, events, maxEntries, parse).cache, e.path).Some?
  {
    if events != [] {
      hide Put, Remove, Find, Trimmed;
      var front, e := events[..|events| - 1], events[|events| - 1];
      CacheIsBounded(start, front, maxEntries, parse);
      var w := Exec(start, front, maxEntries, parse);
      if e.Read? && Find(w.files, e.path).Some? {
        ReadIsBounded(w.cache, e.path, Find(w.files, e.path).value, e.ttl, maxEntries, w.now, parse);
      }
    }
  }

  lemma {:induction false} ReadIsBounded<P>(c: Cache<P>, path: Path, file: File, ttl: int, maxEntries: int, now: int,
                                            parse: string -> Option<P>)
    requires Distinct(c) && |c| <= TrimLimit(maxEntries)
    ensures var (after, payload) := AfterRead(c, path, file, ttl, maxEntries, now, parse);
      && Distinct(after) && |after| <= TrimLimit(maxEntries)
      && (payload.Some? ==> Find(after, path).Some?)
  {
    hide Put, Remove, Find, Trimmed;
    var cached := Find(c, path);
    var expiresAt := now + NonNegative(ttl);
    if Trusted(cached, file, now) {
      var entry := cached.value.(expiresAt := expiresAt);
      RemoveFacts(c, path);
      FindRemove(c, path, path);
      PutFacts(Remove(c, path), path, entry);
      FindPut(Remove(c, path), path, entry, path);
    } else if parse(file.text).Some? {
      var entry := Parsed(parse(file.text).value, file.mtime, file.size, expiresAt);
      PutThenTrim(c, path, entry, maxEntries);
      PutFacts(c, path, entry);
      FindTrimmed(Put(c, path, entry), maxEntries, path);
    }
  }
}
