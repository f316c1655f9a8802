/** The GitHub client behind a Redis cache: whatever expires, is evicted or
    fails, an answer is one the upstream gave not long ago. How long exactly
    depends on the TTL and on how late a caller may store what it was told. */
module CachedClients {
  import opened Model
  import opened Identifiers

  const CACHED_TRUE: string := "true"
  const CACHED_FALSE: string := "false"

  datatype Query = ExistsQuery(spec: RepoSpec) | ReleaseQuery(spec: RepoSpec)

  datatype Answer = Exists(found: bool) | Tag(tag: string)

  /** `askedAt` is history: when the upstream gave the stored answer. */
  datatype Entry = Entry(value: string, storedAt: nat, askedAt: nat)

  /** The upstream's answer at every instant; None is an error. */
  type Upstream = (nat, Query) -> Option<Answer>

  // ---------------------------------------------------------------- operations

  function CacheKey(q: Query): string {
    match q
    case ExistsQuery(s) => ExistsKey(s.owner, s.name)
    case ReleaseQuery(s) => ReleaseKey(s.owner, s.name)
  }

  function Encode(a: Answer): string {
    match a
    case Exists(found) => if found then CACHED_TRUE else CACHED_FALSE
    case Tag(tag) => tag
  }

  /** What a cached value says, if it is a hit at all. */
  function Decode(q: Query, value: string): Option<Answer> {
    match q
    case ExistsQuery(_) =>
      if value == CACHED_TRUE then Some(Exists(true))
      else if value == CACHED_FALSE then Some(Exists(false))
      else None
    case ReleaseQuery(_) => if value != "" then Some(Tag(value)) else None
  }

  /** Redis never returns an expired key; a missing key and a failed read both
      leave the empty string. */
  function Lookup(entries: map<string, Entry>, ttl: nat, now: nat, key: string, readOk: bool): string {
    if readOk && key in entries && now < entries[key].storedAt + ttl then entries[key].value else ""
  }

  /** A stored value is returned until its TTL is over, and exactly until then;
      other keys are not affected. */
  lemma StoredUntilExpiry(entries: map<string, Entry>, ttl: nat, key: string, value: string, at: nat, asked: nat,
                          now: nat, other: string)
    requires at <= now && value != ""
    ensures var after := entries[key := Entry(value, at, asked)];
            && (Lookup(after, ttl, now, key, true) == value <==> now < at + ttl)
            && (other != key ==> Lookup(after, ttl, now, other, true) == Lookup(entries, ttl, now, other, true))
  {}

  predicate Stored(a: Answer) { Encode(a) != "" }

  predicate Answers(q: Query, a: Answer) { q.ExistsQuery? <==> a.Exists? }

  // ------------------------------------------------------------------ the code

  class Cache {
    const ttl: nat
    var now: nat
    var entries: map<string, Entry>

    constructor (ttl: nat)
      ensures this.ttl == ttl && now == 0 && entries == map[]
    { this.ttl, now, entries := ttl, 0, map[]; }

    method Get(key: string, readOk: bool) returns (value: string)
      ensures value == Lookup(entries, ttl, now, key, readOk)
    {
      value := "";
      if readOk && key in entries && now < entries[key].storedAt + ttl { value := entries[key].value; }
    }

    method Set(key: string, value: string, writeOk: bool)
      modifies this`entries
      ensures entries == if writeOk then old(entries)[key := Entry(value, now, now)] else old(entries)
    {
      if writeOk { entries := entries[key := Entry(value, now, now)]; }
    }
  }

  /** One call made in one instant: the answer, and the cache it leaves. */
  function Serve(entries: map<string, Entry>, ttl: nat, now: nat, q: Query,
                 readOk: bool, reply: Option<Answer>, writeOk: bool): (map<string, Entry>, Option<Answer>) {
    var hit := Decode(q, Lookup(entries, ttl, now, CacheKey(q), readOk));
    if hit.Some? then (entries, hit)
    else if reply.None? then (entries, None)
    else if Stored(reply.value) && writeOk then
      (entries[CacheKey(q) := Entry(Encode(reply.value), now, now)], reply)
    else (entries, reply)
  }

  class CachedClient {
    const cache: Cache

    constructor (cache: Cache)
      ensures this.cache == cache
    { this.cache := cache; }

    /** `reply` is what the upstream would answer now. */
    method CheckRepoExists(owner: string, repo: string, readOk: bool, reply: Option<bool>, writeOk: bool)
      returns (found: bool, ok: bool)
      modifies cache`entries
      ensures (cache.entries, if ok then Some(Exists(found)) else None) ==
              Serve(old(cache.entries), cache.ttl, cache.now, ExistsQuery(RepoSpec(owner, repo)), readOk,
                    if reply.Some? then Some(Exists(reply.value)) else None, writeOk)
    {
      var key := ExistsKey(owner, repo);
      var value := cache.Get(key, readOk);
      if value == CACHED_TRUE { return true, true; }
      if value == CACHED_FALSE { return false, true; }
      if reply.None? { return false, false; }
      var cacheValue := CACHED_FALSE;
      if reply.value { cacheValue := CACHED_TRUE; }
      cache.Set(key, cacheValue, writeOk);
      return reply.value, true;
    }

    method GetLatestRelease(owner: string, repo: string, readOk: bool, reply: Option<string>, writeOk: bool)
      returns (tag: string, ok: bool)
      modifies cache`entries
      ensures (cache.entries, if ok then Some(Tag(tag)) else None) ==
              Serve(old(cache.entries), cache.ttl, cache.now, ReleaseQuery(RepoSpec(owner, repo)), readOk,
                    if reply.Some? then Some(Tag(reply.value)) else None, writeOk)
    {
      var key := ReleaseKey(owner, repo);
      var value := cache.Get(key, readOk);
      if value != "" { return value, true; }
      if reply.None? { return "", false; }
      if reply.value != "" { cache.Set(key, reply.value, writeOk); }
      return reply.value, true;
    }
  }

  // ------------------------------------------------------ what a call does, exactly

  /** A working read finds a live entry that is an answer to the query. */
  predicate Hit(entries: map<string, Entry>, ttl: nat, now: nat, q: Query, readOk: bool) {
    var key := (if q.ExistsQuery? then "repo_exists:" else "latest_release:") + q.spec.owner + "/" + q.spec.name;
    && readOk && key in entries && now < entries[key].storedAt + ttl
    && (if q.ExistsQuery? then entries[key].value in {"true", "false"} else entries[key].value != "")
  }

  /** Existence: a live "true" or "false" is the answer, whatever the upstream would
      say, and stays; otherwise the upstream answers, and its answer is stored as one
      of the two if the write works. */
  lemma ExistsExactly(entries: map<string, Entry>, ttl: nat, now: nat, s: RepoSpec, readOk: bool, reply: Option<bool>, writeOk: bool)
    ensures var asked := if reply.Some? then Some(Exists(reply.value)) else None;
            var (after, answer) := Serve(entries, ttl, now, ExistsQuery(s), readOk, asked, writeOk);
            var key := "repo_exists:" + s.owner + "/" + s.name;
            if Hit(entries, ttl, now, ExistsQuery(s), readOk) then
              after == entries && answer == Some(Exists(entries[key].value == "true"))
            else
              && answer == asked
              && after == (if reply.Some? && writeOk then entries[key := Entry(if reply.value then "true" else "false", now, now)] else entries)
  {}

  /** Releases: a live entry that is not empty is the answer; an empty tag is never
      stored. */
  lemma ReleaseExactly(entries: map<string, Entry>, ttl: nat, now: nat, s: RepoSpec, readOk: bool, reply: Option<string>, writeOk: bool)
    ensures var asked := if reply.Some? then Some(Tag(reply.value)) else None;
            var (after, answer) := Serve(entries, ttl, now, ReleaseQuery(s), readOk, asked, writeOk);
            var key := "latest_release:" + s.owner + "/" + s.name;
            if Hit(entries, ttl, now, ReleaseQuery(s), readOk) then
              after == entries && answer == Some(Tag(entries[key].value))
            else
              && answer == asked
              && after == (if reply.Some? && reply.value != "" && writeOk then entries[key := Entry(reply.value, now, now)] else entries)
  {}

  /** A miss whose write works is served from the cache until its TTL is over, and
      exactly until then: a second call of the same query with a working read
      answers the same and leaves the cache alone, whatever the upstream says by
      then, an error included; one tick later it is the upstream that answers. */
  lemma StoredAnswerIsServed(entries: map<string, Entry>, ttl: nat, q: Query, at: nat, readOk: bool, answer: Answer,
                             later: nat, reply: Option<Answer>, writeOk: bool)
    requires !Hit(entries, ttl, at, q, readOk) && Answers(q, answer) && answer != Tag("") && at <= later
    ensures var (after, first) := Serve(entries, ttl, at, q, readOk, Some(answer), true);
            var (end, second) := Serve(after, ttl, later, q, true, reply, writeOk);
            && first == Some(answer)
            && (if later < at + ttl then second == Some(answer) && end == after else second == reply)
  {}

  // -------------------------------------------------- any number of callers at once

  /** A call in flight. */
  datatype Call = Reading(q: Query) | Asking(q: Query) | Storing(q: Query, answer: Answer, askedAt: nat)

  datatype Result = Result(q: Query, answer: Option<Answer>, at: nat)

  datatype State = State(entries: map<string, Entry>, now: nat, calls: map<nat, Call>, results: seq<Result>)

  datatype Step =
    | Begin(id: nat, q: Query)
    | Read(id: nat, ok: bool)
    | Ask(id: nat)
    | Write(id: nat, ok: bool)
    | Abandon(id: nat)
    | Evict(key: string)
    | Advance

  function Idle(): State { State(map[], 0, map[], []) }

  /** Owner and name as ParseRepoSpec hands them out. */
  predicate Proper(q: Query) { ParseRepoSpec(Text(q.spec)) == Some(q.spec) }

  /** A write to the cache comes at most `lag` after the answer it stores. */
  predicate CanStep(s: State, lag: nat, a: Step) {
    match a
    case Begin(id, q) => id !in s.calls && Proper(q)
    case Read(id, _) => id in s.calls && s.calls[id].Reading?
    case Ask(id) => id in s.calls && s.calls[id].Asking?
    case Write(id, _) => id in s.calls && s.calls[id].Storing? && s.now <= s.calls[id].askedAt + lag
    case _ => true
  }

  function Finish(s: State, id: nat, q: Query, answer: Option<Answer>): State {
    s.(calls := s.calls - {id}, results := s.results + [Result(q, answer, s.now)])
  }

  function Take(s: State, up: Upstream, ttl: nat, lag: nat, a: Step): State
    requires CanStep(s, lag, a)
  {
    match a
    case Begin(id, q) => s.(calls := s.calls[id := Reading(q)])
    case Read(id, ok) =>
      var q := s.calls[id].q;
      var hit := Decode(q, Lookup(s.entries, ttl, s.now, CacheKey(q), ok));
      if hit.Some? then Finish(s, id, q, hit) else s.(calls := s.calls[id := Asking(q)])
    case Ask(id) =>
      var q := s.calls[id].q;
      var reply := up(s.now, q);
      if reply.Some? && Stored(reply.value) then s.(calls := s.calls[id := Storing(q, reply.value, s.now)])
      else Finish(s, id, q, reply)
    case Write(id, ok) =>
      var c := s.calls[id];
      Finish(s, id, c.q, Some(c.answer))
        .(entries := if ok then s.entries[CacheKey(c.q) := Entry(Encode(c.answer), s.now, c.askedAt)] else s.entries)
    case Abandon(id) => s.(calls := s.calls - {id})
    case Evict(key) => s.(entries := s.entries - {key})
    case Advance => s.(now := s.now + 1)
  }

  ghost predicate Steps(s: State, up: Upstream, ttl: nat, lag: nat, steps: seq<Step>, end: State)
    decreases |steps|
  {
    if steps == [] then s == end
    else CanStep(s, lag, steps[0]) && Steps(Take(s, up, ttl, lag, steps[0]), up, ttl, lag, steps[1..], end)
  }

  // ----------------------------------------------------------------- the invariant

  ghost predicate Typed(up: Upstream) {
    forall t: nat, q: Query :: up(t, q).Some? ==> Answers(q, up(t, q).value)
  }

  /** The entry holds an answer the upstream gave to the one query of its key. */
  ghost predicate Sound(up: Upstream, lag: nat, now: nat, key: string, e: Entry) {
    && e.value != "" && e.askedAt <= e.storedAt <= now && e.storedAt <= e.askedAt + lag
    && exists q :: SoundFor(up, key, e, q)
  }

  ghost predicate SoundFor(up: Upstream, key: string, e: Entry, q: Query) {
    Proper(q) && CacheKey(q) == key && up(e.askedAt, q).Some? && Encode(up(e.askedAt, q).value) == e.value
  }

  ghost predicate SoundCall(up: Upstream, now: nat, c: Call) {
    Proper(c.q) && (c.Storing? ==> c.askedAt <= now && up(c.askedAt, c.q) == Some(c.answer) && Stored(c.answer))
  }

  /** Errors are the upstream's own; anything else was answered at most `age` ago. */
  ghost predicate Recent(up: Upstream, age: nat, r: Result) {
    if r.answer.None? then up(r.at, r.q).None?
    else exists t: nat :: t <= r.at <= t + age && up(t, r.q) == r.answer
  }

  /** Old enough for a store `lag` late and for the last tick of a TTL after it. */
  predicate Enough(ttl: nat, lag: nat, age: nat) { lag <= age && (ttl >= 1 ==> ttl + lag - 1 <= age) }

  ghost predicate Inv(s: State, up: Upstream, lag: nat, age: nat) {
    && (forall k | k in s.entries :: Sound(up, lag, s.now, k, s.entries[k]))
    && (forall id | id in s.calls :: SoundCall(up, s.now, s.calls[id]))
    && (forall i | 0 <= i < |s.results| :: Recent(up, age, s.results[i]))
  }

  lemma KeyDeterminesQuery(a: Query, b: Query)
    requires Proper(a) && Proper(b) && CacheKey(a) == CacheKey(b)
    ensures a == b
  {
    CacheKeysSound(Text(a.spec), Text(b.spec));
    CacheKeysSound(Text(b.spec), Text(a.spec));
  }

  lemma DecodeUndoesEncode(q: Query, a: Answer)
    requires Answers(q, a) && Stored(a)
    ensures Decode(q, Encode(a)) == Some(a)
  {
  }

  /** A hit is an answer the upstream gave to this very query. */
  lemma HitIsRecent(s: State, up: Upstream, ttl: nat, lag: nat, age: nat, q: Query, ok: bool)
    requires Typed(up) && Enough(ttl, lag, age) && Inv(s, up, lag, age) && Proper(q)
    requires Decode(q, Lookup(s.entries, ttl, s.now, CacheKey(q), ok)).Some?
    ensures Recent(up, age, Result(q, Decode(q, Lookup(s.entries, ttl, s.now, CacheKey(q), ok)), s.now))
  {
    var e := s.entries[CacheKey(q)];
    assert Sound(up, lag, s.now, CacheKey(q), e);
    var asked :| SoundFor(up, CacheKey(q), e, asked);
    KeyDeterminesQuery(asked, q);
    DecodeUndoesEncode(q, up(e.askedAt, q).value);
    assert e.askedAt <= s.now <= e.askedAt + age;
  }

  lemma FinishKeeps(s: State, up: Upstream, lag: nat, age: nat, id: nat, q: Query, answer: Option<Answer>)
    requires Inv(s, up, lag, age) && Recent(up, age, Result(q, answer, s.now))
    ensures Inv(Finish(s, id, q, answer), up, lag, age)
  {
  }

  lemma StepKeeps(s: State, up: Upstream, ttl: nat, lag: nat, age: nat, a: Step)
    requires Typed(up) && Enough(ttl, lag, age) && Inv(s, up, lag, age) && CanStep(s, lag, a)
    ensures Inv(Take(s, up, ttl, lag, a), up, lag, age)
  {
    match a
    case Read(id, ok) => ReadKeeps(s, up, ttl, lag, age, id, ok);
    case Ask(id) => AskKeeps(s, up, ttl, lag, age, id);
    case Write(id, ok) => WriteKeeps(s, up, ttl, lag, age, id, ok);
    case _ => QuietKeeps(s, up, ttl, lag, age, a);
  }

  lemma QuietKeeps(s: State, up: Upstream, ttl: nat, lag: nat, age: nat, a: Step)
    requires Inv(s, up, lag, age) && CanStep(s, lag, a) && (a.Begin? || a.Abandon? || a.Evict? || a.Advance?)
    ensures Inv(Take(s, up, ttl, lag, a), up, lag, age)
  {}

  lemma ReadKeeps(s: State, up: Upstream, ttl: nat, lag: nat, age: nat, id: nat, ok: bool)
    requires Typed(up) && Enough(ttl, lag, age) && Inv(s, up, lag, age) && CanStep(s, lag, Read(id, ok))
    ensures Inv(Take(s, up, ttl, lag, Read(id, ok)), up, lag, age)
  {
    var q := s.calls[id].q;
    var hit := Decode(q, Lookup(s.entries, ttl, s.now, CacheKey(q), ok));
    if hit.Some? {
      HitIsRecent(s, up, ttl, lag, age, q, ok);
      FinishKeeps(s, up, lag, age, id, q, hit);
    }
  }

  lemma AskKeeps(s: State, up: Upstream, ttl: nat, lag: nat, age: nat, id: nat)
    requires Inv(s, up, lag, age) && CanStep(s, lag, Ask(id))
    ensures Inv(Take(s, up, ttl, lag, Ask(id)), up, lag, age)
  {
    var q := s.calls[id].q;
    var reply := up(s.now, q);
    if reply.None? || !Stored(reply.value) { FinishKeeps(s, up, lag, age, id, q, reply); }
  }

  lemma WriteKeeps(s: State, up: Upstream, ttl: nat, lag: nat, age: nat, id: nat, ok: bool)
    requires lag <= age && Inv(s, up, lag, age) && CanStep(s, lag, Write(id, ok))
    ensures Inv(Take(s, up, ttl, lag, Write(id, ok)), up, lag, age)
  {
    var c := s.calls[id];
    assert c.askedAt <= s.now <= c.askedAt + age;
    FinishKeeps(s, up, lag, age, id, c.q, Some(c.answer));
    var e := Entry(Encode(c.answer), s.now, c.askedAt);
    assert SoundFor(up, CacheKey(c.q), e, c.q);
  }

  lemma {:induction false} StepsKeep(s: State, up: Upstream, ttl: nat, lag: nat, age: nat, steps: seq<Step>, end: State)
    requires Typed(up) && Enough(ttl, lag, age) && Inv(s, up, lag, age) && Steps(s, up, ttl, lag, steps, end)
    ensures Inv(end, up, lag, age)
    decreases |steps|
  {
    if steps == [] {
    } else {
      StepKeeps(s, up, ttl, lag, age, steps[0]);
      StepsKeep(Take(s, up, ttl, lag, steps[0]), up, ttl, lag, age, steps[1..], end);
    }
  }

  // ------------------------------------------------------------------- theorems

  /** Over every interleaving of any number of calls with evictions, failed reads
      and failed writes: an answer is one the upstream gave at most `age` ago, as
      soon as `age` covers a late store and the last tick of a TTL after it, and a
      call fails only in an instant in which the upstream fails. */
  lemma AnswersAreRecent(up: Upstream, ttl: nat, lag: nat, age: nat, steps: seq<Step>, end: State)
    requires Typed(up) && Enough(ttl, lag, age) && Steps(Idle(), up, ttl, lag, steps, end)
    ensures forall i | 0 <= i < |end.results| :: Recent(up, age, end.results[i])
  {
    StepsKeep(Idle(), up, ttl, lag, age, steps, end);
  }

  /** No error and no empty tag is ever stored. */
  lemma OnlyAnswersAreStored(up: Upstream, ttl: nat, lag: nat, steps: seq<Step>, end: State, q: Query)
    requires Typed(up) && Steps(Idle(), up, ttl, lag, steps, end)
    requires Proper(q) && CacheKey(q) in end.entries
    ensures var e := end.entries[CacheKey(q)];
            && e.value != "" && up(e.askedAt, q).Some? && Decode(q, e.value) == up(e.askedAt, q)
  {
    StepsKeep(Idle(), up, ttl, lag, ttl + lag, steps, end);
    var e := end.entries[CacheKey(q)];
    assert Sound(up, lag, end.now, CacheKey(q), e);
    var asked :| SoundFor(up, CacheKey(q), e, asked);
    KeyDeterminesQuery(asked, q);
    DecodeUndoesEncode(q, up(e.askedAt, q).value);
  }

  ghost predicate Leads(s: State, up: Upstream, ttl: nat, lag: nat, end: State) {
    exists steps :: Steps(s, up, ttl, lag, steps, end)
  }

  lemma Arrived(s: State, up: Upstream, ttl: nat, lag: nat)
    ensures Leads(s, up, ttl, lag, s)
  {
    assert Steps(s, up, ttl, lag, [], s);
  }

  lemma First(s: State, up: Upstream, ttl: nat, lag: nat, a: Step, m: State, end: State)
    requires CanStep(s, lag, a) && m == Take(s, up, ttl, lag, a) && Leads(m, up, ttl, lag, end)
    ensures Leads(s, up, ttl, lag, end)
  {
    var rest :| Steps(m, up, ttl, lag, rest, end);
    assert ([a] + rest)[1..] == rest;
    assert Steps(s, up, ttl, lag, [a] + rest, end);
  }

  // ------------------------------------------------------- how old an answer can be

  /** An upstream that tags a release "v1" at first and "v2" ever after. */
  function Renamed(t: nat, q: Query): Option<Answer> {
    match q
    case ExistsQuery(_) => Some(Exists(true))
    case ReleaseQuery(_) => Some(Tag(if t == 0 then "v1" else "v2"))
  }

  lemma {:induction false} Waiting(s: State, up: Upstream, ttl: nat, lag: nat, ticks: nat, end: State)
    requires Leads(s.(now := s.now + ticks), up, ttl, lag, end)
    ensures Leads(s, up, ttl, lag, end)
    decreases ticks
  {
    if ticks == 0 {
      assert s.(now := s.now) == s;
    } else {
      Waiting(s.(now := s.now + 1), up, ttl, lag, ticks - 1, end);
      First(s, up, ttl, lag, Advance, s.(now := s.now + 1), end);
    }
  }

  /** "v1" was read at 0 and is about to be stored as late as possible. */
  function Late(q: Query, lag: nat): State { State(map[], lag, map[0 := Storing(q, Tag("v1"), 0)], []) }

  /** ... and is stored. */
  function AfterStore(q: Query, lag: nat): State {
    State(map[CacheKey(q) := Entry("v1", lag, 0)], lag, map[], [Result(q, Some(Tag("v1")), lag)])
  }

  lemma StoredLate(q: Query, ttl: nat, lag: nat, end: State)
    requires q.ReleaseQuery? && Proper(q) && Leads(Late(q, lag), Renamed, ttl, lag, end)
    ensures Leads(Idle(), Renamed, ttl, lag, end)
  {
    var reading: map<nat, Call> := map[0 := Reading(q)];
    var asking: map<nat, Call> := map[0 := Asking(q)];
    assert reading[0 := Asking(q)] == asking && asking[0 := Storing(q, Tag("v1"), 0)] == Late(q, lag).calls;
    Waiting(Late(q, lag).(now := 0), Renamed, ttl, lag, lag, end);
    First(State(map[], 0, asking, []), Renamed, ttl, lag, Ask(0), Late(q, lag).(now := 0), end);
    First(State(map[], 0, reading, []), Renamed, ttl, lag, Read(0, true), State(map[], 0, asking, []), end);
    First(Idle(), Renamed, ttl, lag, Begin(0, q), State(map[], 0, reading, []), end);
  }

  /** The caller that stores late answers late. */
  lemma LateAnswer(q: Query, ttl: nat, lag: nat)
    requires q.ReleaseQuery? && Proper(q)
    ensures Leads(Idle(), Renamed, ttl, lag, AfterStore(q, lag))
  {
    var end := AfterStore(q, lag);
    assert Late(q, lag).calls - {0} == map[];
    Arrived(end, Renamed, ttl, lag);
    First(Late(q, lag), Renamed, ttl, lag, Write(0, true), end, end);
    StoredLate(q, ttl, lag, end);
  }

  /** Another caller is served in the last tick of the TTL. */
  lemma LastTick(q: Query, ttl: nat, lag: nat) returns (end: State)
    requires q.ReleaseQuery? && Proper(q) && ttl >= 1
    ensures Leads(Idle(), Renamed, ttl, lag, end)
    ensures |end.results| == 2 && end.results[1] == Result(q, Some(Tag("v1")), lag + ttl - 1)
  {
    var m := AfterStore(q, lag);
    var later := m.(now := lag + ttl - 1);
    var reading := later.(calls := map[1 := Reading(q)]);
    end := later.(results := m.results + [Result(q, Some(Tag("v1")), later.now)]);
    StoredUntilExpiry(map[], ttl, CacheKey(q), "v1", lag, 0, later.now, "");
    assert reading.calls - {1} == map[];
    Arrived(end, Renamed, ttl, lag);
    First(reading, Renamed, ttl, lag, Read(1, true), end, end);
    First(later, Renamed, ttl, lag, Begin(1, q), reading, end);
    Waiting(m, Renamed, ttl, lag, ttl - 1, end);
    assert Late(q, lag).calls - {0} == map[];
    First(Late(q, lag), Renamed, ttl, lag, Write(0, true), m, end);
    StoredLate(q, ttl, lag, end);
  }

  /** Whatever the upstream says and in every run, no answer is older than `age`. */
  ghost predicate AllWithin(ttl: nat, lag: nat, age: nat) {
    forall up: Upstream, steps: seq<Step>, end: State | Typed(up) && Steps(Idle(), up, ttl, lag, steps, end) ::
      forall i | 0 <= i < |end.results| :: Recent(up, age, end.results[i])
  }

  lemma OldAnswerBreaks(ttl: nat, lag: nat, age: nat, end: State, i: nat, q: Query)
    requires q.ReleaseQuery? && Leads(Idle(), Renamed, ttl, lag, end) && i < |end.results|
    requires end.results[i].q == q && end.results[i].answer == Some(Tag("v1")) && end.results[i].at > age
    ensures !AllWithin(ttl, lag, age)
  {
    var steps :| Steps(Idle(), Renamed, ttl, lag, steps, end);
    assert Typed(Renamed) && !Recent(Renamed, age, end.results[i]);
  }

  /** The exact age of answers: `age` bounds it, for every upstream, interleaving,
      eviction and failure, if and only if it covers the latest store and, when
      there is a TTL at all, its last tick after that. */
  lemma AgeExactly(ttl: nat, lag: nat, age: nat)
    ensures AllWithin(ttl, lag, age) <==> lag <= age && (ttl >= 1 ==> ttl + lag - 1 <= age)
  {
    if Enough(ttl, lag, age) {
      forall up: Upstream, steps: seq<Step>, end: State | Typed(up) && Steps(Idle(), up, ttl, lag, steps, end)
        ensures forall i | 0 <= i < |end.results| :: Recent(up, age, end.results[i])
      {
        AnswersAreRecent(up, ttl, lag, age, steps, end);
      }
    } else {
      var q := ReleaseQuery(RepoSpec("o", "r"));
      ParseUndoesText(q.spec);
      if lag > age {
        LateAnswer(q, ttl, lag);
        OldAnswerBreaks(ttl, lag, age, AfterStore(q, lag), 0, q);
      } else {
        var end := LastTick(q, ttl, lag);
        OldAnswerBreaks(ttl, lag, age, end, 1, q);
      }
    }
  }

  /** "Within the last TTL" holds exactly when callers store at most one tick
      late, and not later than the TTL. */
  lemma TtlSufficesExactly(ttl: nat, lag: nat)
    ensures AllWithin(ttl, lag, ttl) <==> lag <= 1 && lag <= ttl
  {
    AgeExactly(ttl, lag, ttl);
  }

  /** In particular a TTL of two ticks and a store two ticks late break it. */
  lemma LateStoreOutlivesTtl()
    ensures !AllWithin(2, 2, 2) && AllWithin(2, 1, 2)
  {
    TtlSufficesExactly(2, 2);
    TtlSufficesExactly(2, 1);
  }

  /** A miss, from the upstream's answer on. */
  lemma MissIsSteps(s: State, up: Upstream, ttl: nat, lag: nat, id: nat, q: Query, writeOk: bool, end: State)
    requires id !in s.calls
    requires var reply := up(s.now, q);
             var stored := reply.Some? && Stored(reply.value) && writeOk;
             end == s.(entries := if stored then s.entries[CacheKey(q) := Entry(Encode(reply.value), s.now, s.now)] else s.entries,
                       results := s.results + [Result(q, reply, s.now)])
    ensures Leads(s.(calls := s.calls[id := Asking(q)]), up, ttl, lag, end)
  {
    var reply := up(s.now, q);
    var asking := s.(calls := s.calls[id := Asking(q)]);
    assert asking.calls - {id} == s.calls;
    Arrived(end, up, ttl, lag);
    if reply.Some? && Stored(reply.value) {
      var storing := s.(calls := s.calls[id := Storing(q, reply.value, s.now)]);
      assert storing.calls - {id} == s.calls && asking.calls[id := Storing(q, reply.value, s.now)] == storing.calls;
      First(storing, up, ttl, lag, Write(id, writeOk), end, end);
      First(asking, up, ttl, lag, Ask(id), storing, end);
    } else {
      First(asking, up, ttl, lag, Ask(id), end, end);
    }
  }

  /** A call of the methods above, made without interruption, is such a run. */
  lemma ServeIsSteps(s: State, up: Upstream, ttl: nat, lag: nat, id: nat, q: Query, readOk: bool, writeOk: bool)
    requires id !in s.calls && Proper(q)
    ensures var (entries, answer) := Serve(s.entries, ttl, s.now, q, readOk, up(s.now, q), writeOk);
            Leads(s, up, ttl, lag, s.(entries := entries, results := s.results + [Result(q, answer, s.now)]))
  {
    var (entries, answer) := Serve(s.entries, ttl, s.now, q, readOk, up(s.now, q), writeOk);
    var end := s.(entries := entries, results := s.results + [Result(q, answer, s.now)]);
    var hit := Decode(q, Lookup(s.entries, ttl, s.now, CacheKey(q), readOk));
    var reading := s.(calls := s.calls[id := Reading(q)]);
    var asking := s.(calls := s.calls[id := Asking(q)]);
    assert reading.calls - {id} == s.calls && reading.calls[id := Asking(q)] == asking.calls;
    if hit.Some? {
      Arrived(end, up, ttl, lag);
      First(reading, up, ttl, lag, Read(id, readOk), end, end);
    } else {
      MissIsSteps(s, up, ttl, lag, id, q, writeOk, end);
      First(reading, up, ttl, lag, Read(id, readOk), asking, end);
    }
    First(s, up, ttl, lag, Begin(id, q), reading, end);
  }
}
