/** The release scanner: over any number of scans the tags it announces are the
    tags it observed, without empties and adjacent repeats. */
module Scanners {
  import opened Model
  import opened Stores
  import Identifiers

  datatype Event =
    | Recorded(repo: string, tag: string)
    | Announced(repo: string, tag: string, email: string)

  /** The repositories table (repo -> last_seen_tag), the faults ahead of it, and
      what the scanner did so far. */
  datatype Tracking = Tracking(rows: map<string, string>, faults: seq<Fault>, log: seq<Event>) {
    function Next(): Fault { Head(faults) }
    function Rest(): Tracking { this.(faults := Tail(faults)) }
  }

  /** What one visit of a repo meets: GitHub's answer (None is an error), the
      subscribers (None is an error) and which notifications fail. */
  datatype Visit = Visit(repo: string, tag: Option<string>, subscribers: Option<seq<string>>, failing: set<nat>)

  // ------------------------------------------------------------------ operations

  /** INSERT ... ON CONFLICT DO UPDATE SET last_checked_at. */
  function Touch(x: Tracking, repo: string): Tracking {
    if x.Next().FailsClean? || repo in x.rows then x.Rest() else x.Rest().(rows := x.rows[repo := ""])
  }

  /** INSERT ... ON CONFLICT DO NOTHING. */
  function Register(x: Tracking, repo: string): (Tracking, bool) {
    (if x.Next().FailsClean? || repo in x.rows then x.Rest() else x.Rest().(rows := x.rows[repo := ""]), x.Next().Works?)
  }

  function Record(x: Tracking, repo: string, tag: string): (Tracking, bool) {
    (if x.Next().FailsClean? then x.Rest()
     else x.Rest().(rows := x.rows[repo := tag], log := x.log + [Recorded(repo, tag)]), x.Next().Works?)
  }

  function Announcements(v: Visit, tag: string, from: nat): seq<Event>
    requires v.subscribers.Some? && from <= |v.subscribers.value|
    decreases |v.subscribers.value| - from
  {
    if from == |v.subscribers.value| then []
    else if from in v.failing then Announcements(v, tag, from + 1)
    else [Announced(v.repo, tag, v.subscribers.value[from])] + Announcements(v, tag, from + 1)
  }

  function Detect(x: Tracking, v: Visit): (Tracking, bool) {
    if Identifiers.ParseRepoSpec(v.repo).None? || v.tag.None? then (x, false)
    else
      var x1 := Touch(x, v.repo);
      if v.tag.value == "" then (x1, false)
      else
        var x2 := x1.Rest();
        (x2, x1.Next().Works? && !(v.repo in x2.rows && x2.rows[v.repo] == v.tag.value))
  }

  function RecordAndNotify(x: Tracking, v: Visit): Tracking
    requires v.tag.Some?
  {
    var (x1, ok) := Record(x, v.repo, v.tag.value);
    if !ok || v.subscribers.None? then x1
    else x1.(log := x1.log + Announcements(v, v.tag.value, 0))
  }

  function Check(x: Tracking, v: Visit): Tracking {
    var (x1, isNew) := Detect(x, v);
    if isNew then RecordAndNotify(x1, v) else x1
  }

  function Scan(x: Tracking, visits: seq<Visit>): Tracking
    decreases |visits|
  {
    if visits == [] then x else Scan(Check(x, visits[0]), visits[1..])
  }

  // ------------------------------------------------------------------- the code

  class TrackingStore {
    var rows: map<string, string>
    var faults: seq<Fault>

    method GetRepoTracking(repo: string) returns (ok: bool, last: Option<string>)
      modifies this`faults
      ensures ok == Head(old(faults)).Works? && faults == Tail(old(faults))
      ensures last == if repo in rows then Some(rows[repo]) else None
    {
      ok := Head(faults).Works?;
      faults := Tail(faults);
      last := if repo in rows then Some(rows[repo]) else None;
    }

    method RegisterRepo(repo: string) returns (ok: bool)
      modifies this
      ensures ok == Head(old(faults)).Works? && faults == Tail(old(faults))
      ensures rows == if Head(old(faults)).FailsClean? || repo in old(rows) then old(rows) else old(rows)[repo := ""]
    {
      ok := Head(faults).Works?;
      if !Head(faults).FailsClean? && repo !in rows { rows := rows[repo := ""]; }
      faults := Tail(faults);
    }

    method TouchLastChecked(repo: string) returns (ok: bool)
      modifies this
      ensures ok == Head(old(faults)).Works? && faults == Tail(old(faults))
      ensures rows == if Head(old(faults)).FailsClean? || repo in old(rows) then old(rows) else old(rows)[repo := ""]
    {
      ok := Head(faults).Works?;
      if !Head(faults).FailsClean? && repo !in rows { rows := rows[repo := ""]; }
      faults := Tail(faults);
    }

    method RecordRelease(repo: string, tag: string) returns (ok: bool)
      modifies this
      ensures ok == Head(old(faults)).Works? && faults == Tail(old(faults))
      ensures rows == if Head(old(faults)).FailsClean? then old(rows) else old(rows)[repo := tag]
    {
      ok := Head(faults).Works?;
      if !Head(faults).FailsClean? { rows := rows[repo := tag]; }
      faults := Tail(faults);
    }
  }

  class Scanner {
    const tracking: TrackingStore
    var log: seq<Event>

    constructor (tracking: TrackingStore)
      ensures this.tracking == tracking && log == []
    { this.tracking, log := tracking, []; }

    function Value(): Tracking reads this, tracking { Tracking(tracking.rows, tracking.faults, log) }

    method DetectNewRelease(v: Visit) returns (isNew: bool)
      modifies tracking
      ensures (Value(), isNew) == Detect(old(Value()), v)
    {
      var spec := Identifiers.ParseRepoSpec(v.repo);
      if spec.None? { return false; }
      if v.tag.None? { return false; }
      var _ := tracking.TouchLastChecked(v.repo);
      if v.tag.value == "" { return false; }
      var ok, last := tracking.GetRepoTracking(v.repo);
      if !ok { return false; }
      if last.Some? && last.value == v.tag.value { return false; }
      return true;
    }

    method RecordThenNotify(v: Visit)
      requires v.tag.Some?
      modifies this, tracking
      ensures Value() == RecordAndNotify(old(Value()), v)
    {
      var applied := !Head(tracking.faults).FailsClean?;
      var ok := tracking.RecordRelease(v.repo, v.tag.value);
      if applied { log := log + [Recorded(v.repo, v.tag.value)]; }
      if !ok { return; }
      if v.subscribers.None? { return; }
      var subscribers := v.subscribers.value;
      ghost var start := log;
      var i := 0;
      while i < |subscribers|
        invariant 0 <= i <= |subscribers|
        invariant log + Announcements(v, v.tag.value, i) == start + Announcements(v, v.tag.value, 0)
        invariant tracking.rows == old(Record(Value(), v.repo, v.tag.value).0.rows)
        invariant tracking.faults == old(Value().Rest().faults)
      {
        if i in v.failing { i := i + 1; continue; }
        log := log + [Announced(v.repo, v.tag.value, subscribers[i])];
        i := i + 1;
      }
    }

    /** One cycle over the active repos. */
    method ScanOnce(visits: seq<Visit>)
      modifies this, tracking
      ensures Value() == Scan(old(Value()), visits)
    {
      var i := 0;
      while i < |visits|
        invariant 0 <= i <= |visits|
        invariant Scan(Value(), visits[i..]) == Scan(old(Value()), visits)
      {
        assert visits[i..][1..] == visits[i + 1..];
        var isNew := DetectNewRelease(visits[i]);
        if isNew { RecordThenNotify(visits[i]); }
        i := i + 1;
      }
      assert visits[|visits|..] == [];
    }
  }

  // ------------------------------------------------------- one visit, exactly

  /** `at` lists, in order, exactly the subscribers who are reached. */
  ghost predicate Reached(v: Visit, at: seq<nat>)
    requires v.subscribers.Some?
  {
    && (forall j, k | 0 <= j < k < |at| :: at[j] < at[k])
    && (forall i :: i in at <==> 0 <= i < |v.subscribers.value| && i !in v.failing)
  }

  ghost predicate ToldEach(v: Visit, tag: string, told: seq<Event>, at: seq<nat>)
    requires v.subscribers.Some?
  {
    && |told| == |at|
    && forall k | 0 <= k < |told| :: at[k] < |v.subscribers.value| && told[k] == Announced(v.repo, tag, v.subscribers.value[at[k]])
  }

  lemma {:induction false} AnnouncesFrom(v: Visit, tag: string, from: nat) returns (at: seq<nat>)
    requires v.subscribers.Some? && from <= |v.subscribers.value|
    ensures ToldEach(v, tag, Announcements(v, tag, from), at)
    ensures forall j, k | 0 <= j < k < |at| :: at[j] < at[k]
    ensures forall i :: i in at <==> from <= i < |v.subscribers.value| && i !in v.failing
    decreases |v.subscribers.value| - from
  {
    if from == |v.subscribers.value| {
      at := [];
    } else {
      at := AnnouncesFrom(v, tag, from + 1);
      if from !in v.failing {
        assert forall k | 0 <= k < |at| :: at[k] in at;
        at := [from] + at;
      }
    }
  }

  /** The first half: what is news. */
  lemma DetectsExactly(x: Tracking, v: Visit)
    ensures var (z, isNew) := Detect(x, v);
            var answered := Identifiers.ParseRepoSpec(v.repo).Some? && v.tag.Some?;
            var read := answered && v.tag.value != "";
            && (isNew <==> read && At(x.faults, 1).Works? && !(v.repo in x.rows && x.rows[v.repo] == v.tag.value))
            && z.faults == Left(x.faults, if !answered then 0 else if !read then 1 else 2)
            && z.rows == (if answered && v.repo !in x.rows && !At(x.faults, 0).FailsClean? then x.rows[v.repo := ""] else x.rows)
            && z.log == x.log
  {
    TwoReads(x.faults);
    if Identifiers.ParseRepoSpec(v.repo).Some? && v.tag.Some? {
      var x1 := Touch(x, v.repo);
      assert x1.faults == Left(x.faults, 1) && x1.log == x.log && x1.Next() == At(x.faults, 1);
    }
  }

  lemma TwoReads(faults: seq<Fault>)
    ensures Left(faults, 0) == faults && Left(faults, 1) == Tail(faults) && Left(faults, 2) == Tail(Tail(faults))
    ensures Head(faults) == At(faults, 0) && Head(Tail(faults)) == At(faults, 1)
  {}

  /** A visit under any failures. With GitHub's answer the check is stamped, and a
      failed stamp hides nothing; a tag that is not the stored one is recorded if and
      only if the stored one can be read and the record takes effect; and once the
      record worked, exactly the subscribers who can be reached are told, in order. */
  lemma VisitsExactly(x: Tracking, v: Visit) returns (told: seq<Event>, at: seq<nat>)
    ensures var z := Check(x, v);
            var answered := Identifiers.OwnerSlashRepo(v.repo) && v.tag.Some?;
            var read := answered && v.tag.value != "";
            var news := read && At(x.faults, 1).Works? && !(v.repo in x.rows && x.rows[v.repo] == v.tag.value);
            var recorded := news && !At(x.faults, 2).FailsClean?;
            && z.faults == Left(x.faults, if !answered then 0 else if !read then 1 else if !news then 2 else 3)
            && z.rows == (if recorded then x.rows[v.repo := v.tag.value]
                          else if answered && v.repo !in x.rows && !At(x.faults, 0).FailsClean? then x.rows[v.repo := ""]
                          else x.rows)
            && z.log == x.log + (if recorded then [Recorded(v.repo, v.tag.value)] else []) + told
            && (if news && At(x.faults, 2).Works? && v.subscribers.Some?
                then Reached(v, at) && ToldEach(v, v.tag.value, told, at) else told == [])
  {
    told, at := [], [];
    var (x1, isNew) := Detect(x, v);
    DetectsExactly(x, v);
    Identifiers.ParseAcceptsExactly(v.repo);
    if isNew && Record(x1, v.repo, v.tag.value).1 && v.subscribers.Some? {
      told := Announcements(v, v.tag.value, 0);
      at := AnnouncesFrom(v, v.tag.value, 0);
    }
  }

  lemma {:induction false} ScanAppend(x: Tracking, a: seq<Visit>, b: seq<Visit>)
    ensures Scan(x, a + b) == Scan(Scan(x, a), b)
    decreases |a|
  {
    if a == [] {
      assert a + b == b;
    } else {
      assert (a + b)[1..] == a[1..] + b;
      ScanAppend(Check(x, a[0]), a[1..], b);
    }
  }

  /** Every repo of a cycle gets its visit, whatever failed in those before. */
  lemma ScanVisitsEach(x: Tracking, visits: seq<Visit>, k: nat)
    requires k < |visits|
    ensures Scan(x, visits) == Scan(Check(Scan(x, visits[..k]), visits[k]), visits[k + 1..])
  {
    assert visits == visits[..k] + visits[k..] && visits[k..][1..] == visits[k + 1..];
    ScanAppend(x, visits[..k], visits[k..]);
  }

  // ------------------------------------------------------------------ reference

  function NonEmpty(tags: seq<string>): seq<string>
    decreases |tags|
  {
    if tags == [] then [] else (if tags[0] == "" then [] else [tags[0]]) + NonEmpty(tags[1..])
  }

  /** Adjacent repeats collapsed to one. */
  function Collapse(tags: seq<string>): seq<string>
    decreases |tags|
  {
    if |tags| <= 1 then tags
    else (if tags[0] == tags[1] then [] else [tags[0]]) + Collapse(tags[1..])
  }

  /** The tags GitHub answered for `repo`, visit by visit. */
  function Observed(visits: seq<Visit>, repo: string): seq<string>
    decreases |visits|
  {
    if visits == [] then []
    else (if visits[0].repo == repo && visits[0].tag.Some? then [visits[0].tag.value] else []) + Observed(visits[1..], repo)
  }

  function RecordedTags(log: seq<Event>, repo: string): seq<string>
    decreases |log|
  {
    if log == [] then []
    else RecordedTags(log[..|log| - 1], repo) +
         (var e := log[|log| - 1]; if e.Recorded? && e.repo == repo then [e.tag] else [])
  }

  function AnnouncedTags(log: seq<Event>, repo: string, email: string): seq<string>
    decreases |log|
  {
    if log == [] then []
    else AnnouncedTags(log[..|log| - 1], repo, email) +
         (var e := log[|log| - 1]; if e.Announced? && e.repo == repo && e.email == email then [e.tag] else [])
  }

  // -------------------------------------------------------- with arbitrary failures

  predicate NoRepeats(tags: seq<string>) {
    (forall i | 0 <= i < |tags| :: tags[i] != "") && (forall i | 0 < i < |tags| :: tags[i - 1] != tags[i])
  }

  function LastTag(tags: seq<string>): string { if tags == [] then "" else tags[|tags| - 1] }

  function StoredTag(x: Tracking, repo: string): string { if repo in x.rows then x.rows[repo] else "" }

  /** last_seen_tag is the last recorded tag, and recorded tags never repeat. */
  ghost predicate Consistent(x: Tracking, repo: string) {
    NoRepeats(RecordedTags(x.log, repo)) && StoredTag(x, repo) == LastTag(RecordedTags(x.log, repo))
  }

  /** The latest record of the repo carries the tag. */
  ghost predicate Announcing(log: seq<Event>, repo: string, tag: string) {
    RecordedTags(log, repo) != [] && LastTag(RecordedTags(log, repo)) == tag
  }

  ghost predicate Backed(log: seq<Event>, k: nat)
    requires k < |log|
  {
    log[k].Announced? ==> Announcing(log[..k], log[k].repo, log[k].tag)
  }

  /** Every announcement repeats the latest record of its repo. */
  ghost predicate RecordedFirst(log: seq<Event>) {
    forall k: nat {:trigger Backed(log, k)} | k < |log| :: Backed(log, k)
  }

  /** Registering and checking a repo never touch a tag, so neither hides or
      repeats a release. */
  lemma TagsSurvive(x: Tracking, repo: string, other: string)
    ensures StoredTag(Touch(x, repo), other) == StoredTag(x, other)
    ensures StoredTag(Register(x, repo).0, other) == StoredTag(x, other)
    ensures Register(x, repo).1 ==> repo in Register(x, repo).0.rows
  {}

  lemma RecordedSnoc(log: seq<Event>, e: Event, repo: string)
    ensures RecordedTags(log + [e], repo) ==
            RecordedTags(log, repo) + (if e.Recorded? && e.repo == repo then [e.tag] else [])
  {
    assert (log + [e])[..|log|] == log;
  }

  lemma {:induction false} AnnouncingAddsNone(log: seq<Event>, v: Visit, tag: string, from: nat, repo: string)
    requires v.subscribers.Some? && from <= |v.subscribers.value|
    ensures RecordedTags(log + Announcements(v, tag, from), repo) == RecordedTags(log, repo)
    decreases |v.subscribers.value| - from
  {
    if from == |v.subscribers.value| {
      assert log + [] == log;
    } else if from in v.failing {
      AnnouncingAddsNone(log, v, tag, from + 1, repo);
    } else {
      var e := Announced(v.repo, tag, v.subscribers.value[from]);
      RecordedSnoc(log, e, repo);
      AnnouncingAddsNone(log + [e], v, tag, from + 1, repo);
      assert log + Announcements(v, tag, from) == (log + [e]) + Announcements(v, tag, from + 1);
    }
  }

  lemma SnocRecordedFirst(log: seq<Event>, e: Event)
    requires RecordedFirst(log)
    requires e.Announced? ==> Announcing(log, e.repo, e.tag)
    ensures RecordedFirst(log + [e])
  {
    var next := log + [e];
    forall k: nat | k < |next| ensures Backed(next, k) {
      if k < |log| { assert next[..k] == log[..k] && Backed(log, k); } else { assert next[..k] == log; }
    }
  }

  lemma AnnounceOne(log: seq<Event>, repo: string, tag: string, email: string)
    requires RecordedFirst(log) && Announcing(log, repo, tag)
    ensures RecordedFirst(log + [Announced(repo, tag, email)])
    ensures Announcing(log + [Announced(repo, tag, email)], repo, tag)
  {
    RecordedSnoc(log, Announced(repo, tag, email), repo);
    SnocRecordedFirst(log, Announced(repo, tag, email));
  }

  lemma SameAnnouncements(log: seq<Event>, v: Visit, tag: string, from: nat)
    requires v.subscribers.Some? && from < |v.subscribers.value|
    ensures from in v.failing ==> log + Announcements(v, tag, from) == log + Announcements(v, tag, from + 1)
    ensures from !in v.failing ==>
              log + Announcements(v, tag, from) ==
              (log + [Announced(v.repo, tag, v.subscribers.value[from])]) + Announcements(v, tag, from + 1)
  {
  }

  lemma {:induction false} AnnouncingKeeps(log: seq<Event>, v: Visit, tag: string, from: nat)
    requires v.subscribers.Some? && from <= |v.subscribers.value|
    requires RecordedFirst(log) && Announcing(log, v.repo, tag)
    ensures RecordedFirst(log + Announcements(v, tag, from))
    decreases |v.subscribers.value| - from
  {
    if from == |v.subscribers.value| {
      assert log + [] == log;
    } else {
      SameAnnouncements(log, v, tag, from);
      if from in v.failing {
        AnnouncingKeeps(log, v, tag, from + 1);
      } else {
        AnnounceOne(log, v.repo, tag, v.subscribers.value[from]);
        AnnouncingKeeps(log + [Announced(v.repo, tag, v.subscribers.value[from])], v, tag, from + 1);
      }
    }
  }

  /** The log of one visit: nothing, the record alone, or the record and then
      the announcements. */
  lemma CheckLog(x: Tracking, v: Visit, repo: string)
    ensures var z := Check(x, v);
            || (z.log == x.log && StoredTag(z, repo) == StoredTag(x, repo))
            || (v.tag.Some? && v.tag.value != "" && v.tag.value != StoredTag(x, v.repo)
                && StoredTag(z, repo) == (if repo == v.repo then v.tag.value else StoredTag(x, repo))
                && (z.log == x.log + [Recorded(v.repo, v.tag.value)]
                    || (v.subscribers.Some? &&
                        z.log == x.log + [Recorded(v.repo, v.tag.value)] + Announcements(v, v.tag.value, 0))))
  {
    TagsSurvive(x, v.repo, repo);
  }

  lemma RecordKeeps(x: Tracking, z: Tracking, of: string, tag: string, repo: string)
    requires Consistent(x, repo)
    requires tag != "" && tag != StoredTag(x, of)
    requires StoredTag(z, repo) == if repo == of then tag else StoredTag(x, repo)
    requires RecordedTags(z.log, repo) == RecordedTags(x.log, repo) + (if of == repo then [tag] else [])
    ensures Consistent(z, repo)
  {
    var before := RecordedTags(x.log, repo);
    if repo == of {
      assert before != [] ==> before[|before| - 1] != tag;
    } else {
      assert before + [] == before;
    }
  }

  lemma CheckKeeps(x: Tracking, v: Visit, repo: string)
    requires Consistent(x, repo) && RecordedFirst(x.log)
    ensures Consistent(Check(x, v), repo) && RecordedFirst(Check(x, v).log)
  {
    var z := Check(x, v);
    CheckLog(x, v, repo);
    if z.log != x.log || StoredTag(z, repo) != StoredTag(x, repo) {
      var tag := v.tag.value;
      var log := x.log + [Recorded(v.repo, tag)];
      RecordedSnoc(x.log, Recorded(v.repo, tag), repo);
      RecordedSnoc(x.log, Recorded(v.repo, tag), v.repo);
      SnocRecordedFirst(x.log, Recorded(v.repo, tag));
      if z.log != log {
        AnnouncingKeeps(log, v, tag, 0);
        AnnouncingAddsNone(log, v, tag, 0, repo);
      }
      RecordKeeps(x, z, v.repo, tag, repo);
    }
  }

  /** Whatever fails in whatever visits: recorded tags are non-empty and never
      repeat adjacently, last_seen_tag is the last of them, and nothing is
      announced before it was recorded. */
  lemma {:induction false} ScanIsConsistent(x: Tracking, visits: seq<Visit>, repo: string)
    requires Consistent(x, repo) && RecordedFirst(x.log)
    ensures Consistent(Scan(x, visits), repo) && RecordedFirst(Scan(x, visits).log)
    decreases |visits|
  {
    if visits != [] {
      CheckKeeps(x, visits[0], repo);
      ScanIsConsistent(Check(x, visits[0]), visits[1..], repo);
    }
  }

  // ------------------------------------------------------ with the store succeeding

  /** Tags that are news after `last`. */
  function News(last: string, tags: seq<string>): seq<string>
    decreases |tags|
  {
    if tags == [] then []
    else if tags[0] == "" || tags[0] == last then News(last, tags[1..])
    else [tags[0]] + News(tags[0], tags[1..])
  }

  lemma {:induction false} NewsIsCollapse(last: string, tags: seq<string>)
    ensures last == "" ==> News(last, tags) == Collapse(NonEmpty(tags))
    ensures last != "" ==> [last] + News(last, tags) == Collapse([last] + NonEmpty(tags))
    decreases |tags|
  {
    if tags == [] {
    } else {
      var rest := NonEmpty(tags[1..]);
      NewsIsCollapse(last, tags[1..]);
      if tags[0] != "" {
        NewsIsCollapse(tags[0], tags[1..]);
        assert NonEmpty(tags) == [tags[0]] + rest;
        if last != "" {
          assert ([last] + NonEmpty(tags))[1..] == NonEmpty(tags);
          assert [last] + rest == [tags[0]] + rest || last != tags[0];
        }
      } else {
        assert NonEmpty(tags) == rest;
      }
    }
  }

  predicate IsNews(last: string, v: Visit, repo: string) {
    v.repo == repo && v.tag.Some? && v.tag.value != "" && v.tag.value != last
  }

  lemma CleanCheck(x: Tracking, v: Visit, repo: string)
    requires x.faults == [] && Identifiers.ParseRepoSpec(repo).Some?
    ensures var z := Check(x, v);
            && z.faults == []
            && RecordedTags(z.log, repo) ==
               RecordedTags(x.log, repo) + (if IsNews(StoredTag(x, repo), v, repo) then [v.tag.value] else [])
            && StoredTag(z, repo) == (if IsNews(StoredTag(x, repo), v, repo) then v.tag.value else StoredTag(x, repo))
  {
    var (x1, isNew) := Detect(x, v);
    if isNew {
      var tag := v.tag.value;
      RecordedSnoc(x.log, Recorded(v.repo, tag), repo);
      if v.subscribers.Some? { AnnouncingAddsNone(x.log + [Recorded(v.repo, tag)], v, tag, 0, repo); }
    }
  }

  /** What a visit adds to the news of its repo. */
  lemma NewsOf(last: string, visits: seq<Visit>, repo: string)
    requires visits != []
    ensures var v := visits[0];
            News(last, Observed(visits, repo)) ==
            if IsNews(last, v, repo) then [v.tag.value] + News(v.tag.value, Observed(visits[1..], repo))
            else News(last, Observed(visits[1..], repo))
  {
    var v := visits[0];
    if v.repo == repo && v.tag.Some? {
      assert Observed(visits, repo)[0] == v.tag.value && Observed(visits, repo)[1..] == Observed(visits[1..], repo);
    } else {
      assert Observed(visits, repo) == Observed(visits[1..], repo);
    }
  }

  lemma {:induction false} CleanScan(x: Tracking, visits: seq<Visit>, repo: string)
    requires x.faults == [] && Identifiers.ParseRepoSpec(repo).Some?
    ensures RecordedTags(Scan(x, visits).log, repo) ==
            RecordedTags(x.log, repo) + News(StoredTag(x, repo), Observed(visits, repo))
    decreases |visits|
  {
    if visits != [] {
      CleanCheck(x, visits[0], repo);
      CleanScan(Check(x, visits[0]), visits[1..], repo);
      NewsOf(StoredTag(x, repo), visits, repo);
    }
  }

  /** The scanner refines destutter: from an empty table, with the store working,
      the tags recorded for a repo over any visits of any repos are exactly the
      tags observed for it, empties removed and adjacent repeats collapsed. */
  lemma RecordsAreDestuttered(visits: seq<Visit>, repo: string)
    requires Identifiers.ParseRepoSpec(repo).Some?
    ensures RecordedTags(Scan(Tracking(map[], [], []), visits).log, repo) == Collapse(NonEmpty(Observed(visits, repo)))
  {
    CleanScan(Tracking(map[], [], []), visits, repo);
    NewsIsCollapse("", Observed(visits, repo));
  }

  // ---------------------------------------------------- what one subscriber is told

  /** `email` is listed exactly once in every visit of `repo`, and its
      notifications get through. */
  ghost predicate Follows(visits: seq<Visit>, repo: string, email: string)
    decreases |visits|
  {
    visits != [] ==> (visits[0].repo == repo ==> ListedOnce(visits[0], email)) && Follows(visits[1..], repo, email)
  }

  ghost predicate ListedOnce(v: Visit, email: string) {
    && v.subscribers.Some?
    && exists k :: 0 <= k < |v.subscribers.value| && v.subscribers.value[k] == email && k !in v.failing
                   && forall j | 0 <= j < |v.subscribers.value| && j != k :: v.subscribers.value[j] != email
  }

  lemma AnnouncedSnoc(log: seq<Event>, e: Event, repo: string, email: string)
    ensures AnnouncedTags(log + [e], repo, email) ==
            AnnouncedTags(log, repo, email) + (if e.Announced? && e.repo == repo && e.email == email then [e.tag] else [])
  {
    assert (log + [e])[..|log|] == log;
  }

  /** Counting from `from`, `email` still comes at `k`, or not at all. */
  lemma {:induction false} AnnouncedFrom(log: seq<Event>, v: Visit, tag: string, from: nat, repo: string, email: string, k: nat)
    requires v.subscribers.Some? && from <= |v.subscribers.value|
    requires forall j | from <= j < |v.subscribers.value| && j != k :: v.repo != repo || v.subscribers.value[j] != email
    requires from <= k < |v.subscribers.value| ==> v.subscribers.value[k] == email && k !in v.failing
    ensures AnnouncedTags(log + Announcements(v, tag, from), repo, email) ==
            AnnouncedTags(log, repo, email) + (if v.repo == repo && from <= k < |v.subscribers.value| then [tag] else [])
    decreases |v.subscribers.value| - from
  {
    if from == |v.subscribers.value| {
      assert log + [] == log;
    } else {
      SameAnnouncements(log, v, tag, from);
      if from in v.failing {
        AnnouncedFrom(log, v, tag, from + 1, repo, email, k);
      } else {
        var e := Announced(v.repo, tag, v.subscribers.value[from]);
        var told := AnnouncedTags(log, repo, email);
        AnnouncedSnoc(log, e, repo, email);
        AnnouncedFrom(log + [e], v, tag, from + 1, repo, email, k);
        assert told + [] == told;
        assert AnnouncedTags(log + [e], repo, email) == if v.repo == repo && from == k then told + [tag] else told;
      }
    }
  }

  /** What is news, with the store working. */
  lemma CleanDetect(x: Tracking, v: Visit)
    requires x.faults == []
    ensures var (x1, isNew) := Detect(x, v);
            && x1.faults == [] && x1.log == x.log
            && (isNew <==> Identifiers.ParseRepoSpec(v.repo).Some? && IsNews(StoredTag(x, v.repo), v, v.repo))
  {
    TagsSurvive(x, v.repo, v.repo);
  }

  /** One visit, seen by one subscriber. */
  lemma FollowedCheck(x: Tracking, v: Visit, repo: string, email: string)
    requires x.faults == [] && Identifiers.ParseRepoSpec(repo).Some?
    requires v.repo == repo ==> ListedOnce(v, email)
    ensures var z := Check(x, v);
            AnnouncedTags(z.log, repo, email) == AnnouncedTags(x.log, repo, email) +
              (if IsNews(StoredTag(x, repo), v, repo) then [v.tag.value] else [])
  {
    var (x1, isNew) := Detect(x, v);
    CleanDetect(x, v);
    if isNew {
      var tag := v.tag.value;
      var log := x.log + [Recorded(v.repo, tag)];
      AnnouncedSnoc(x.log, Recorded(v.repo, tag), repo, email);
      if v.subscribers.Some? { AnnouncedVisit(log, v, tag, repo, email); }
    }
  }

  lemma AnnouncedVisit(log: seq<Event>, v: Visit, tag: string, repo: string, email: string)
    requires v.subscribers.Some? && (v.repo == repo ==> ListedOnce(v, email))
    ensures AnnouncedTags(log + Announcements(v, tag, 0), repo, email) ==
            AnnouncedTags(log, repo, email) + (if v.repo == repo then [tag] else [])
  {
    if v.repo == repo {
      var k: nat :| k < |v.subscribers.value| && v.subscribers.value[k] == email && k !in v.failing
               && forall j | 0 <= j < |v.subscribers.value| && j != k :: v.subscribers.value[j] != email;
      AnnouncedFrom(log, v, tag, 0, repo, email, k);
    } else {
      AnnouncedFrom(log, v, tag, 0, repo, email, |v.subscribers.value|);
    }
  }

  /** The effects of the first visit of a scan, its result left abstract. */
  lemma FollowedStep(x: Tracking, visits: seq<Visit>, repo: string, email: string) returns (z: Tracking)
    requires x.faults == [] && Identifiers.ParseRepoSpec(repo).Some? && visits != []
    requires visits[0].repo == repo ==> ListedOnce(visits[0], email)
    ensures z.faults == [] && Scan(x, visits) == Scan(z, visits[1..])
    ensures StoredTag(z, repo) ==
            if IsNews(StoredTag(x, repo), visits[0], repo) then visits[0].tag.value else StoredTag(x, repo)
    ensures AnnouncedTags(z.log, repo, email) ==
            AnnouncedTags(x.log, repo, email) +
            (if IsNews(StoredTag(x, repo), visits[0], repo) then [visits[0].tag.value] else [])
  {
    z := Check(x, visits[0]);
    FollowedCheck(x, visits[0], repo, email);
    CleanCheck(x, visits[0], repo);
  }

  /** One step of the induction: the tags after the first visit are known. */
  lemma FollowedTail(x: Tracking, visits: seq<Visit>, repo: string, told: seq<string>, end: seq<string>, last: string)
    requires visits != []
    requires last == if IsNews(StoredTag(x, repo), visits[0], repo) then visits[0].tag.value else StoredTag(x, repo)
    requires end == told + (if IsNews(StoredTag(x, repo), visits[0], repo) then [visits[0].tag.value] else []) +
                    News(last, Observed(visits[1..], repo))
    ensures end == told + News(StoredTag(x, repo), Observed(visits, repo))
  {
    NewsOf(StoredTag(x, repo), visits, repo);
  }

  lemma {:induction false} FollowedScan(x: Tracking, visits: seq<Visit>, repo: string, email: string)
    requires x.faults == [] && Identifiers.ParseRepoSpec(repo).Some? && Follows(visits, repo, email)
    ensures AnnouncedTags(Scan(x, visits).log, repo, email) ==
            AnnouncedTags(x.log, repo, email) + News(StoredTag(x, repo), Observed(visits, repo))
    decreases |visits|
  {
    if visits == [] {
      assert Observed(visits, repo) == [];
    } else {
      var z := FollowedStep(x, visits, repo, email);
      FollowedScan(z, visits[1..], repo, email);
      FollowedTail(x, visits, repo, AnnouncedTags(x.log, repo, email),
                   AnnouncedTags(Scan(x, visits).log, repo, email), StoredTag(z, repo));
    }
  }

  /** A subscriber who follows the repo throughout and is always reached is told
      of exactly the destuttered tags, in order. */
  lemma AnnouncementsAreDestuttered(visits: seq<Visit>, repo: string, email: string)
    requires Identifiers.ParseRepoSpec(repo).Some? && Follows(visits, repo, email)
    ensures AnnouncedTags(Scan(Tracking(map[], [], []), visits).log, repo, email) ==
            Collapse(NonEmpty(Observed(visits, repo)))
  {
    FollowedScan(Tracking(map[], [], []), visits, repo, email);
    NewsIsCollapse("", Observed(visits, repo));
  }
}
