/** The strings the system uses as identities: owner/repo, cache keys, message
    ids and dedup keys, and the token at the end of a confirmation link. */
module Identifiers {
  import opened Model

  datatype RepoSpec = RepoSpec(owner: string, name: string)

  // --------------------------------------------------------------- repo format

  /** Position of the first `c`, or the length. */
  function Index(s: string, c: char): (i: nat)
    ensures i <= |s| && c !in s[..i] && (i < |s| ==> s[i] == c)
  {
    if s == "" || s[0] == c then 0 else 1 + Index(s[1..], c)
  }

  /** strings.Split: always one part more than there are separators. */
  function Split(s: string, sep: char): (parts: seq<string>)
    ensures parts != []
    decreases |s|
  {
    var i := Index(s, sep);
    if i == |s| then [s] else [s[..i]] + Split(s[i + 1..], sep)
  }

  function ParseRepoSpec(s: string): Option<RepoSpec> {
    var parts := Split(s, '/');
    if |parts| != 2 || parts[0] == "" || parts[1] == "" then None else Some(RepoSpec(parts[0], parts[1]))
  }

  function Text(r: RepoSpec): string { r.owner + "/" + r.name }

  /** Exactly one '/', with something on both sides. */
  ghost predicate OwnerSlashRepo(s: string) {
    exists i :: 0 < i < |s| - 1 && s[i] == '/' && '/' !in s[..i] && '/' !in s[i + 1..]
  }

  lemma {:induction false} IndexIsFirst(s: string, c: char, i: nat)
    requires i < |s| && s[i] == c && c !in s[..i]
    ensures Index(s, c) == i
    decreases i
  {
    if i > 0 {
      assert s[..i][0] == s[0] && s[1..][..i - 1] == s[..i][1..];
      IndexIsFirst(s[1..], c, i - 1);
    }
  }

  lemma ParseTwoParts(s: string, i: nat)
    requires i < |s| && s[i] == '/' && '/' !in s[..i]
    ensures Split(s, '/') == [s[..i]] + Split(s[i + 1..], '/')
    ensures |Split(s, '/')| == 2 <==> '/' !in s[i + 1..]
    ensures '/' !in s[i + 1..] ==> Split(s, '/') == [s[..i], s[i + 1..]]
  {
    IndexIsFirst(s, '/', i);
    var rest := s[i + 1..];
    var j := Index(rest, '/');
    if j == |rest| { assert rest[..j] == rest; }
  }

  lemma ParseCases(s: string)
    ensures var i := Index(s, '/');
            if 0 < i < |s| - 1 && '/' !in s[i + 1..] then ParseRepoSpec(s) == Some(RepoSpec(s[..i], s[i + 1..]))
            else ParseRepoSpec(s).None?
  {
    var i := Index(s, '/');
    if i < |s| { ParseTwoParts(s, i); }
  }

  lemma OwnerSlashAt(s: string)
    ensures var i := Index(s, '/');
            OwnerSlashRepo(s) <==> 0 < i < |s| - 1 && '/' !in s[i + 1..]
  {
    if OwnerSlashRepo(s) {
      var k :| 0 < k < |s| - 1 && s[k] == '/' && '/' !in s[..k] && '/' !in s[k + 1..];
      IndexIsFirst(s, '/', k);
    }
  }

  lemma CutAt(s: string, i: nat)
    requires i < |s| && s[i] == '/'
    ensures Text(RepoSpec(s[..i], s[i + 1..])) == s
  {
    assert s == s[..i] + "/" + s[i + 1..];
  }

  /** ParseRepoSpec accepts exactly the well-formed strings, and String undoes it. */
  lemma ParseAcceptsExactly(s: string)
    ensures ParseRepoSpec(s).Some? <==> OwnerSlashRepo(s)
    ensures ParseRepoSpec(s).Some? ==>
              Text(ParseRepoSpec(s).value) == s &&
              '/' !in ParseRepoSpec(s).value.owner && '/' !in ParseRepoSpec(s).value.name
  {
    var i := Index(s, '/');
    OwnerSlashAt(s);
    ParseCases(s);
    if OwnerSlashRepo(s) { CutAt(s, i); }
  }

  /** ParseRepoSpec undoes String exactly on specs with two non-empty sides
      without '/'. */
  lemma ParseUndoesText(r: RepoSpec)
    ensures ParseRepoSpec(Text(r)) == Some(r) <==>
            r.owner != "" && r.name != "" && '/' !in r.owner && '/' !in r.name
  {
    var s := Text(r);
    if '/' !in r.owner {
      var i := |r.owner|;
      assert s[..i] == r.owner && s[i] == '/' && s[i + 1..] == r.name;
      ParseTwoParts(s, i);
    } else {
      ParseAcceptsExactly(s);
    }
  }

  // ------------------------------------------------------------------- prefixes

  lemma PrefixCancels(p: string, a: string, b: string)
    ensures p + a == p + b <==> a == b
  {
    assert (p + a)[|p|..] == a && (p + b)[|p|..] == b;
  }

  /** Two strings that agree up to their first `c` agree before and after it. */
  lemma FirstCut(a: string, x: string, b: string, y: string, c: char)
    requires c !in a && c !in b && a + [c] + x == b + [c] + y
    ensures a == b && x == y
  {
    var s := a + [c] + x;
    assert s[..|a|] == a && s[|a|] == c && s[|a| + 1..] == x;
    assert s[..|b|] == b && s[|b|] == c && s[|b| + 1..] == y;
    IndexIsFirst(s, c, |a|);
    IndexIsFirst(s, c, |b|);
  }

  /** ... and likewise up to their last `c`. */
  lemma LastCut(a: string, x: string, b: string, y: string, c: char)
    requires c !in x && c !in y && a + [c] + x == b + [c] + y
    ensures a == b && x == y
  {
    var s := a + [c] + x;
    assert s[..|a|] == a && s[|a|] == c && s[|a| + 1..] == x;
    assert s[..|b|] == b && s[|b|] == c && s[|b| + 1..] == y;
    assert forall k | |a| < k < |s| :: s[k] == x[k - |a| - 1];
    assert forall k | |b| < k < |s| :: s[k] == y[k - |b| - 1];
  }

  // ----------------------------------------------------------------- cache keys

  function ExistsKey(owner: string, repo: string): string { "repo_exists:" + owner + "/" + repo }

  function ReleaseKey(owner: string, repo: string): string { "latest_release:" + owner + "/" + repo }

  /** On parsed specs the cache keys are injective, and no key of one family is a
      key of the other. */
  lemma CacheKeysSound(s: string, z: string)
    requires ParseRepoSpec(s).Some? && ParseRepoSpec(z).Some?
    ensures var (a, b) := (ParseRepoSpec(s).value, ParseRepoSpec(z).value);
            && (ExistsKey(a.owner, a.name) == ExistsKey(b.owner, b.name) ==> s == z)
            && (ReleaseKey(a.owner, a.name) == ReleaseKey(b.owner, b.name) ==> s == z)
            && ExistsKey(a.owner, a.name) != ReleaseKey(b.owner, b.name)
  {
    ParseAcceptsExactly(s);
    ParseAcceptsExactly(z);
    var a, b := ParseRepoSpec(s).value, ParseRepoSpec(z).value;
    assert ExistsKey(a.owner, a.name) == "repo_exists:" + s && ExistsKey(b.owner, b.name) == "repo_exists:" + z;
    assert ReleaseKey(a.owner, a.name) == "latest_release:" + s && ReleaseKey(b.owner, b.name) == "latest_release:" + z;
    PrefixCancels("repo_exists:", s, z);
    PrefixCancels("latest_release:", s, z);
    assert ExistsKey(a.owner, a.name)[0] == 'r' && ReleaseKey(b.owner, b.name)[0] == 'l';
  }

  // ---------------------------------------------------------------- message ids

  function Render(id: MessageId): string {
    match id
    case ConfirmMessage(token) => "confirm:" + token
    case ReleaseMessage(repo, tag, token) => "release:" + repo + ":" + tag + ":" + token
    case NoId => ""
  }

  function DedupKey(id: string): string { "processed:" + id }

  /** Ids whose fields cannot be confused with the separators. */
  predicate Plain(id: MessageId) {
    id.ReleaseMessage? ==> ':' !in id.repo && ':' !in id.subscriberToken
  }

  /** The dedup key of a message determines the message id, so one key never
      stands for two messages. Tags may contain ':'. */
  lemma DedupKeysSound(a: MessageId, b: MessageId)
    requires Plain(a) && Plain(b) && DedupKey(Render(a)) == DedupKey(Render(b))
    ensures a == b
  {
    PrefixCancels("processed:", Render(a), Render(b));
    assert a.ConfirmMessage? ==> Render(a)[0] == 'c';
    assert b.ConfirmMessage? ==> Render(b)[0] == 'c';
    assert a.ReleaseMessage? ==> Render(a)[0] == 'r';
    assert b.ReleaseMessage? ==> Render(b)[0] == 'r';
    if a.ConfirmMessage? && b.ConfirmMessage? {
      PrefixCancels("confirm:", a.token, b.token);
    } else if a.ReleaseMessage? && b.ReleaseMessage? {
      var x, y := a.tag + ":" + a.subscriberToken, b.tag + ":" + b.subscriberToken;
      assert Render(a) == "release:" + (a.repo + ":" + x) && Render(b) == "release:" + (b.repo + ":" + y);
      PrefixCancels("release:", a.repo + ":" + x, b.repo + ":" + y);
      FirstCut(a.repo, x, b.repo, y, ':');
      LastCut(a.tag, a.subscriberToken, b.tag, b.subscriberToken, ':');
    }
  }

  /** Without the restriction two different releases share one id. */
  lemma ColonsCollide()
    ensures var (a, b) := (ReleaseMessage("x/y:1", "2", "t"), ReleaseMessage("x/y", "1:2", "t"));
            a != b && !Plain(a) && Render(a) == Render(b)
  {
    assert "release:" + "x/y:1" + ":" + "2" + ":" + "t" == "release:x/y:1:2:t";
    assert "release:" + "x/y" + ":" + "1:2" + ":" + "t" == "release:x/y:1:2:t";
  }

  function Body(id: MessageId): string
    requires id.ReleaseMessage?
  {
    id.repo + ":" + id.tag + ":" + id.subscriberToken
  }

  lemma RenderBody(id: MessageId)
    requires id.ReleaseMessage?
    ensures Render(id) == "release:" + Body(id)
  {
    assert "release:" + id.repo + ":" + id.tag + ":" + id.subscriberToken == "release:" + Body(id);
  }

  /** No other release has this id. */
  ghost predicate Unambiguous(id: MessageId) {
    forall other: MessageId :: other.ReleaseMessage? && Render(other) == Render(id) ==> other == id
  }

  lemma NoColonsIsUnambiguous(a: MessageId, b: MessageId)
    requires a.ReleaseMessage? && b.ReleaseMessage? && Render(a) == Render(b)
    requires ':' !in a.repo && ':' !in a.tag && ':' !in a.subscriberToken
    ensures a == b
  {
    RenderBody(a);
    RenderBody(b);
    PrefixCancels("release:", Body(a), Body(b));
    ColonsOf(a);
    ColonsOf(b);
    assert multiset(b.repo)[':'] == 0 && multiset(b.subscriberToken)[':'] == 0;
    DedupKeysSound(a, b);
  }

  lemma ColonsOf(id: MessageId)
    requires id.ReleaseMessage?
    ensures multiset(Body(id))[':'] ==
            2 + multiset(id.repo)[':'] + multiset(id.tag)[':'] + multiset(id.subscriberToken)[':']
  {}

  lemma Regroup(a: string, b: string, c: string, d: string)
    ensures Render(ReleaseMessage(a + ":" + b, c, d)) == Render(ReleaseMessage(a, b + ":" + c, d))
    ensures Render(ReleaseMessage(a, b + ":" + c, d)) == Render(ReleaseMessage(a, b, c + ":" + d))
  {
    var x, y, z := ReleaseMessage(a + ":" + b, c, d), ReleaseMessage(a, b + ":" + c, d), ReleaseMessage(a, b, c + ":" + d);
    RenderBody(x);
    RenderBody(y);
    RenderBody(z);
    assert Body(x) == Body(y);
    assert Body(y) == Body(z);
  }

  lemma CutAtColon(s: string) returns (p: string, q: string)
    requires ':' in s
    ensures s == p + ":" + q
  {
    var i := Index(s, ':');
    p, q := s[..i], s[i + 1..];
  }

  /** A colon in any field can be taken for the separator next to it. */
  lemma ColonIsAmbiguous(id: MessageId)
    requires id.ReleaseMessage? && (':' in id.repo || ':' in id.tag || ':' in id.subscriberToken)
    ensures !Unambiguous(id)
  {
    if ':' in id.repo {
      var p, q := CutAtColon(id.repo);
      Regroup(p, q, id.tag, id.subscriberToken);
      assert ReleaseMessage(p, q + ":" + id.tag, id.subscriberToken) != id;
    } else if ':' in id.tag {
      var p, q := CutAtColon(id.tag);
      Regroup(id.repo, p, q, id.subscriberToken);
      assert ReleaseMessage(id.repo + ":" + p, q, id.subscriberToken) != id;
    } else {
      var p, q := CutAtColon(id.subscriberToken);
      Regroup(id.repo, id.tag, p, q);
      assert ReleaseMessage(id.repo, id.tag + ":" + p, q) != id;
    }
  }

  /** A release id stands for one release exactly when none of its three fields
      contains a ':'. */
  lemma ReleaseIdIsUnambiguousExactly(id: MessageId)
    requires id.ReleaseMessage?
    ensures Unambiguous(id) <==> ':' !in id.repo && ':' !in id.tag && ':' !in id.subscriberToken
  {
    if ':' !in id.repo && ':' !in id.tag && ':' !in id.subscriberToken {
      forall other: MessageId | other.ReleaseMessage? && Render(other) == Render(id) ensures other == id {
        NoColonsIsUnambiguous(id, other);
      }
    } else {
      ColonIsAmbiguous(id);
    }
  }

  // ------------------------------------------------------------ path.Base of a URL

  function StripSlashes(p: string): string {
    if p != "" && p[|p| - 1] == '/' then StripSlashes(p[..|p| - 1]) else p
  }

  function AfterLastSlash(p: string): string {
    if p == "" || p[|p| - 1] == '/' then "" else AfterLastSlash(p[..|p| - 1]) + [p[|p| - 1]]
  }

  function Base(p: string): string {
    if p == "" then "."
    else if StripSlashes(p) == "" then "/"
    else AfterLastSlash(StripSlashes(p))
  }

  function ConfirmUrl(baseUrl: string, token: Token): string { baseUrl + "/api/confirm/" + token }

  lemma {:induction false} LastSegment(p: string, token: string)
    requires '/' !in token
    ensures AfterLastSlash(p + "/" + token) == token
    decreases |token|
  {
    var s := p + "/" + token;
    if token != "" {
      var t := token[..|token| - 1];
      assert s[..|s| - 1] == p + "/" + t;
      LastSegment(p, t);
    }
  }

  lemma {:induction false} AfterLastSlashIsFlat(p: string)
    ensures '/' !in AfterLastSlash(p)
    decreases |p|
  {
    if p != "" && p[|p| - 1] != '/' { AfterLastSlashIsFlat(p[..|p| - 1]); }
  }

  lemma {:induction false} StripKeeps(p: string, q: string)
    requires p != "" && p[|p| - 1] != '/'
    ensures p <= StripSlashes(p + q)
    decreases |q|
  {
    var s := p + q;
    if q == "" {
      assert s == p;
    } else if s[|s| - 1] == '/' {
      assert s[..|s| - 1] == p + q[..|q| - 1];
      StripKeeps(p, q[..|q| - 1]);
    }
  }

  /** The gRPC server derives from the link the same key the broker message
      carries exactly when the token is non-empty and free of '/'. */
  lemma GrpcKeyIsBrokerKey(baseUrl: string, token: Token)
    ensures "confirm:" + Base(ConfirmUrl(baseUrl, token)) == Render(ConfirmMessage(token)) <==>
            token != "" && '/' !in token
  {
    var url := ConfirmUrl(baseUrl, token);
    PrefixCancels("confirm:", Base(url), token);
    var stem := baseUrl + "/api/confirm";
    assert url == stem + ("/" + token) && url == stem + "/" + token;
    StripKeeps(stem, "/" + token);
    AfterLastSlashIsFlat(StripSlashes(url));
    if token == "" {
      assert url[..|url| - 1] == stem && StripSlashes(url) == stem;
      assert stem == (baseUrl + "/api") + "/" + "confirm";
      LastSegment(baseUrl + "/api", "confirm");
    } else if '/' !in token {
      assert url[|url| - 1] == token[|token| - 1];
      LastSegment(stem, token);
    }
  }
}
