/** Route limits, bucket keys, and what sharing one bucket between routes amounts to. */
module Middleware {
  import opened Wrappers
  import opened RateLimiter

  datatype Rule = Rule(prefix: string, limit: nat, window: real)

  const RATE_LIMITS := [
    Rule("/v1/auth/login", 10, 60.0),
    Rule("/v1/auth/register", 5, 60.0),
    Rule("/v1/auth/refresh", 30, 60.0),
    Rule("/v1/auth/forgot-password", 3, 60.0),
    Rule("/v1/auth/reset-password", 10, 60.0),
    Rule("/v1/auth/change-password", 10, 60.0),
    Rule("/v1/payments/tap-webhook", 120, 60.0),
    Rule("/v1/webhooks/whatsapp", 300, 60.0),
    Rule("/v1/webhooks/instagram", 120, 60.0),
    Rule("/v1/", 300, 60.0)
  ]

  const WINDOW := 60.0

  predicate StartsWith(path: string, prefix: string) {
    |prefix| <= |path| && path[..|prefix|] == prefix
  }

  /** `r` is a matching rule and no matching rule has a longer prefix. */
  ghost predicate LongestMatch(rules: seq<Rule>, path: string, r: Rule) {
    && r in rules && StartsWith(path, r.prefix)
    && forall q :: q in rules && StartsWith(path, q.prefix) ==> |q.prefix| <= |r.prefix|
  }

  /** The limit that governs a path: that of its longest matching prefix. */
  ghost function GoverningRule(path: string): (r: Option<Rule>)
    ensures r.Some? ==> LongestMatch(RATE_LIMITS, path, r.value)
    ensures r.None? ==> forall q :: q in RATE_LIMITS ==> !StartsWith(path, q.prefix)
  {
    BestAmong(RATE_LIMITS, path)
  }

  /** Exactly the versioned paths are limited. */
  lemma LimitedPaths(path: string)
    ensures GoverningRule(path).Some? <==> StartsWith(path, "/v1/")
  {
    if StartsWith(path, "/v1/") {
      assert RATE_LIMITS[9] in RATE_LIMITS && RATE_LIMITS[9].prefix == "/v1/";
    }
    forall q | q in RATE_LIMITS && StartsWith(path, q.prefix)
      ensures StartsWith(path, "/v1/")
    {
      RulesAreVersioned(q);
      assert path[..4] == path[..|q.prefix|][..4];
    }
  }

  lemma RulesAreVersioned(q: Rule)
    requires q in RATE_LIMITS
    ensures StartsWith(q.prefix, "/v1/") && q.window == WINDOW
  {
  }

  ghost function BestAmong(rules: seq<Rule>, path: string): (r: Option<Rule>)
    ensures r.Some? ==> LongestMatch(rules, path, r.value)
    ensures r.None? ==> forall q :: q in rules ==> !StartsWith(path, q.prefix)
  {
    if rules == [] then None
    else
      var q, rest := rules[|rules| - 1], BestAmong(rules[..|rules| - 1], path);
      if StartsWith(path, q.prefix) && (rest.None? || |q.prefix| > |rest.value.prefix|)
      then Some(q) else rest
  }

  method MatchLimit(path: string) returns (r: Option<Rule>)
    ensures r == GoverningRule(path)
  {
    var best: Option<Rule> := None;
    for i := 0 to |RATE_LIMITS|
      invariant best == BestAmong(RATE_LIMITS[..i], path)
    {
      assert RATE_LIMITS[..i + 1][..i] == RATE_LIMITS[..i];
      var q := RATE_LIMITS[i];
      if StartsWith(path, q.prefix) {
        if best.None? || |q.prefix| > |best.value.prefix| {
          best := Some(q);
        }
      }
    }
    assert RATE_LIMITS[..|RATE_LIMITS|] == RATE_LIMITS;
    r := best;
  }

  // ---------- Bucket keys ----------

  /** `path.find('/', from)`: the first slash at or after `from`, or -1. */
  function FindSlash(path: string, from: nat): (i: int)
    ensures i == -1 || from <= i < |path|
    ensures 0 <= i ==> path[i] == '/' && forall j :: from <= j < i ==> path[j] != '/'
    ensures i == -1 ==> forall j :: from <= j < |path| ==> path[j] != '/'
    decreases |path| - from
  {
    if from >= |path| then -1 else if path[from] == '/' then from else FindSlash(path, from + 1)
  }

  /** `path[: path.find('/', 4)]` under /v1/: a miss is -1, which cuts the last character. */
  function BucketPath(path: string): string {
    if StartsWith(path, "/v1/") then
      var i := FindSlash(path, 4);
      if i == -1 then path[..|path| - 1] else path[..i]
    else path
  }

  function BucketKey(path: string, client: string): string {
    "rl:" + BucketPath(path) + ":" + client
  }

  /** The part of a /v1/ path the key is meant to keep. */
  ghost function FirstPart(path: string): string
    requires StartsWith(path, "/v1/")
  {
    var i := FindSlash(path, 4);
    if i == -1 then path else path[..i]
  }

  /** The key keeps the first path part exactly when a slash follows that part. */
  lemma BucketIsFirstPart(path: string)
    requires StartsWith(path, "/v1/")
    ensures BucketPath(path) == FirstPart(path) <==> exists i :: 4 <= i < |path| && path[i] == '/'
  {
  }

  /** A collection and its items are counted apart, and the collection shares a bucket
      with an unrelated part one letter shorter. */
  lemma CollectionAndItemDiffer()
    ensures BucketPath("/v1/deals") != BucketPath("/v1/deals/7")
    ensures BucketPath("/v1/deals") == BucketPath("/v1/deal/7")
  {
  }

  /** Every route below one first part shares one key per client, whatever its limit. */
  lemma SamePartSameBucket(part: string, r1: string, r2: string, client: string)
    requires '/' !in part
    ensures BucketKey("/v1/" + part + "/" + r1, client) == BucketKey("/v1/" + part + "/" + r2, client)
  {
    PartOf(part, r1);
    PartOf(part, r2);
  }

  /** Two clients never share a bucket on one path, and without a colon in the paths a bucket
      is that of one part and one client. */
  lemma BucketsAreApart(p: string, c: string, q: string, d: string)
    ensures BucketKey(p, c) == BucketKey(p, d) <==> c == d
    ensures ':' !in p && ':' !in q ==>
              (BucketKey(p, c) == BucketKey(q, d) <==> BucketPath(p) == BucketPath(q) && c == d)
  {
    var key := BucketKey(p, c);
    assert c == key[|key| - |c|..];
    assert BucketKey(p, d)[|"rl:" + BucketPath(p) + ":"|..] == d && key[|"rl:" + BucketPath(p) + ":"|..] == c;
    if ':' !in p && ':' !in q && BucketKey(p, c) == BucketKey(q, d) {
      assert key[3..] == BucketPath(p) + [':'] + c && BucketKey(q, d)[3..] == BucketPath(q) + [':'] + d;
      SplitAtFirst(':', BucketPath(p), c, BucketPath(q), d);
    }
  }

  /** With one in a path, two clients can share a key. */
  lemma ColonsCollide()
    ensures BucketKey("/v1/a:ip:1/x", "ip:2") == BucketKey("/v1/a/x", "ip:1:ip:2")
  {
    assert FindSlash("/v1/a:ip:1/x", 4) == 10 && FindSlash("/v1/a/x", 4) == 5;
  }

  lemma PartOf(part: string, rest: string)
    requires '/' !in part
    ensures BucketPath("/v1/" + part + "/" + rest) == "/v1/" + part
  {
    var p := "/v1/" + part + "/" + rest;
    assert p[..4] == "/v1/";
    assert p[4 + |part|] == '/' && p[..4 + |part|] == "/v1/" + part;
    assert forall j :: 4 <= j < 4 + |part| ==> p[j] == part[j - 4];
    assert FindSlash(p, 4) == 4 + |part|;
  }

  // ---------- A sequential run over all routes and clients ----------

  /** A request as the limiter sees it: its bucket key and the limit of its own route,
      or no limit at all when it is not under /v1/. */
  datatype Call = Call(key: string, limit: Option<int>, at: real)

  ghost function Route(path: string, client: string, at: real): Call {
    var r := GoverningRule(path);
    Call(BucketKey(path, client), if r.Some? then Some(r.value.limit) else None, at)
  }

  /** Calls come in the order of their clock readings. */
  ghost predicate Ordered(calls: seq<Call>) {
    calls == [] || (var n := |calls| - 1;
      Ordered(calls[..n]) && (if n == 0 then 0.0 else calls[n - 1].at) <= calls[n].at)
  }

  lemma {:induction false} OrderedPrefix(calls: seq<Call>, i: nat)
    requires Ordered(calls) && i <= |calls|
    ensures Ordered(calls[..i])
  {
    if i < |calls| {
      OrderedPrefix(calls[..|calls| - 1], i);
      assert calls[..|calls| - 1][..i] == calls[..i];
    } else {
      assert calls[..i] == calls;
    }
  }

  /** One call served alone: both steps of `check` run before the next call. */
  ghost function Events(s: Sys, at: real, limit: int): seq<Event> {
    if Passes(s, at, limit) then [Begin(at, limit), Finish(|s.accepted|, at)] else [Begin(at, limit)]
  }

  /** One bucket after a run of calls to all buckets. */
  ghost function BucketRun(key: string, calls: seq<Call>): (s: Sys)
    requires Ordered(calls)
    ensures Inv(s) && s.inflight == {} && s.window == WINDOW
    ensures if calls == [] then s.clock == 0.0 else s.clock <= calls[|calls| - 1].at
  {
    if calls == [] then Init(WINDOW, 0.0)
    else
      var n := |calls| - 1;
      var s, c := BucketRun(key, calls[..n]), calls[n];
      if c.key != key || c.limit.None? then s
      else
        ServeAlone(s, c.at, c.limit.value);
        Run(s, Events(s, c.at, c.limit.value))
  }

  lemma ServeAlone(s: Sys, at: real, limit: int)
    requires Inv(s) && s.inflight == {} && s.clock <= at
    ensures var es := Events(s, at, limit);
            && LegalRun(s, es) && AtMostInFlight(s, es, 1)
            && Inv(Run(s, es)) && Run(s, es).inflight == {}
            && Run(s, es).clock == at && Run(s, es).window == s.window
            && Run(s, es).accepted == s.accepted + if Passes(s, at, limit) then [Req(at, limit)] else []
  {
    var s1 := Step(s, Begin(at, limit));
    assert LegalRun(s1, []) && Run(s1, []) == s1;
    if Passes(s, at, limit) {
      var finish := Finish(|s.accepted|, at);
      assert s1.inflight == {|s.accepted|};
      var s2 := Step(s1, finish);
      assert s2.inflight == {};
      assert LegalRun(s2, []) && Run(s2, []) == s2 && AtMostInFlight(s2, [], 1);
      assert [finish][0] == finish && [finish][1..] == [];
      assert LegalRun(s1, [finish]) && Run(s1, [finish]) == s2 && AtMostInFlight(s1, [finish], 1);
      assert [Begin(at, limit), finish][1..] == [finish];
    }
    RunKeepsInv(s, Events(s, at, limit));
  }

  ghost predicate Admitted(calls: seq<Call>, i: nat)
    requires Ordered(calls) && i < |calls|
  {
    OrderedPrefix(calls, i);
    calls[i].limit.Some? && Passes(BucketRun(calls[i].key, calls[..i]), calls[i].at, calls[i].limit.value)
  }

  ghost predicate Counted(calls: seq<Call>, key: string, l: int, t: real, i: nat)
    requires Ordered(calls) && i < |calls|
  {
    calls[i].key == key && t - WINDOW < calls[i].at <= t && Admitted(calls, i) && calls[i].limit.value <= l
  }

  /** The calls admitted on one bucket in (t - 60, t] whose own route allows at most `l`. */
  ghost function AdmittedIn(calls: seq<Call>, key: string, l: int, t: real): set<nat>
    requires Ordered(calls)
  {
    set i | 0 <= i < |calls| && Counted(calls, key, l, t, i)
  }

  /** Although a login, a registration and a password reset are counted together, each
      window holds at most l admitted calls of routes limited to l or less, for every l. */
  lemma MixedLimitsBound(calls: seq<Call>, key: string, l: nat, t: real)
    requires Ordered(calls)
    ensures |AdmittedIn(calls, key, l, t)| <= l
  {
    AdmittedAreLogged(calls, key, l, t);
    BucketBounded(calls, key, l, t);
  }

  // ---------- Who passes ----------

  lemma {:induction false} OrderedAt(calls: seq<Call>, j: nat, i: nat)
    requires Ordered(calls) && j <= i < |calls|
    ensures calls[j].at <= calls[i].at
  {
    var n := |calls| - 1;
    if i < n {
      OrderedAt(calls[..n], j, i);
    } else if j < n {
      OrderedAt(calls[..n], j, n - 1);
    }
  }

  ghost function LargestLimit(calls: seq<Call>): (l: int)
    ensures forall j :: 0 <= j < |calls| && calls[j].limit.Some? ==> calls[j].limit.value <= l
  {
    if calls == [] then 0
    else
      var n := |calls| - 1;
      var l := LargestLimit(calls[..n]);
      if calls[n].limit.Some? && calls[n].limit.value > l then calls[n].limit.value else l
  }

  ghost predicate LimitsWithin(log: seq<Req>, l: int) {
    forall j :: 0 <= j < |log| ==> log[j].limit <= l
  }

  lemma {:induction false} LogGrows(calls: seq<Call>, key: string)
    requires Ordered(calls) && calls != []
    ensures var n := |calls| - 1;
            var log, log', c := BucketRun(key, calls[..n]).accepted, BucketRun(key, calls).accepted, calls[n];
            log' == log || (c.limit.Some? && log' == log + [Req(c.at, c.limit.value)])
  {
    var n := |calls| - 1;
    var s, c := BucketRun(key, calls[..n]), calls[n];
    if c.key == key && c.limit.Some? {
      ServeAlone(s, c.at, c.limit.value);
    }
  }

  lemma {:induction false} LoggedLimits(calls: seq<Call>, key: string, l: int)
    requires Ordered(calls) && forall j :: 0 <= j < |calls| && calls[j].limit.Some? ==> calls[j].limit.value <= l
    ensures LimitsWithin(BucketRun(key, calls).accepted, l)
  {
    if calls != [] {
      LoggedLimits(calls[..|calls| - 1], key, l);
      LogGrows(calls, key);
    }
  }

  /** The earlier calls to the bucket of call `i` admitted less than 60 seconds before it. */
  ghost function Recent(calls: seq<Call>, i: nat): set<nat>
    requires Ordered(calls) && i < |calls|
  {
    set j | 0 <= j < i && calls[j].key == calls[i].key && calls[i].at - WINDOW < calls[j].at && Admitted(calls, j)
  }

  lemma {:induction false} RecentAreCounted(calls: seq<Call>, i: nat, l: int)
    requires Ordered(calls) && i < |calls| && Ordered(calls[..i])
    requires forall j :: 0 <= j < |calls| && calls[j].limit.Some? ==> calls[j].limit.value <= l
    ensures Recent(calls, i) == AdmittedIn(calls[..i], calls[i].key, l, calls[i].at)
  {
    forall j: nat | j < i
      ensures j in Recent(calls, i) <==> Counted(calls[..i], calls[i].key, l, calls[i].at, j)
    {
      CountedEarlier(calls, i, calls[i].key, l, calls[i].at, j);
      OrderedAt(calls, j, i);
    }
  }

  lemma CountingIsWindow(s: Sys, l: int, t: real)
    requires Inv(s) && s.inflight == {} && s.clock <= t
    requires LimitsWithin(s.accepted, l)
    ensures Counting(s, t) == Window(s, l, t)
  {
  }

  lemma {:induction false} ClockIsEarlier(calls: seq<Call>, i: nat, clock: real)
    requires Ordered(calls) && i < |calls|
    requires if i == 0 then clock == 0.0 else clock <= calls[i - 1].at
    ensures clock <= calls[i].at
  {
    if i > 0 {
      OrderedAt(calls, i - 1, i);
    } else {
      FirstIsNotNegative(calls);
    }
  }

  lemma {:induction false} RecentAreLogged(calls: seq<Call>, i: nat, l: int)
    requires Ordered(calls) && i < |calls| && Ordered(calls[..i])
    requires forall j :: 0 <= j < |calls| && calls[j].limit.Some? ==> calls[j].limit.value <= l
    ensures |Window(BucketRun(calls[i].key, calls[..i]), l, calls[i].at)| == |Recent(calls, i)|
  {
    AdmittedAreLogged(calls[..i], calls[i].key, l, calls[i].at);
    RecentAreCounted(calls, i, l);
  }

  lemma {:induction false} BucketIsEarlier(calls: seq<Call>, i: nat, before: seq<Call>)
    requires Ordered(calls) && i < |calls| && before == calls[..i] && Ordered(before)
    ensures BucketRun(calls[i].key, before).clock <= calls[i].at
  {
    ClockIsEarlier(calls, i, BucketRun(calls[i].key, before).clock);
  }

  lemma {:induction false} RecentAreCounting(calls: seq<Call>, i: nat, before: seq<Call>)
    requires Ordered(calls) && i < |calls| && before == calls[..i] && Ordered(before)
    requires BucketRun(calls[i].key, before).clock <= calls[i].at
    ensures |Counting(BucketRun(calls[i].key, before), calls[i].at)| == |Recent(calls, i)|
  {
    var l := LargestLimit(calls);
    RecentAreLogged(calls, i, l);
    LoggedLimits(before, calls[i].key, l);
    CountingIsWindow(BucketRun(calls[i].key, before), l, calls[i].at);
  }

  /** A limited call passes if and only if fewer than its own limit of the earlier calls to
      its bucket were admitted in the last 60 seconds, whatever their limits. */
  lemma {:induction false} PassesIff(calls: seq<Call>, i: nat)
    requires Ordered(calls) && i < |calls| && calls[i].limit.Some?
    ensures Admitted(calls, i) <==> |Recent(calls, i)| < calls[i].limit.value
  {
    OrderedPrefix(calls, i);
    BucketIsEarlier(calls, i, calls[..i]);
    RecentAreCounting(calls, i, calls[..i]);
    var s := BucketRun(calls[i].key, calls[..i]);
    DecidesAsIdealLog(s, calls[i].at, calls[i].limit.value);
  }

  lemma {:induction false} FirstIsNotNegative(calls: seq<Call>)
    requires Ordered(calls) && calls != []
    ensures 0.0 <= calls[0].at
  {
    if |calls| > 1 {
      FirstIsNotNegative(calls[..|calls| - 1]);
    }
  }

  /** A request as it arrives at the middleware. */
  datatype Request = Request(path: string, client: string, at: real)

  ghost function Routes(rs: seq<Request>): (calls: seq<Call>)
    ensures |calls| == |rs|
    ensures forall i :: 0 <= i < |rs| ==> calls[i] == Route(rs[i].path, rs[i].client, rs[i].at)
  {
    seq(|rs|, i requires 0 <= i < |rs| => Route(rs[i].path, rs[i].client, rs[i].at))
  }

  /** Request `i` passed, its path's longest matching rule allows at most `l`, and it was
      counted in the bucket of `path` and `client` within (t - 60, t]. */
  ghost predicate PassedIn(rs: seq<Request>, path: string, client: string, l: int, t: real, i: nat)
    requires Ordered(Routes(rs)) && i < |rs|
  {
    && Admitted(Routes(rs), i) && GoverningRule(rs[i].path).Some? && GoverningRule(rs[i].path).value.limit <= l
    && BucketKey(rs[i].path, rs[i].client) == BucketKey(path, client) && t - WINDOW < rs[i].at <= t
  }

  /** The earlier request `j` was counted in the bucket of request `i` in the last 60 seconds. */
  ghost predicate CountsFor(rs: seq<Request>, i: nat, j: nat)
    requires Ordered(Routes(rs)) && i < |rs| && j < |rs|
  {
    && BucketKey(rs[j].path, rs[j].client) == BucketKey(rs[i].path, rs[i].client)
    && rs[i].at - 60.0 < rs[j].at && Admitted(Routes(rs), j)
  }

  lemma RecentRequests(rs: seq<Request>, i: nat)
    requires Ordered(Routes(rs)) && i < |rs|
    ensures (set j | 0 <= j < i && CountsFor(rs, i, j)) == Recent(Routes(rs), i)
  {
    var calls := Routes(rs);
    forall j | 0 <= j <= i
      ensures calls[j].key == BucketKey(rs[j].path, rs[j].client) && calls[j].at == rs[j].at
    {
      assert calls[j] == Route(rs[j].path, rs[j].client, rs[j].at);
    }
  }

  lemma LimitOfRoute(rs: seq<Request>, i: nat)
    requires i < |rs| && StartsWith(rs[i].path, "/v1/")
    ensures GoverningRule(rs[i].path).Some?
    ensures Routes(rs)[i].limit == Some(GoverningRule(rs[i].path).value.limit)
  {
    LimitedPaths(rs[i].path);
    assert Routes(rs)[i] == Route(rs[i].path, rs[i].client, rs[i].at);
  }

  /** A request for a versioned path passes if and only if fewer than the limit of its longest
      matching rule were counted before it in its bucket. */
  lemma RequestPassesIff(rs: seq<Request>, i: nat)
    requires Ordered(Routes(rs)) && i < |rs| && StartsWith(rs[i].path, "/v1/")
    ensures GoverningRule(rs[i].path).Some?
    ensures Admitted(Routes(rs), i) <==>
            |set j | 0 <= j < i && CountsFor(rs, i, j)| < GoverningRule(rs[i].path).value.limit
  {
    LimitOfRoute(rs, i);
    PassesIff(Routes(rs), i);
    RecentRequests(rs, i);
  }

  /** The same for requests: through one bucket, at most l of those whose own rule allows at
      most l pass in any window. */
  lemma RequestsBound(rs: seq<Request>, path: string, client: string, l: nat, t: real)
    requires Ordered(Routes(rs))
    ensures |set i | 0 <= i < |rs| && PassedIn(rs, path, client, l, t, i)| <= l
  {
    MixedLimitsBound(Routes(rs), BucketKey(path, client), l, t);
    assert (set i | 0 <= i < |rs| && PassedIn(rs, path, client, l, t, i))
        == AdmittedIn(Routes(rs), BucketKey(path, client), l, t) by {
      forall i: nat | i < |rs|
        ensures PassedIn(rs, path, client, l, t, i) <==> Counted(Routes(rs), BucketKey(path, client), l, t, i)
      {
        assert Routes(rs)[i] == Route(rs[i].path, rs[i].client, rs[i].at);
      }
    }
  }

  lemma {:induction false} BucketBounded(calls: seq<Call>, key: string, l: int, t: real)
    requires Ordered(calls)
    ensures Bounded(BucketRun(key, calls), l, t, 1)
  {
    if calls != [] {
      var n := |calls| - 1;
      BucketBounded(calls[..n], key, l, t);
      var s, c := BucketRun(key, calls[..n]), calls[n];
      if c.key == key && c.limit.Some? {
        ServeAlone(s, c.at, c.limit.value);
        ConcurrentBound(s, Events(s, c.at, c.limit.value), l, t, 1);
      }
    }
  }

  lemma {:induction false} AdmittedAreLogged(calls: seq<Call>, key: string, l: int, t: real)
    requires Ordered(calls)
    ensures |AdmittedIn(calls, key, l, t)| == |Window(BucketRun(key, calls), l, t)|
  {
    if calls != [] {
      var n := |calls| - 1;
      AdmittedAreLogged(calls[..n], key, l, t);
      AdmittedStep(calls, key, l, t);
      LoggedStep(calls, key, l, t);
    }
  }

  lemma LoggedStep(calls: seq<Call>, key: string, l: int, t: real)
    requires Ordered(calls) && calls != []
    ensures var n := |calls| - 1;
            |Window(BucketRun(key, calls), l, t)|
            == |Window(BucketRun(key, calls[..n]), l, t)| + if Counted(calls, key, l, t, n) then 1 else 0
  {
    var n := |calls| - 1;
    var s, c := BucketRun(key, calls[..n]), calls[n];
    if c.key == key && c.limit.Some? {
      ServeAlone(s, c.at, c.limit.value);
      WindowCount(s, BucketRun(key, calls), c.at, c.limit.value, l, t);
    }
  }

  lemma WindowCount(s: Sys, s': Sys, at: real, limit: int, l: int, t: real)
    requires s.window == s'.window
    requires s'.accepted == s.accepted + if Passes(s, at, limit) then [Req(at, limit)] else []
    ensures |Window(s', l, t)| == |Window(s, l, t)|
              + if Passes(s, at, limit) && limit <= l && t - s.window < at <= t then 1 else 0
  {
    WindowStep(s, s', at, limit, l, t);
    assert |s.accepted| !in Window(s, l, t);
  }

  lemma AdmittedStep(calls: seq<Call>, key: string, l: int, t: real)
    requires Ordered(calls) && calls != []
    ensures var n := |calls| - 1;
            |AdmittedIn(calls, key, l, t)|
            == |AdmittedIn(calls[..n], key, l, t)| + if Counted(calls, key, l, t, n) then 1 else 0
  {
    var n := |calls| - 1;
    var earlier := AdmittedIn(calls[..n], key, l, t);
    forall i: nat | i < n
      ensures i in AdmittedIn(calls, key, l, t) <==> i in earlier
    {
      CountedEarlier(calls, n, key, l, t, i);
    }
    AddTop(AdmittedIn(calls, key, l, t), earlier, n);
  }

  lemma AddTop(a: set<nat>, b: set<nat>, n: nat)
    requires forall i :: i in b ==> i < n
    requires forall i :: i in a ==> i <= n
    requires forall i: nat :: i < n ==> (i in a <==> i in b)
    ensures |a| == |b| + if n in a then 1 else 0
  {
    assert a == b + if n in a then {n} else {};
  }

  lemma CountedEarlier(calls: seq<Call>, n: nat, key: string, l: int, t: real, i: nat)
    requires Ordered(calls) && i < n <= |calls| && Ordered(calls[..n])
    ensures Counted(calls[..n], key, l, t, i) == Counted(calls, key, l, t, i)
  {
    assert calls[..n][..i] == calls[..i];
  }

  lemma WindowStep(s: Sys, s': Sys, at: real, limit: int, l: int, t: real)
    requires s.window == s'.window
    requires s'.accepted == s.accepted + if Passes(s, at, limit) then [Req(at, limit)] else []
    ensures Window(s', l, t) == Window(s, l, t)
              + if Passes(s, at, limit) && limit <= l && t - s.window < at <= t then {|s.accepted|} else {}
  {
  }
}
