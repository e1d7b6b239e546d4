/** The Redis sliding-window limiter: one sorted set per bucket key, pruned and
    counted in one round trip, extended and re-expired in a second one. */
module RateLimiter {
  import opened Wrappers

  // ---------- The contract of one Redis key holding a sorted set ----------

  /** Members are named by a never-repeating number, as the uuid4 suffix makes them. */
  datatype Bucket = Bucket(members: map<nat, real>, expireAt: Option<real>)

  const EMPTY := Bucket(map[], None)

  /** The key as a command issued at `now` finds it: gone once its deadline has passed. */
  function Live(b: Bucket, now: real): Bucket {
    if b.expireAt.Some? && b.expireAt.value <= now then EMPTY else b
  }

  /** ZREMRANGEBYSCORE; Redis deletes a key, deadline included, when its set becomes empty. */
  function ZRemRangeByScore(b: Bucket, lo: real, hi: real): Bucket {
    var kept := map i | i in b.members && !(lo <= b.members[i] <= hi) :: b.members[i];
    if kept == map[] then EMPTY else b.(members := kept)
  }

  function ZCard(b: Bucket): nat {
    |b.members|
  }

  /** ZADD followed by EXPIRE, executed by the server at time `at`. */
  function ZAddExpire(b: Bucket, id: nat, score: real, at: real, window: real): Bucket {
    Bucket(Live(b, at).members[id := score], Some(at + window))
  }

  /** The first pipeline of `check`: prune everything at or before the window start. */
  function Pruned(b: Bucket, now: real, window: real): Bucket {
    ZRemRangeByScore(Live(b, now), 0.0, now - window)
  }

  datatype Info = Info(limit: int, remaining: int, reset: int)

  datatype RateLimitError = RateLimitError(existing: nat, limit: int)

  class RateLimiter {
    var keys: map<string, Bucket>

    function Get(key: string): Bucket
      reads this
    {
      if key in keys then keys[key] else EMPTY
    }

    constructor ()
      ensures keys == map[]
    {
      keys := map[];
    }

    /** Step 1 of `check`: prune, then count. */
    method PruneAndCount(key: string, now: real, window: real) returns (existing: nat)
      modifies this
      ensures keys == old(keys)[key := Pruned(old(Get(key)), now, window)]
      ensures existing == ZCard(Get(key))
    {
      keys := keys[key := ZRemRangeByScore(Live(Get(key), now), 0.0, now - window)];
      existing := ZCard(Get(key));
    }

    /** Step 2 of `check`: register the request under the clock value read before step 1. */
    method Register(key: string, id: nat, now: real, at: real, window: real)
      modifies this
      ensures keys == old(keys)[key := ZAddExpire(old(Get(key)), id, now, at, window)]
    {
      keys := keys[key := ZAddExpire(Get(key), id, now, at, window)];
    }

    /** The whole call when nobody runs between its two steps. A refused request
        leaves nothing behind except the pruning. */
    method Check(key: string, limit: int, window: real, now: real, id: nat, at: real)
      returns (r: Result<Info, RateLimitError>)
      modifies this
      ensures forall other :: other != key && other in old(keys) ==> other in keys && keys[other] == old(keys)[other]
      ensures var pruned := Pruned(old(Get(key)), now, window);
              if ZCard(pruned) >= limit then
                r == Failure(RateLimitError(ZCard(pruned), limit)) && Get(key) == pruned
              else
                && r.Success?
                && r.value == Info(limit, limit - ZCard(pruned) - 1, (now + window).Floor)
                && 0 <= r.value.remaining < limit
                && Get(key) == ZAddExpire(pruned, id, now, at, window)
    {
      var existing := PruneAndCount(key, now, window);
      if existing >= limit {
        return Failure(RateLimitError(existing, limit));
      }
      Register(key, id, now, at, window);
      var left := limit - (existing + 1);
      r := Success(Info(limit, if left > 0 then left else 0, (now + window).Floor));
    }
  }

  // ---------- Many callers on one key: a caller may sit between the two steps ----------

  /** A request that passed the count: when it read the clock and the limit of its route. */
  datatype Req = Req(time: real, limit: int)

  /** `accepted` lists every request that passed the count, in that order; those in
      `inflight` have not been registered yet. Positions serve as member names. */
  datatype Sys = Sys(window: real, bucket: Bucket, clock: real, accepted: seq<Req>, inflight: set<nat>)

  datatype Event =
    | Begin(now: real, limit: int)   // clock read, prune, count, refuse or pass
    | Finish(id: nat, at: real)      // add and expire

  function Init(window: real, clock: real): Sys {
    Sys(window, EMPTY, clock, [], {})
  }

  ghost predicate Legal(s: Sys, e: Event) {
    match e
    case Begin(now, _) => s.clock <= now
    case Finish(id, at) => id in s.inflight && id < |s.accepted| && s.clock <= at
  }

  predicate Passes(s: Sys, now: real, limit: int) {
    ZCard(Pruned(s.bucket, now, s.window)) < limit
  }

  function Step(s: Sys, e: Event): Sys
    requires Legal(s, e)
  {
    match e
    case Begin(now, limit) =>
      var s' := s.(bucket := Pruned(s.bucket, now, s.window), clock := now);
      if Passes(s, now, limit)
      then s'.(accepted := s.accepted + [Req(now, limit)], inflight := s.inflight + {|s.accepted|})
      else s'
    case Finish(id, at) =>
      s.(bucket := ZAddExpire(s.bucket, id, s.accepted[id].time, at, s.window),
         clock := at, inflight := s.inflight - {id})
  }

  ghost predicate LegalRun(s: Sys, es: seq<Event>)
    decreases |es|
  {
    es == [] || (Legal(s, es[0]) && LegalRun(Step(s, es[0]), es[1..]))
  }

  function Run(s: Sys, es: seq<Event>): Sys
    requires LegalRun(s, es)
    decreases |es|
  {
    if es == [] then s else Run(Step(s, es[0]), es[1..])
  }

  /** At most `k` callers ever sit between the two steps. */
  ghost predicate AtMostInFlight(s: Sys, es: seq<Event>, k: nat)
    requires LegalRun(s, es)
    decreases |es|
  {
    |s.inflight| <= k && (es == [] || AtMostInFlight(Step(s, es[0]), es[1..], k))
  }

  ghost predicate Inv(s: Sys) {
    && 0.0 < s.window
    && 0.0 <= s.clock
    && (forall i :: i in s.inflight ==> i < |s.accepted|)
    && (forall i :: 0 <= i < |s.accepted| ==> 0.0 <= s.accepted[i].time <= s.clock)
    && (forall i :: i in s.bucket.members ==>
          && i < |s.accepted| && i !in s.inflight && s.bucket.members[i] == s.accepted[i].time
          && (s.bucket.expireAt.Some? ==> s.accepted[i].time + s.window <= s.bucket.expireAt.value))
    && (forall i :: 0 <= i < |s.accepted| && i !in s.inflight && s.clock - s.window < s.accepted[i].time ==>
          i in s.bucket.members)
  }

  lemma StepKeepsInv(s: Sys, e: Event)
    requires Inv(s) && Legal(s, e)
    ensures Inv(Step(s, e))
  {
    if e.Begin? {
      BeginKeepsInv(s, e.now, e.limit);
    } else {
      FinishKeepsInv(s, e.id, e.at);
    }
  }

  /** Pruning keeps exactly the live entries after the window start, as they were. */
  lemma PrunedMeans(b: Bucket, now: real, window: real, i: nat)
    requires forall j :: j in b.members ==> 0.0 <= b.members[j]
    ensures var p := Pruned(b, now, window);
            && (i in p.members <==> i in Live(b, now).members && now - window < b.members[i])
            && (i in p.members ==> p.members[i] == b.members[i] && p.expireAt == b.expireAt)
  {
  }

  lemma PruningKeepsInv(s: Sys, now: real)
    requires Inv(s) && s.clock <= now
    ensures Inv(s.(bucket := Pruned(s.bucket, now, s.window), clock := now))
  {
    var p := Pruned(s.bucket, now, s.window);
    forall i: nat
      ensures i in p.members <==> i in Live(s.bucket, now).members && now - s.window < s.bucket.members[i]
      ensures i in p.members ==> p.members[i] == s.bucket.members[i] && p.expireAt == s.bucket.expireAt
    {
      PrunedMeans(s.bucket, now, s.window, i);
    }
  }

  lemma AcceptingKeepsInv(s: Sys, limit: int)
    requires Inv(s)
    ensures Inv(s.(accepted := s.accepted + [Req(s.clock, limit)], inflight := s.inflight + {|s.accepted|}))
  {
  }

  lemma BeginKeepsInv(s: Sys, now: real, limit: int)
    requires Inv(s) && s.clock <= now
    ensures Inv(Step(s, Begin(now, limit)))
  {
    PruningKeepsInv(s, now);
    AcceptingKeepsInv(s.(bucket := Pruned(s.bucket, now, s.window), clock := now), limit);
  }

  lemma FinishKeepsInv(s: Sys, id: nat, at: real)
    requires Inv(s) && Legal(s, Finish(id, at))
    ensures Inv(Step(s, Finish(id, at)))
  {
  }

  lemma {:induction false} RunKeepsInv(s: Sys, es: seq<Event>)
    requires Inv(s) && LegalRun(s, es)
    ensures Inv(Run(s, es))
    decreases |es|
  {
    if es != [] {
      StepKeepsInv(s, es[0]);
      RunKeepsInv(Step(s, es[0]), es[1..]);
    }
  }

  // ---------- Idle keys ----------

  /** A key that holds anything has a deadline within a window from now. */
  ghost predicate HasDeadline(s: Sys) {
    s.bucket.members != map[] ==> s.bucket.expireAt.Some? && s.bucket.expireAt.value <= s.clock + s.window
  }

  lemma StepKeepsDeadline(s: Sys, e: Event)
    requires HasDeadline(s) && Legal(s, e)
    ensures HasDeadline(Step(s, e))
  {
  }

  /** Over every run: once nobody has called for a whole window, the key is gone. */
  lemma {:induction false} IdleKeysVanish(s: Sys, es: seq<Event>, t: real)
    requires HasDeadline(s) && LegalRun(s, es) && Run(s, es).clock + Run(s, es).window <= t
    ensures Live(Run(s, es).bucket, t).members == map[]
    decreases |es|
  {
    if es != [] {
      StepKeepsDeadline(s, es[0]);
      IdleKeysVanish(Step(s, es[0]), es[1..], t);
    }
  }

  // ---------- Refinement: the ideal log that never forgets ----------

  /** The registered requests an ideal log would still count at `now`. */
  ghost function Counting(s: Sys, now: real): set<nat> {
    set i | 0 <= i < |s.accepted| && i !in s.inflight && now - s.window < s.accepted[i].time
  }

  /** Neither pruning nor key expiry ever drops an entry that still counts, and nothing
      that stopped counting is left: every decision is the ideal log's. */
  lemma DecidesAsIdealLog(s: Sys, now: real, limit: int)
    requires Inv(s) && s.clock <= now
    ensures Pruned(s.bucket, now, s.window).members.Keys == Counting(s, now)
    ensures Passes(s, now, limit) <==> |Counting(s, now)| < limit
  {
  }

  /** The run with every refused call left out. */
  ghost function Trimmed(s: Sys, es: seq<Event>): seq<Event>
    requires LegalRun(s, es)
    decreases |es|
  {
    if es == [] then []
    else
      var rest := Trimmed(Step(s, es[0]), es[1..]);
      if es[0].Begin? && !Passes(s, es[0].now, es[0].limit) then rest else [es[0]] + rest
  }

  /** The decisions of a run, one per call of `check`. */
  ghost function Decisions(s: Sys, es: seq<Event>): seq<bool>
    requires LegalRun(s, es)
    decreases |es|
  {
    if es == [] then []
    else
      (if es[0].Begin? then [Passes(s, es[0].now, es[0].limit)] else [])
      + Decisions(Step(s, es[0]), es[1..])
  }

  /** Two limiters that have admitted and registered the same requests. */
  ghost predicate SameLog(s: Sys, t: Sys) {
    s.window == t.window && s.accepted == t.accepted && s.inflight == t.inflight && t.clock <= s.clock
  }

  /** Refused calls are invisible: without them every remaining call still passes, with
      the same time and position, and the same requests end up admitted and in flight. */
  lemma {:induction false} RefusalsLeaveNoTrace(s: Sys, t: Sys, es: seq<Event>)
    requires Inv(s) && Inv(t) && SameLog(s, t) && LegalRun(s, es)
    ensures LegalRun(t, Trimmed(s, es))
    ensures SameLog(Run(s, es), Run(t, Trimmed(s, es)))
    ensures forall d :: d in Decisions(t, Trimmed(s, es)) ==> d
    decreases |es|
  {
    if es != [] {
      var e := es[0];
      var s' := Step(s, e);
      StepKeepsInv(s, e);
      if e.Begin? {
        DecidesAsIdealLog(s, e.now, e.limit);
        DecidesAsIdealLog(t, e.now, e.limit);
        assert Counting(s, e.now) == Counting(t, e.now);
      }
      if e.Begin? && !Passes(s, e.now, e.limit) {
        RefusalsLeaveNoTrace(s', t, es[1..]);
      } else {
        StepKeepsInv(t, e);
        RefusalsLeaveNoTrace(s', Step(t, e), es[1..]);
        var trimmed := Trimmed(s, es);
        assert trimmed[0] == e && trimmed[1..] == Trimmed(s', es[1..]);
      }
    }
  }

  // ---------- The bound, for routes of different limits sharing the key ----------

  /** Admitted requests of routes with limit at most `l` whose clock value lies in (t - window, t]. */
  ghost function Window(s: Sys, l: int, t: real): set<nat> {
    set i | 0 <= i < |s.accepted| && s.accepted[i].limit <= l && t - s.window < s.accepted[i].time <= t
  }

  ghost predicate Bounded(s: Sys, l: int, t: real, k: nat) {
    Window(s, l, t) == {} || |Window(s, l, t)| <= l + k - 1
  }

  /** Whoever passes the count at `now` shares its window with the registered requests
      that still count and with the callers in flight, and with nobody else. */
  lemma NewcomerWindow(s: Sys, now: real, limit: int, l: int, t: real)
    requires Inv(s) && s.clock <= now <= t
    ensures Window(Step(s, Begin(now, limit)), l, t) <= {|s.accepted|} + Counting(s, now) + s.inflight
  {
  }

  lemma NewcomerFits(s: Sys, now: real, limit: int, l: int, t: real, k: nat)
    requires Inv(s) && s.clock <= now <= t && limit <= l && Passes(s, now, limit)
    requires |Step(s, Begin(now, limit)).inflight| <= k
    ensures Bounded(Step(s, Begin(now, limit)), l, t, k)
  {
    var n := |s.accepted|;
    DecidesAsIdealLog(s, now, limit);
    NewcomerWindow(s, now, limit, l, t);
    SubsetSize(Window(Step(s, Begin(now, limit)), l, t), {n} + Counting(s, now) + s.inflight);
    assert |s.inflight + {n}| == |s.inflight| + 1;
  }

  lemma SameWindow(s: Sys, e: Event, l: int, t: real)
    requires Legal(s, e)
    requires Step(s, e).accepted == s.accepted || (e.Begin? && (l < e.limit || t < e.now))
    ensures Window(Step(s, e), l, t) == Window(s, l, t)
  {
  }

  lemma StepKeepsBound(s: Sys, e: Event, l: int, t: real, k: nat)
    requires Inv(s) && Legal(s, e) && Bounded(s, l, t, k)
    requires |Step(s, e).inflight| <= k
    ensures Bounded(Step(s, e), l, t, k)
  {
    if Step(s, e).accepted == s.accepted || l < e.limit || t < e.now {
      SameWindow(s, e, l, t);
    } else {
      NewcomerFits(s, e.now, e.limit, l, t, k);
    }
  }

  /** Main bound. Whatever the interleaving, and although routes of different limits
      share the key, every window (t - window, t] holds at most l + k - 1 admitted
      requests of routes with limit at most l when at most k callers overlap. */
  lemma {:induction false} ConcurrentBound(s: Sys, es: seq<Event>, l: int, t: real, k: nat)
    requires Inv(s) && LegalRun(s, es) && AtMostInFlight(s, es, k) && Bounded(s, l, t, k)
    ensures Bounded(Run(s, es), l, t, k)
    decreases |es|
  {
    if es != [] {
      StepKeepsInv(s, es[0]);
      StepKeepsBound(s, es[0], l, t, k);
      ConcurrentBound(Step(s, es[0]), es[1..], l, t, k);
    }
  }

  /** From an empty key: k overlapping callers of limit l admit at most l + k - 1 per
      window, so calls that do not overlap admit at most l. */
  lemma FreshKeyBound(window: real, clock: real, es: seq<Event>, l: int, t: real, k: nat)
    requires 0.0 < window && 0.0 <= clock
    requires LegalRun(Init(window, clock), es) && AtMostInFlight(Init(window, clock), es, k)
    ensures Window(Run(Init(window, clock), es), l, t) != {} ==>
              |Window(Run(Init(window, clock), es), l, t)| <= l + k - 1
    ensures l <= 0 ==> Window(Run(Init(window, clock), es), l, t) == {}
  {
    ConcurrentBound(Init(window, clock), es, l, t, k);
    NothingPassesLimitZero(Init(window, clock), es);
  }

  lemma {:induction false} NothingPassesLimitZero(s: Sys, es: seq<Event>)
    requires LegalRun(s, es) && forall i :: 0 <= i < |s.accepted| ==> s.accepted[i].limit > 0
    ensures forall i :: 0 <= i < |Run(s, es).accepted| ==> Run(s, es).accepted[i].limit > 0
    decreases |es|
  {
    if es != [] {
      NothingPassesLimitZero(Step(s, es[0]), es[1..]);
    }
  }

  /** All admitted requests so far read the clock at the present instant. */
  ghost predicate Burst(s: Sys, limit: int) {
    forall i :: 0 <= i < |s.accepted| ==> s.accepted[i] == Req(s.clock, limit)
  }

  ghost function Below(n: nat): (r: set<nat>)
    ensures |r| == n && forall i: nat :: i in r <==> i < n
  {
    if n == 0 then {} else Below(n - 1) + {n - 1}
  }

  lemma BurstPasses(s: Sys, limit: int)
    requires Inv(s) && Burst(s, limit) && |s.accepted| - |s.inflight| < limit
    ensures Passes(s, s.clock, limit)
  {
    var all := Below(|s.accepted|);
    assert s.inflight <= all;
    assert Counting(s, s.clock) == all - s.inflight;
    DecidesAsIdealLog(s, s.clock, limit);
  }

  lemma BurstCaller(s: Sys, limit: int)
    requires Inv(s) && Burst(s, limit) && |s.accepted| - |s.inflight| < limit
    ensures var s' := Step(s, Begin(s.clock, limit));
            && Inv(s') && Burst(s', limit)
            && s'.accepted == s.accepted + [Req(s.clock, limit)] && s'.inflight == s.inflight + {|s.accepted|}
            && s'.clock == s.clock && s'.window == s.window
  {
    BurstPasses(s, limit);
    StepKeepsInv(s, Begin(s.clock, limit));
  }

  /** `calls` callers run to completion one after the other, then `overlap` callers all
      pass the count before any of them registers. */
  lemma {:induction false} BurstRun(s: Sys, limit: int, calls: nat, overlap: nat, k: nat) returns (es: seq<Event>)
    requires Inv(s) && Burst(s, limit)
    requires |s.inflight| + overlap <= k && 1 <= k
    requires |s.accepted| - |s.inflight| + calls + (if overlap > 0 then 1 else 0) <= limit
    requires calls > 0 ==> s.inflight == {}
    ensures LegalRun(s, es) && AtMostInFlight(s, es, k)
    ensures Burst(Run(s, es), limit) && Run(s, es).window == s.window && Run(s, es).clock == s.clock
    ensures |Run(s, es).accepted| == |s.accepted| + calls + overlap
    decreases calls, overlap
  {
    var begin := Begin(s.clock, limit);
    if calls > 0 {
      BurstCaller(s, limit);
      var s1 := Step(s, begin);
      var finish := Finish(|s.accepted|, s.clock);
      StepKeepsInv(s1, finish);
      var rest := BurstRun(Step(s1, finish), limit, calls - 1, overlap, k);
      var tail := [finish] + rest;
      assert tail[1..] == rest && LegalRun(s1, tail) && AtMostInFlight(s1, tail, k);
      es := [begin] + tail;
      assert es[1..] == tail;
    } else if overlap > 0 {
      BurstCaller(s, limit);
      var rest := BurstRun(Step(s, begin), limit, 0, overlap - 1, k);
      es := [begin] + rest;
      assert es[1..] == rest;
    } else {
      es := [];
    }
  }

  /** The bound is exact: for every limit and every overlap there is a run from an empty
      key that puts limit + k - 1 requests into one window. */
  lemma BoundIsReached(window: real, clock: real, limit: nat, k: nat) returns (es: seq<Event>)
    requires 0.0 < window && 0.0 <= clock && 1 <= limit && 1 <= k
    ensures LegalRun(Init(window, clock), es) && AtMostInFlight(Init(window, clock), es, k)
    ensures |Window(Run(Init(window, clock), es), limit, clock)| == limit + k - 1
  {
    es := BurstRun(Init(window, clock), limit, limit - 1, k, k);
    var s := Run(Init(window, clock), es);
    assert Window(s, limit, clock) == Below(limit + k - 1);
  }
}
