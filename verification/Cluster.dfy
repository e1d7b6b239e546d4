/** Many pods on one channel: a reliable broker that shows every subscribed pod all events
    published from then on, in one order. */
module Cluster {
  import opened WebSocket
  import opened FanOut

  datatype Sys = Sys(bus: seq<Envelope>, pods: seq<Pod>)

  /** A pod publishes an event, which either reaches the channel or raises before it does;
      or a pod takes a step of its own. */
  datatype Move =
    | Publish(pod: nat, envelope: Envelope, reaches: bool, order: seq<User>)
    | Local(pod: nat, event: Event)

  ghost predicate LegalMove(s: Sys, m: Move) {
    m.pod < |s.pods| &&
    match m
    case Publish(i, env, reaches, order) => !reaches ==> Legal(s.bus, s.pods[i], FallBack(env, order))
    case Local(i, e) => !e.FallBack? && Legal(s.bus, s.pods[i], e)
  }

  ghost function MoveStep(s: Sys, m: Move): Sys
    requires LegalMove(s, m)
  {
    match m
    case Publish(i, env, reaches, order) =>
      if reaches then Sys(s.bus + [env], s.pods)
      else Sys(s.bus, s.pods[i := Step(s.bus, s.pods[i], FallBack(env, order))])
    case Local(i, e) => Sys(s.bus, s.pods[i := Step(s.bus, s.pods[i], e)])
  }

  ghost predicate LegalMoves(s: Sys, ms: seq<Move>)
    decreases |ms|
  {
    ms == [] || (LegalMove(s, ms[0]) && LegalMoves(MoveStep(s, ms[0]), ms[1..]))
  }

  ghost function After(s: Sys, ms: seq<Move>): Sys
    requires LegalMoves(s, ms)
    decreases |ms|
  {
    if ms == [] then s else After(MoveStep(s, ms[0]), ms[1..])
  }

  ghost predicate AllGood(s: Sys) {
    forall i :: 0 <= i < |s.pods| ==> Inv(s.bus, s.pods[i])
  }

  lemma FreshPodsAreGood(n: nat)
    ensures AllGood(Sys([], seq(n, i => EMPTY_POD)))
  {
  }

  lemma BusMayGrow(bus: seq<Envelope>, p: Pod, env: Envelope)
    requires Inv(bus, p)
    ensures Inv(bus + [env], p)
  {
  }

  lemma MoveKeepsGood(s: Sys, m: Move)
    requires AllGood(s) && LegalMove(s, m)
    ensures AllGood(MoveStep(s, m))
  {
    var s' := MoveStep(s, m);
    forall i | 0 <= i < |s'.pods|
      ensures Inv(s'.bus, s'.pods[i])
    {
      match m
      case Publish(j, env, reaches, order) =>
        if reaches {
          BusMayGrow(s.bus, s.pods[i], env);
        } else {
          StepKeepsInv(s.bus, s.pods[j], FallBack(env, order));
        }
      case Local(j, e) => StepKeepsInv(s.bus, s.pods[j], e);
    }
  }

  /** Over every run of the whole system, however its pods' loops interleave. */
  lemma {:induction false} AllRunsAreGood(s: Sys, ms: seq<Move>)
    requires AllGood(s) && LegalMoves(s, ms)
    ensures AllGood(After(s, ms))
    decreases |ms|
  {
    if ms != [] {
      MoveKeepsGood(s, ms[0]);
      AllRunsAreGood(MoveStep(s, ms[0]), ms[1..]);
    }
  }

  lemma MovePersists(s: Sys, m: Move, i: nat)
    requires AllGood(s) && LegalMove(s, m) && i < |s.pods|
    ensures |MoveStep(s, m).pods| == |s.pods| && s.bus <= MoveStep(s, m).bus
    ensures Persists(s.pods[i], MoveStep(s, m).pods[i])
  {
    match m
    case Publish(j, env, reaches, order) => if !reaches { StepPersists(s.bus, s.pods[j], FallBack(env, order)); }
    case Local(j, e) => StepPersists(s.bus, s.pods[j], e);
  }

  lemma {:induction false} RunsPersist(s: Sys, ms: seq<Move>, i: nat)
    requires AllGood(s) && LegalMoves(s, ms) && i < |s.pods|
    ensures |After(s, ms).pods| == |s.pods| && s.bus <= After(s, ms).bus
    ensures Persists(s.pods[i], After(s, ms).pods[i])
    decreases |ms|
  {
    if ms != [] {
      MovePersists(s, ms[0], i);
      MoveKeepsGood(s, ms[0]);
      RunsPersist(MoveStep(s, ms[0]), ms[1..], i);
    }
  }

  /** An event published on any pod: on every pod subscribed by then, once its dispatch is
      over, each socket connected before and still registered has been sent it exactly
      once if it is addressed, and never otherwise. */
  lemma PublishedReachesEveryone(s: Sys, from: nat, env: Envelope, ms: seq<Move>, i: nat, x: Socket)
    requires AllGood(s) && from < |s.pods| && i < |s.pods|
    requires LegalMoves(MoveStep(s, Publish(from, env, true, [])), ms)
    requires s.pods[i].since.Some? && x in s.pods[i].own
    requires var p := After(MoveStep(s, Publish(from, env, true, [])), ms).pods;
             i < |p| && Present(p[i], x) && |s.bus| < p[i].cursor && Bus(|s.bus|) !in p[i].tasks
    ensures var p := After(MoveStep(s, Publish(from, env, true, [])), ms).pods[i];
            Attempts(p.log, Bus(|s.bus|), x) == if IsFor(env, p.own[x]) then 1 else 0
  {
    var m := Publish(from, env, true, []);
    var s1 := MoveStep(s, m);
    MoveKeepsGood(s, m);
    AllRunsAreGood(s1, ms);
    RunsPersist(s1, ms, i);
    var s2 := After(s1, ms);
    assert s1.bus[|s.bus|] == env == s2.bus[|s.bus|];
    assert Inv(s.bus, s.pods[i]) && BusInv(s.bus, s.pods[i]) && JoinInv(s.pods[i]);
    DeliveredExactlyOnce(s2.bus, s2.pods[i], x, |s.bus|);
  }

  /** In particular a broadcast reaches all of its company once each, and nobody else. */
  lemma BroadcastReachesTheCompany(s: Sys, from: nat, c: Company, event: string, ms: seq<Move>, i: nat, x: Socket)
    requires c != "" && AllGood(s) && from < |s.pods| && i < |s.pods|
    requires LegalMoves(MoveStep(s, Publish(from, CompanyEvent(c, event), true, [])), ms)
    requires s.pods[i].since.Some? && x in s.pods[i].own
    requires var p := After(MoveStep(s, Publish(from, CompanyEvent(c, event), true, [])), ms).pods;
             i < |p| && Present(p[i], x) && |s.bus| < p[i].cursor && Bus(|s.bus|) !in p[i].tasks
    ensures var p := After(MoveStep(s, Publish(from, CompanyEvent(c, event), true, [])), ms).pods[i];
            Attempts(p.log, Bus(|s.bus|), x) == if p.own[x].0 == c then 1 else 0
  {
    PublishedReachesEveryone(s, from, CompanyEvent(c, event), ms, i, x);
  }

  /** And an event for one user reaches all sockets of that user, and no others. */
  lemma UserEventReachesTheUser(s: Sys, from: nat, c: Company, u: User, event: string, ms: seq<Move>, i: nat,
                                x: Socket)
    requires c != "" && u != "" && AllGood(s) && from < |s.pods| && i < |s.pods|
    requires LegalMoves(MoveStep(s, Publish(from, UserEvent(c, u, event), true, [])), ms)
    requires s.pods[i].since.Some? && x in s.pods[i].own
    requires var p := After(MoveStep(s, Publish(from, UserEvent(c, u, event), true, [])), ms).pods;
             i < |p| && Present(p[i], x) && |s.bus| < p[i].cursor && Bus(|s.bus|) !in p[i].tasks
    ensures var p := After(MoveStep(s, Publish(from, UserEvent(c, u, event), true, [])), ms).pods[i];
            Attempts(p.log, Bus(|s.bus|), x) == if p.own[x] == (c, u) then 1 else 0
  {
    PublishedReachesEveryone(s, from, UserEvent(c, u, event), ms, i, x);
  }

  /** An envelope with another target, or without an event or an id, reaches nobody. */
  lemma OddEnvelopesReachNobody(s: Sys, k: nat, i: nat, x: Socket)
    requires AllGood(s) && i < |s.pods| && k < |s.bus|
    requires var e := s.bus[k];
             || e.event.None? || e.company == "" || (e.target == "user" && e.user == "")
             || (e.target != "company" && e.target != "user")
    ensures Attempts(s.pods[i].log, Bus(k), x) == 0
  {
    assert Inv(s.bus, s.pods[i]);
    AttemptsAtMostOne(s.pods[i].log, Bus(k), x);
    if Tried(s.pods[i].log, Bus(k), x) {
      NobodyElse(s.bus, s.pods[i], x, k);
    }
  }

  /** No other socket anywhere: whoever was sent the event is one of its addressees. */
  lemma PublishedReachesNobodyElse(s: Sys, k: nat, i: nat, x: Socket)
    requires AllGood(s) && i < |s.pods| && k < |s.bus| && Tried(s.pods[i].log, Bus(k), x)
    ensures x in s.pods[i].own && IsFor(s.bus[k], s.pods[i].own[x])
    ensures Attempts(s.pods[i].log, Bus(k), x) == 1
  {
    assert Inv(s.bus, s.pods[i]);
    NobodyElse(s.bus, s.pods[i], x, k);
  }

  /** When publishing fails, the publisher's pod alone dispatches the event. Once that is
      over every socket it had for the event has been sent it exactly once, and at no time
      has anybody but an addressee. */
  lemma FailedPublishStaysLocal(s: Sys, from: nat, env: Envelope, order: seq<User>, ms: seq<Move>)
    requires AllGood(s) && LegalMove(s, Publish(from, env, false, order))
    requires LegalMoves(MoveStep(s, Publish(from, env, false, order)), ms)
    ensures var s1 := MoveStep(s, Publish(from, env, false, order));
            && s1.bus == s.bus && |s1.pods| == |s.pods|
            && (forall i :: 0 <= i < |s.pods| && i != from ==> s1.pods[i] == s.pods[i])
    ensures var s2 := After(MoveStep(s, Publish(from, env, false, order)), ms);
            var src := Fallback(s.pods[from].fallbacks);
            && |s2.pods| == |s.pods|
            && (src !in s2.pods[from].tasks ==> DispatchIsExact(s.pods[from], s2.pods[from], src, env))
            && (forall x :: Tried(s2.pods[from].log, src, x) ==>
                  && x in s2.pods[from].own && IsFor(env, s2.pods[from].own[x])
                  && Attempts(s2.pods[from].log, src, x) == 1)
  {
    var m := Publish(from, env, false, order);
    var s1 := MoveStep(s, m);
    var src := Fallback(s.pods[from].fallbacks);
    DispatchStarts(s.pods[from], src, AudienceOf(env), order);
    MoveKeepsGood(s, m);
    AllRunsAreGood(s1, ms);
    RunsPersist(s1, ms, from);
    var s2 := After(s1, ms);
    assert Inv(s2.bus, s2.pods[from]);
    if src !in s2.pods[from].tasks {
      DoneIsExact(s2.bus, s.pods[from], s2.pods[from], src, env);
    }
    forall x | Tried(s2.pods[from].log, src, x)
      ensures x in s2.pods[from].own && IsFor(env, s2.pods[from].own[x])
      ensures Attempts(s2.pods[from].log, src, x) == 1
    {
      TriedIsAddressed(s2.bus, s2.pods[from], src, x);
      AudienceIsExact(env, s2.pods[from].own[x]);
      AttemptsAtMostOne(s2.pods[from].log, src, x);
    }
  }

  /** Nor does a pod that subscribes ever dispatch what was published before. */
  lemma SubscribersStartAtTheEnd(s: Sys, i: nat, ms: seq<Move>, k: nat, x: Socket)
    requires AllGood(s) && LegalMove(s, Local(i, Subscribe)) && LegalMoves(MoveStep(s, Local(i, Subscribe)), ms)
    requires k < |s.bus|
    ensures var t := After(MoveStep(s, Local(i, Subscribe)), ms);
            i < |t.pods| && !Tried(t.pods[i].log, Bus(k), x)
  {
    var s1 := MoveStep(s, Local(i, Subscribe));
    MoveKeepsGood(s, Local(i, Subscribe));
    AllRunsAreGood(s1, ms);
    RunsPersist(s1, ms, i);
    var t := After(s1, ms);
    NothingFromBefore(s.bus, t.bus, s.pods[i], t.pods[i], k, x);
  }

  /** A pod whose subscription failed is sent nothing from the channel. */
  lemma UnsubscribedHearsNothing(s: Sys, i: nat, k: nat, x: Socket)
    requires AllGood(s) && i < |s.pods| && s.pods[i].since.None?
    ensures !Tried(s.pods[i].log, Bus(k), x)
  {
  }
}
