/** The campaign executor as a protocol: durable rows, a volatile run, one transaction per
    chunk, enqueueing inside the transaction, crashes with redelivery, pauses. */
module Campaign {
  import opened Wrappers

  const CHUNK := 80
  const AUDIENCE_CAP := 10000

  datatype RowStatus = Pending | Sent | Failed

  datatype Status = Draft | Scheduled | Sending | Paused | Completed | Unconfigured

  datatype Campaign = Campaign(status: Status, total: nat, sentCount: nat, failedCount: nat, deliveredCount: nat)

  /** Where a run stands between two awaits. `writes` is the open transaction of a chunk. */
  datatype Phase = Between | InChunk(pos: nat, writes: map<nat, RowStatus>) | Ending

  /** The local variables of `_async_execute`; `wake` is when its sleep is over. */
  datatype RunState = RunState(
    recipients: seq<nat>, next: nat, phase: Phase, current: Status, sent: nat, failed: nat, wake: real)

  datatype Worker = Idle | Started | Running(r: RunState) | Acking

  /** One message handed to the messaging queue. */
  datatype Dispatch = Dispatch(id: nat, time: real, run: nat, chunk: nat)

  /** `readers` sends have read an unsent campaign and written nothing yet; `outbox` is the
      one send that has flushed its recipients and holds the lock on the campaign's row.

      The rest of the second part only records history: recipients ever committed, those
      ever committed as sent or failed, the pending ones the latest run does not look at,
      how many were settled before that run, and commits of sends, runs and losses so far. */
  datatype Sys = Sys(
    campaign: Option<Campaign>, rows: map<nat, RowStatus>, readers: nat, outbox: Option<set<nat>>, tasks: nat,
    worker: Worker, clock: real, dispatched: seq<Dispatch>,
    created: set<nat>, settled: set<nat>, missed: set<nat>, base: nat, commits: nat, runs: nat, crashes: nat)

  datatype Event =
    | SendRead                      // a send finds the campaign unsent
    | SendFlush(ids: set<nat>)      // recipients and status flushed, task enqueued, not committed yet
    | SendCommit
    | SendRollback
    | SendDrop                      // a send that raised before its flush
    | Start                         // a worker takes a task
    | Load(configured: bool, recipients: seq<nat>)
    | BeginChunk(now: real)         // status re-read, chunk transaction opened
    | Process(ok: bool, now: real)  // one recipient; `ok` when the enqueue did not raise
    | CommitChunk(now: real)
    | Finish                        // final stats
    | Ack
    | Abort                         // an exception ends the run; the task is not redelivered
    | Crash                         // the worker is lost; the task is redelivered
    | Pause
    | DeleteCampaign
    | DeleteRow(id: nat)            // the contact of a recipient is removed

  function Init(clock: real): Sys {
    Sys(Some(Campaign(Draft, 0, 0, 0, 0)), map[], 0, None, 0, Idle, clock, [], {}, {}, {}, 0, 0, 0, 0)
  }

  function PendingIds(rows: map<nat, RowStatus>): set<nat> {
    set i | i in rows && rows[i] == Pending
  }

  predicate Unsent(c: Option<Campaign>) {
    c.Some? && (c.value.status == Draft || c.value.status == Scheduled)
  }

  predicate IsSending(c: Option<Campaign>) {
    c.Some? && c.value.status == Sending
  }

  ghost predicate Distinct(s: seq<nat>) {
    forall i, j :: 0 <= i < j < |s| ==> s[i] != s[j]
  }

  function ChunkEnd(r: RunState): nat {
    if r.next + CHUNK < |r.recipients| then r.next + CHUNK else |r.recipients|
  }

  /** The rows a chunk transaction has written and therefore holds locks on. */
  function Writes(w: Worker): map<nat, RowStatus> {
    if w.Running? && w.r.phase.InChunk? then w.r.phase.writes else map[]
  }

  /** What `SELECT ... WHERE status = 'pending' LIMIT 10000` may return. */
  ghost predicate Selects(rows: map<nat, RowStatus>, recipients: seq<nat>) {
    && Distinct(recipients)
    && (forall i :: i in recipients ==> i in rows && rows[i] == Pending)
    && |recipients| == (if |PendingIds(rows)| < AUDIENCE_CAP then |PendingIds(rows)| else AUDIENCE_CAP)
  }

  ghost predicate Legal(s: Sys, e: Event) {
    match e
    case SendRead => Unsent(s.campaign)
    case SendFlush(ids) =>
      // whatever the status is by now: the UPDATE does not look at it
      && s.readers > 0 && s.campaign.Some? && s.outbox.None?
      && 0 < |ids| <= AUDIENCE_CAP && ids !! s.created
    case SendCommit => s.outbox.Some? && s.campaign.Some?
    case SendRollback => s.outbox.Some?
    case SendDrop => s.readers > 0
    case Start => s.worker == Idle && s.tasks > 0
    case Load(configured, recipients) =>
      && s.worker == Started
      && (IsSending(s.campaign) && configured ==> Selects(s.rows, recipients))
      && (IsSending(s.campaign) && !configured ==> s.outbox.None?)
    case BeginChunk(now) =>
      && s.worker.Running? && s.worker.r.phase == Between && s.worker.r.next < |s.worker.r.recipients|
      && s.clock <= now && s.worker.r.wake <= now
    case Process(ok, now) =>
      && s.worker.Running? && s.worker.r.phase.InChunk? && s.clock <= now
      && s.worker.r.next + s.worker.r.phase.pos < ChunkEnd(s.worker.r)
    case CommitChunk(now) =>
      && s.worker.Running? && s.worker.r.phase.InChunk? && s.clock <= now
      && s.worker.r.next + s.worker.r.phase.pos == ChunkEnd(s.worker.r)
    case Finish => s.worker.Running? && s.worker.r.phase == Ending && s.outbox.None?
    case Ack => s.worker == Acking
    case Abort => s.worker != Idle
    case Crash => s.worker != Idle
    // the status a pause or a deletion has read may be out of date when it writes
    case Pause => s.campaign.Some? && !Unsent(s.campaign) && s.outbox.None?
    case DeleteCampaign => s.campaign.Some? && s.outbox.None? && Writes(s.worker) == map[]
    case DeleteRow(id) => id in s.rows && id !in Writes(s.worker)
  }

  function Step(s: Sys, e: Event): Sys
    requires Legal(s, e)
  {
    match e
    case SendRead => s.(readers := s.readers + 1)
    case SendFlush(ids) => s.(readers := s.readers - 1, outbox := Some(ids), tasks := s.tasks + 1)
    case SendCommit => StepSend(s, s.outbox.value)
    case SendRollback => s.(outbox := None)
    case SendDrop => s.(readers := s.readers - 1)
    case Start => s.(worker := Started, tasks := s.tasks - 1)
    case Load(configured, recipients) => StepLoad(s, configured, recipients)
    case BeginChunk(now) => StepBegin(s, now)
    case Process(ok, now) => StepProcess(s, ok, now)
    case CommitChunk(now) => StepCommit(s, now)
    case Finish => StepFinish(s)
    case Ack => s.(worker := Idle)
    case Abort => s.(worker := Idle, crashes := s.crashes + 1)
    case Crash => s.(worker := Idle, tasks := s.tasks + 1, crashes := s.crashes + 1)
    case Pause => s.(campaign := Some(s.campaign.value.(status := Paused)))
    case DeleteCampaign => s.(campaign := None, rows := map[])
    case DeleteRow(id) => s.(rows := s.rows - {id})
  }

  /** The last send to commit decides the total. */
  function StepSend(s: Sys, ids: set<nat>): Sys
    requires s.campaign.Some?
  {
    s.(outbox := None,
       campaign := Some(s.campaign.value.(status := Sending, total := |ids|)),
       rows := s.rows + (map i | i in ids :: Pending),
       created := s.created + ids,
       missed := if s.worker.Running? then s.missed + ids else s.missed,
       commits := s.commits + 1)
  }

  /** Skipped, not configured, nothing to do, or a run over the selected recipients. */
  function StepLoad(s: Sys, configured: bool, recipients: seq<nat>): Sys {
    if !IsSending(s.campaign) then s.(worker := Acking)
    else if !configured then s.(worker := Acking, campaign := Some(s.campaign.value.(status := Unconfigured)))
    else if recipients == [] then s.(worker := Acking)
    else
      s.(worker := Running(RunState(recipients, 0, Between, Sending, 0, 0, s.clock)),
         missed := PendingIds(s.rows) - (set i | i in recipients), base := |s.settled|, runs := s.runs + 1)
  }

  /** A deleted campaign raises and ends the run; any status but sending ends the loop. */
  function StepBegin(s: Sys, now: real): Sys
    requires s.worker.Running?
  {
    if s.campaign.None? then s.(clock := now, worker := Idle)
    else if s.campaign.value.status != Sending then
      s.(clock := now, worker := Running(s.worker.r.(current := s.campaign.value.status, phase := Ending)))
    else s.(clock := now, worker := Running(s.worker.r.(current := Sending, phase := InChunk(0, map[]))))
  }

  function StepProcess(s: Sys, ok: bool, now: real): Sys
    requires s.worker.Running? && s.worker.r.phase.InChunk?
    requires s.worker.r.next + s.worker.r.phase.pos < |s.worker.r.recipients|
  {
    var r := s.worker.r;
    var pos, writes := r.phase.pos, r.phase.writes;
    var id := r.recipients[r.next + pos];
    if id !in s.rows then s.(clock := now, worker := Running(r.(phase := InChunk(pos + 1, writes))))
    else if ok then
      s.(clock := now, dispatched := s.dispatched + [Dispatch(id, now, s.runs, r.next)],
         worker := Running(r.(phase := InChunk(pos + 1, writes[id := Sent]), sent := r.sent + 1)))
    else
      s.(clock := now,
         worker := Running(r.(phase := InChunk(pos + 1, writes[id := Failed]), failed := r.failed + 1)))
  }

  function StepCommit(s: Sys, now: real): Sys
    requires s.worker.Running? && s.worker.r.phase.InChunk?
  {
    var r := s.worker.r;
    var done := r.next + CHUNK >= |r.recipients|;
    s.(clock := now, rows := s.rows + r.phase.writes, settled := s.settled + r.phase.writes.Keys,
       worker := Running(r.(next := ChunkEnd(r), phase := if done then Ending else Between, wake := now + 1.0)))
  }

  /** The counters are those of this run; the status follows the last status read. */
  function StepFinish(s: Sys): Sys
    requires s.worker.Running?
  {
    var r := s.worker.r;
    if s.campaign.None? then s.(worker := Acking)
    else
      var c := s.campaign.value.(sentCount := r.sent, failedCount := r.failed, deliveredCount := r.sent);
      s.(worker := Acking, campaign := Some(if r.current == Sending then c.(status := Completed) else c))
  }

  ghost predicate LegalRun(s: Sys, es: seq<Event>)
    decreases |es|
  {
    es == [] || (Legal(s, es[0]) && LegalRun(Step(s, es[0]), es[1..]))
  }

  function Run(s: Sys, es: seq<Event>): Sys
    requires LegalRun(s, es)
    decreases |es|
  {
    if es == [] then s else Run(Step(s, es[0]), es[1..])
  }

  // ---------- What every reachable state satisfies ----------

  ghost predicate RowsInv(s: Sys) {
    && s.rows.Keys <= s.created && s.settled <= s.created
    && (forall i :: i in s.rows ==> (s.rows[i] == Pending <==> i !in s.settled))
    && (Unsent(s.campaign) ==> s.commits == 0)
    && (s.commits == 0 <==> s.created == {})
    && (s.commits <= 1 ==> |s.created| <= AUDIENCE_CAP)
    && (s.campaign.Some? && !Unsent(s.campaign) ==>
          && s.commits > 0 && s.campaign.value.total <= |s.created|
          && (s.campaign.value.total == |s.created| <==> s.commits == 1))
    && (s.outbox.Some? ==> s.campaign.Some? && 0 < |s.outbox.value| <= AUDIENCE_CAP && s.outbox.value !! s.created)
  }

  function Position(r: RunState): nat {
    if r.phase.InChunk? then r.next + r.phase.pos else r.next
  }

  /** `id` is a recipient the run has not come to yet. */
  ghost predicate Ahead(r: RunState, id: nat) {
    exists i :: Position(r) <= i < |r.recipients| && r.recipients[i] == id
  }

  /** The recipients ahead are unsettled; every pending row is ahead, written by the chunk,
      or one the run does not look at. */
  ghost predicate AheadInv(s: Sys, r: RunState) {
    && Distinct(r.recipients) && Position(r) <= |r.recipients|
    && (forall id :: Ahead(r, id) ==> id in s.created && id !in s.settled && id !in s.missed)
    && (forall id :: id in s.rows && s.rows[id] == Pending && id !in Writes(s.worker) ==>
          Ahead(r, id) || id in s.missed)
  }

  ghost predicate MissedInv(s: Sys) {
    forall id :: id in s.missed ==> id in s.created && id !in s.settled && id !in Writes(s.worker)
  }

  /** The open chunk transaction holds final states of unsettled rows already passed. */
  ghost predicate WritesInv(s: Sys, r: RunState) {
    && (forall id :: id in Writes(s.worker) ==>
          id in s.rows && id !in s.settled && Writes(s.worker)[id] != Pending && !Ahead(r, id))
    && (r.phase.InChunk? ==> Position(r) <= ChunkEnd(r) && |r.phase.writes| <= r.phase.pos)
  }

  ghost predicate PhaseInv(s: Sys, r: RunState) {
    && !Unsent(s.campaign)
    && s.base + r.sent + r.failed == |s.settled| + |Writes(s.worker)|
    && (r.phase.InChunk? ==> r.next < |r.recipients| && r.current == Sending)
    && (r.phase == Between ==> r.next < |r.recipients| && r.current == Sending)
    && (r.phase == Ending && r.current == Sending ==> r.next == |r.recipients|)
  }

  ghost predicate RunInv(s: Sys) {
    s.worker.Running? ==>
      AheadInv(s, s.worker.r) && WritesInv(s, s.worker.r) && PhaseInv(s, s.worker.r) && MissedInv(s)
  }

  ghost predicate Inv(s: Sys) {
    RowsInv(s) && RunInv(s)
  }

  lemma LoadKeepsInv(s: Sys, configured: bool, recipients: seq<nat>)
    requires Inv(s) && Legal(s, Load(configured, recipients))
    ensures Inv(Step(s, Load(configured, recipients)))
  {
    var s' := Step(s, Load(configured, recipients));
    if s'.worker.Running? {
      forall id | Ahead(s'.worker.r, id)
        ensures id in recipients
      {
      }
      forall id | id in recipients
        ensures Ahead(s'.worker.r, id)
      {
        var i :| 0 <= i < |recipients| && recipients[i] == id;
      }
    }
  }

  /** Distinct members of a set, as many as the set has, are all of it. */
  lemma {:induction false} AllSelected(s: seq<nat>, all: set<nat>)
    requires Distinct(s) && (forall x :: x in s ==> x in all) && |s| == |all|
    ensures forall x :: x in all ==> x in s
  {
    if s != [] {
      var k := |s| - 1;
      assert forall x :: x in s[..k] ==> x in all && x != s[k];
      AllSelected(s[..k], all - {s[k]});
      forall x | x in all
        ensures x in s
      {
        if x != s[k] {
          assert x in s[..k];
        }
      }
    }
  }

  /** Moving one place on takes exactly the recipient passed out of those ahead. */
  lemma AheadMoves(r: RunState, r': RunState)
    requires Distinct(r.recipients) && r'.recipients == r.recipients
    requires Position(r) < |r.recipients| && Position(r') == Position(r) + 1
    ensures Ahead(r, r.recipients[Position(r)])
    ensures forall x :: Ahead(r, x) && x != r.recipients[Position(r)] ==> Ahead(r', x)
    ensures forall x :: Ahead(r', x) ==> Ahead(r, x) && x != r.recipients[Position(r)]
  {
  }

  lemma ProcessKeepsAhead(s: Sys, ok: bool, now: real)
    requires Inv(s) && Legal(s, Process(ok, now))
    ensures AheadInv(StepProcess(s, ok, now), StepProcess(s, ok, now).worker.r)
    ensures MissedInv(StepProcess(s, ok, now))
  {
  }

  lemma ProcessWrites(s: Sys, ok: bool, now: real)
    requires Inv(s) && Legal(s, Process(ok, now))
    ensures var id, w := s.worker.r.recipients[Position(s.worker.r)], Writes(s.worker);
            var w' := Writes(StepProcess(s, ok, now).worker);
            && id !in s.settled && id !in w && id in s.created
            && if id in s.rows then w' == w[id := if ok then Sent else Failed] && |w'| == |w| + 1 else w' == w
  {
  }

  lemma ProcessKeepsWrites(s: Sys, ok: bool, now: real)
    requires Inv(s) && Legal(s, Process(ok, now))
    ensures WritesInv(StepProcess(s, ok, now), StepProcess(s, ok, now).worker.r)
  {
    var s' := StepProcess(s, ok, now);
    var r, r' := s.worker.r, s'.worker.r;
    AheadMoves(r, r');
    ProcessWrites(s, ok, now);
    forall id | id in Writes(s'.worker)
      ensures id in s'.rows && id !in s'.settled && Writes(s'.worker)[id] != Pending && !Ahead(r', id)
    {
      assert id == r.recipients[Position(r)] || id in Writes(s.worker);
    }
  }

  lemma ProcessKeepsPhase(s: Sys, ok: bool, now: real)
    requires Inv(s) && Legal(s, Process(ok, now))
    ensures PhaseInv(StepProcess(s, ok, now), StepProcess(s, ok, now).worker.r)
  {
  }

  lemma ProcessKeepsInv(s: Sys, ok: bool, now: real)
    requires Inv(s) && Legal(s, Process(ok, now))
    ensures Inv(Step(s, Process(ok, now)))
  {
    ProcessKeepsAhead(s, ok, now);
    ProcessKeepsWrites(s, ok, now);
    ProcessKeepsPhase(s, ok, now);
  }

  lemma CommitKeepsInv(s: Sys, now: real)
    requires Inv(s) && Legal(s, CommitChunk(now))
    ensures Inv(Step(s, CommitChunk(now)))
  {
    var s' := Step(s, CommitChunk(now));
    var r, r', writes := s.worker.r, s'.worker.r, Writes(s.worker);
    assert s.settled !! writes.Keys;
    assert |s'.settled| == |s.settled| + |writes|;
    assert Position(r') == Position(r);
    forall x
      ensures Ahead(r, x) <==> Ahead(r', x)
    {
    }
  }

  lemma BeginKeepsInv(s: Sys, now: real)
    requires Inv(s) && Legal(s, BeginChunk(now))
    ensures Inv(Step(s, BeginChunk(now)))
  {
    var s' := Step(s, BeginChunk(now));
    if s'.worker.Running? {
      assert Position(s'.worker.r) == Position(s.worker.r);
      forall x
        ensures Ahead(s.worker.r, x) <==> Ahead(s'.worker.r, x)
      {
      }
    }
  }

  lemma SendKeepsRows(s: Sys)
    requires RowsInv(s) && Legal(s, SendCommit)
    ensures RowsInv(Step(s, SendCommit))
  {
    var ids := s.outbox.value;
    assert |s.created + ids| == |s.created| + |ids|;
    assert s.created == {} ==> s.created + ids == ids;
  }

  lemma SendKeepsAhead(s: Sys, ids: set<nat>)
    requires s.worker.Running? && s.campaign.Some? && ids !! s.created && s.settled <= s.created
    requires s.rows.Keys <= s.created && AheadInv(s, s.worker.r)
    ensures AheadInv(StepSend(s, ids), s.worker.r)
  {
  }

  lemma SendKeepsRest(s: Sys, ids: set<nat>)
    requires RowsInv(s) && s.worker.Running? && s.campaign.Some? && ids !! s.created
    requires WritesInv(s, s.worker.r) && PhaseInv(s, s.worker.r) && MissedInv(s)
    ensures WritesInv(StepSend(s, ids), s.worker.r) && PhaseInv(StepSend(s, ids), s.worker.r)
    ensures MissedInv(StepSend(s, ids))
  {
  }

  lemma SendKeepsRun(s: Sys)
    requires Inv(s) && Legal(s, SendCommit)
    ensures RunInv(Step(s, SendCommit))
  {
    if s.worker.Running? {
      SendKeepsAhead(s, s.outbox.value);
      SendKeepsRest(s, s.outbox.value);
    }
  }

  lemma SendKeepsInv(s: Sys, e: Event)
    requires Inv(s) && Legal(s, e)
    requires e.SendRead? || e.SendFlush? || e.SendCommit? || e.SendRollback? || e.SendDrop?
    ensures Inv(Step(s, e))
  {
    if e.SendCommit? {
      SendKeepsRows(s);
      SendKeepsRun(s);
    }
  }

  lemma OutsideKeepsInv(s: Sys, e: Event)
    requires Inv(s) && Legal(s, e) && (e.Pause? || e.DeleteCampaign? || e.DeleteRow?)
    ensures Inv(Step(s, e))
  {
  }

  lemma StepKeepsInv(s: Sys, e: Event)
    requires Inv(s) && Legal(s, e)
    ensures Inv(Step(s, e))
  {
    match e
    case SendRead => SendKeepsInv(s, e);
    case SendFlush(_) => SendKeepsInv(s, e);
    case SendCommit => SendKeepsInv(s, e);
    case SendRollback => SendKeepsInv(s, e);
    case SendDrop => SendKeepsInv(s, e);
    case Load(configured, recipients) => LoadKeepsInv(s, configured, recipients);
    case BeginChunk(now) => BeginKeepsInv(s, now);
    case Process(ok, now) => ProcessKeepsInv(s, ok, now);
    case CommitChunk(now) => CommitKeepsInv(s, now);
    case Pause => OutsideKeepsInv(s, e);
    case DeleteCampaign => OutsideKeepsInv(s, e);
    case DeleteRow(_) => OutsideKeepsInv(s, e);
    case _ =>
  }

  lemma {:induction false} RunKeepsInv(s: Sys, es: seq<Event>)
    requires Inv(s) && LegalRun(s, es)
    ensures Inv(Run(s, es))
    decreases |es|
  {
    if es != [] {
      StepKeepsInv(s, es[0]);
      RunKeepsInv(Step(s, es[0]), es[1..]);
    }
  }

  // ---------- No settled recipient is dispatched again ----------

  function Count(ds: seq<Dispatch>, id: nat): nat {
    if ds == [] then 0 else Count(ds[..|ds| - 1], id) + if ds[|ds| - 1].id == id then 1 else 0
  }

  lemma OthersDispatchNothing(s: Sys, e: Event)
    requires Legal(s, e) && !e.Process?
    ensures Step(s, e).dispatched == s.dispatched
  {
  }

  /** The only event that hands a message out, and to whom. */
  lemma DispatchedBy(s: Sys, e: Event)
    requires Inv(s) && Legal(s, e)
    ensures if e.Process? && e.ok && s.worker.r.recipients[Position(s.worker.r)] in s.rows then
              var id := s.worker.r.recipients[Position(s.worker.r)];
              && Step(s, e).dispatched == s.dispatched + [Dispatch(id, e.now, s.runs, s.worker.r.next)]
              && id !in s.settled && id !in Writes(s.worker) && id in s.created
            else Step(s, e).dispatched == s.dispatched
  {
    if e.Process? {
      ProcessWrites(s, e.ok, e.now);
    } else {
      OthersDispatchNothing(s, e);
    }
  }

  lemma CountGrows(s: Sys, e: Event, id: nat)
    requires Inv(s) && Legal(s, e)
    ensures Count(Step(s, e).dispatched, id) <= Count(s.dispatched, id) + 1
    ensures Count(Step(s, e).dispatched, id) > Count(s.dispatched, id) ==>
              e.Process? && e.ok && id == s.worker.r.recipients[Position(s.worker.r)] && id in s.rows
              && id !in s.settled && id !in Writes(s.worker)
  {
    DispatchedBy(s, e);
    var d, d' := s.dispatched, Step(s, e).dispatched;
    if d' != d {
      assert d'[..|d'| - 1] == d;
    }
  }

  /** A recipient whose row is committed as sent or failed is never dispatched again,
      through any pauses, crashes and redeliveries, even if its row is deleted later. */
  lemma {:induction false} SettledIsNeverDispatched(s: Sys, es: seq<Event>, id: nat)
    requires Inv(s) && LegalRun(s, es)
    requires id in s.settled || (id in s.rows && s.rows[id] != Pending)
    ensures Count(Run(s, es).dispatched, id) == Count(s.dispatched, id)
    decreases |es|
  {
    if es != [] {
      CountGrows(s, es[0], id);
      CountNeverShrinks(s, es[0], id);
      StepKeepsInv(s, es[0]);
      SettledIsNeverDispatched(Step(s, es[0]), es[1..], id);
    }
  }

  lemma CountNeverShrinks(s: Sys, e: Event, id: nat)
    requires Inv(s) && Legal(s, e)
    ensures Count(Step(s, e).dispatched, id) >= Count(s.dispatched, id)
    ensures s.settled <= Step(s, e).settled
  {
    DispatchedBy(s, e);
    var d, d' := s.dispatched, Step(s, e).dispatched;
    if d' != d {
      assert d'[..|d'| - 1] == d;
    }
  }

  // ---------- What crashes can cost ----------

  /** Each lost chunk transaction costs at most 80 messages, and at most one per recipient. */
  ghost predicate CostInv(s: Sys) {
    && |s.dispatched| <= |s.settled| + |Writes(s.worker)| + CHUNK * s.crashes
    && forall id :: Count(s.dispatched, id)
                    <= s.crashes + if id in s.settled || id in Writes(s.worker) then 1 else 0
  }

  lemma WritesAreSmall(s: Sys)
    requires Inv(s)
    ensures |Writes(s.worker)| <= CHUNK
  {
  }

  lemma CommitWrites(s: Sys, now: real)
    requires Inv(s) && Legal(s, CommitChunk(now))
    ensures var s', w := StepCommit(s, now), Writes(s.worker);
            && Writes(s'.worker) == map[] && s'.settled == s.settled + w.Keys && |s'.settled| == |s.settled| + |w|
            && s'.dispatched == s.dispatched && s'.crashes == s.crashes
  {
  }

  lemma WorkerWrites(s: Sys, e: Event)
    requires Legal(s, e) && (e.Start? || e.Load? || e.BeginChunk? || e.Finish? || e.Ack?)
    ensures Writes(Step(s, e).worker) == Writes(s.worker) == map[]
  {
  }

  lemma OtherWrites(s: Sys, e: Event)
    requires Legal(s, e) && !e.Process? && !e.CommitChunk?
    ensures Writes(Step(s, e).worker) == if e.Abort? || e.Crash? then map[] else Writes(s.worker)
  {
    if e.Start? || e.Load? || e.BeginChunk? || e.Finish? || e.Ack? {
      WorkerWrites(s, e);
    } else {
      assert e.Abort? || e.Crash? || Step(s, e).worker == s.worker;
    }
  }

  lemma OthersKeepSettled(s: Sys, e: Event)
    requires Legal(s, e) && !e.CommitChunk?
    ensures Step(s, e).settled == s.settled
    ensures Step(s, e).crashes == s.crashes + if e.Abort? || e.Crash? then 1 else 0
  {
  }

  lemma StepKeepsCost(s: Sys, e: Event)
    requires Inv(s) && CostInv(s) && Legal(s, e)
    ensures CostInv(Step(s, e))
  {
    var s' := Step(s, e);
    DispatchedBy(s, e);
    WritesAreSmall(s);
    if e.CommitChunk? {
      CommitWrites(s, e.now);
    } else {
      OthersKeepSettled(s, e);
      if e.Process? {
        ProcessWrites(s, e.ok, e.now);
      } else {
        OtherWrites(s, e);
      }
    }
    forall id
      ensures Count(s'.dispatched, id) <= s'.crashes + if id in s'.settled || id in Writes(s'.worker) then 1 else 0
    {
      CountGrows(s, e, id);
    }
  }

  /** Main bound: at most recipients + 80 per crash messages in all, and per recipient at
      most one more than there were crashes. */
  lemma {:induction false} DispatchBound(s: Sys, es: seq<Event>)
    requires Inv(s) && CostInv(s) && LegalRun(s, es)
    ensures |Run(s, es).dispatched| <= |Run(s, es).created| + 80 * Run(s, es).crashes
    ensures forall id :: Count(Run(s, es).dispatched, id) <= 1 + Run(s, es).crashes
    decreases |es|
  {
    if es == [] {
      assert s.settled !! Writes(s.worker).Keys;
      assert |s.settled + Writes(s.worker).Keys| == |s.settled| + |Writes(s.worker)|;
      SubsetSize(s.settled + Writes(s.worker).Keys, s.created);
    } else {
      StepKeepsInv(s, es[0]);
      StepKeepsCost(s, es[0]);
      DispatchBound(Step(s, es[0]), es[1..]);
    }
  }

  // ---------- Pacing ----------

  ghost function SameChunk(ds: seq<Dispatch>, run: nat, chunk: nat): set<nat> {
    set k | 0 <= k < |ds| && ds[k].run == run && ds[k].chunk == chunk
  }

  ghost function InSecond(ds: seq<Dispatch>, run: nat, t: real): set<nat> {
    set k | 0 <= k < |ds| && ds[k].run == run && t <= ds[k].time < t + 1.0
  }

  /** Messages of one run in different chunks are at least a second apart, and no chunk
      holds more than 80. */
  ghost predicate Spaced(ds: seq<Dispatch>) {
    && (forall i, j :: 0 <= i < j < |ds| && ds[i].run == ds[j].run && ds[i].chunk != ds[j].chunk ==>
          ds[i].time + 1.0 <= ds[j].time)
    && (forall run, chunk :: |SameChunk(ds, run, chunk)| <= CHUNK)
  }

  /** A message of the current run belongs to the open chunk, or was sent a second before
      the next one may open. */
  ghost predicate Placed(r: RunState, d: Dispatch) {
    (r.phase.InChunk? && d.chunk == r.next) || (d.chunk < r.next && d.time + 1.0 <= r.wake)
  }

  ghost predicate RunPace(s: Sys, r: RunState) {
    && (forall k :: 0 <= k < |s.dispatched| && s.dispatched[k].run == s.runs ==> Placed(r, s.dispatched[k]))
    && (r.phase.InChunk? ==> r.wake <= s.clock && |SameChunk(s.dispatched, s.runs, r.next)| <= r.phase.pos)
  }

  /** Where the current run stands among its own messages. */
  ghost predicate PaceInv(s: Sys) {
    && Spaced(s.dispatched)
    && (forall k :: 0 <= k < |s.dispatched| ==> s.dispatched[k].run <= s.runs && s.dispatched[k].time <= s.clock)
    && (s.worker.Running? ==> RunPace(s, s.worker.r))
  }

  lemma SameChunkGrows(ds: seq<Dispatch>, d: Dispatch, run: nat, chunk: nat)
    ensures |SameChunk(ds + [d], run, chunk)|
            == |SameChunk(ds, run, chunk)| + if run == d.run && chunk == d.chunk then 1 else 0
  {
    assert SameChunk(ds + [d], run, chunk)
           == SameChunk(ds, run, chunk) + if run == d.run && chunk == d.chunk then {|ds|} else {};
  }

  lemma SpacedGrows(ds: seq<Dispatch>, d: Dispatch)
    requires Spaced(ds) && |SameChunk(ds, d.run, d.chunk)| < CHUNK
    requires forall k :: 0 <= k < |ds| && ds[k].run == d.run && ds[k].chunk != d.chunk ==> ds[k].time + 1.0 <= d.time
    ensures Spaced(ds + [d])
  {
    forall run, chunk
      ensures |SameChunk(ds + [d], run, chunk)| <= CHUNK
    {
      SameChunkGrows(ds, d, run, chunk);
    }
  }

  lemma PaceAllowsDispatch(s: Sys, id: nat, now: real)
    requires PaceInv(s) && s.worker.Running? && s.worker.r.phase.InChunk? && s.clock <= now
    requires s.worker.r.phase.pos < CHUNK
    ensures var ds := s.dispatched + [Dispatch(id, now, s.runs, s.worker.r.next)];
            Spaced(ds) && |SameChunk(ds, s.runs, s.worker.r.next)| <= s.worker.r.phase.pos + 1
  {
    var d := Dispatch(id, now, s.runs, s.worker.r.next);
    SameChunkGrows(s.dispatched, d, d.run, d.chunk);
    forall k | 0 <= k < |s.dispatched| && s.dispatched[k].run == d.run && s.dispatched[k].chunk != d.chunk
      ensures s.dispatched[k].time + 1.0 <= d.time
    {
      assert Placed(s.worker.r, s.dispatched[k]);
    }
    SpacedGrows(s.dispatched, d);
  }

  lemma ProcessKeepsPace(s: Sys, ok: bool, now: real)
    requires PaceInv(s) && Legal(s, Process(ok, now))
    ensures PaceInv(Step(s, Process(ok, now)))
  {
    var r := s.worker.r;
    var s' := StepProcess(s, ok, now);
    PaceAllowsDispatch(s, r.recipients[Position(r)], now);
    if s'.dispatched != s.dispatched {
      PlacedStays(s, r, s'.worker.r, s'.dispatched);
    } else {
      PlacedStays(s, r, s'.worker.r, s.dispatched);
    }
  }

  lemma PlacedStays(s: Sys, r: RunState, r': RunState, ds: seq<Dispatch>)
    requires r.phase.InChunk? && r'.phase.InChunk? && r'.next == r.next && r'.wake == r.wake
    requires forall k :: 0 <= k < |s.dispatched| && s.dispatched[k].run == s.runs ==> Placed(r, s.dispatched[k])
    requires s.dispatched <= ds && forall k :: |s.dispatched| <= k < |ds| ==> ds[k].chunk == r.next
    ensures forall k :: 0 <= k < |ds| && ds[k].run == s.runs ==> Placed(r', ds[k])
  {
  }

  lemma BeginKeepsPace(s: Sys, now: real)
    requires PaceInv(s) && Legal(s, BeginChunk(now))
    ensures PaceInv(Step(s, BeginChunk(now)))
  {
    assert SameChunk(s.dispatched, s.runs, s.worker.r.next) == {};
  }

  lemma CommitKeepsPace(s: Sys, now: real)
    requires PaceInv(s) && Legal(s, CommitChunk(now)) && s.worker.r.next < |s.worker.r.recipients|
    ensures PaceInv(Step(s, CommitChunk(now)))
  {
  }

  lemma StepKeepsPace(s: Sys, e: Event)
    requires Inv(s) && PaceInv(s) && Legal(s, e)
    ensures PaceInv(Step(s, e))
  {
    if e.Process? {
      ProcessKeepsPace(s, e.ok, e.now);
    } else if e.BeginChunk? {
      BeginKeepsPace(s, e.now);
    } else if e.CommitChunk? {
      CommitKeepsPace(s, e.now);
    } else {
      OthersKeepPace(s, e);
    }
  }

  lemma OthersKeepPace(s: Sys, e: Event)
    requires PaceInv(s) && Legal(s, e) && !e.Process? && !e.BeginChunk? && !e.CommitChunk?
    ensures PaceInv(Step(s, e))
  {
  }

  /** Within a run, every half-open second sees at most 80 messages. */
  lemma {:induction false} PaceBound(s: Sys, es: seq<Event>, run: nat, t: real)
    requires Inv(s) && PaceInv(s) && LegalRun(s, es)
    ensures |InSecond(Run(s, es).dispatched, run, t)| <= 80
    decreases |es|
  {
    if es != [] {
      StepKeepsInv(s, es[0]);
      StepKeepsPace(s, es[0]);
      PaceBound(Step(s, es[0]), es[1..], run, t);
    } else if InSecond(s.dispatched, run, t) != {} {
      var k :| k in InSecond(s.dispatched, run, t);
      var same := SameChunk(s.dispatched, run, s.dispatched[k].chunk);
      forall j | j in InSecond(s.dispatched, run, t)
        ensures j in same
      {
        assert j < k || j == k || k < j;
      }
      SubsetSize(InSecond(s.dispatched, run, t), same);
    }
  }

  // ---------- Pausing ----------

  /** How many messages the open chunk can still hand out. */
  function LeftInChunk(w: Worker): nat
    requires w.Running? && w.r.phase.InChunk? ==> Position(w.r) <= ChunkEnd(w.r)
  {
    if w.Running? && w.r.phase.InChunk? then ChunkEnd(w.r) - Position(w.r) else 0
  }

  /** The campaign is not sending, and what the open chunk can still hand out brings the
      messages to `limit` at most. */
  ghost predicate Braked(s: Sys, limit: nat) {
    && !IsSending(s.campaign) && !Unsent(s.campaign)
    && (s.worker.Running? && s.worker.r.phase.InChunk? ==> Position(s.worker.r) <= ChunkEnd(s.worker.r))
    && |s.dispatched| + LeftInChunk(s.worker) <= limit
  }

  lemma StepKeepsBraked(s: Sys, e: Event, limit: nat)
    requires Inv(s) && Braked(s, limit) && Legal(s, e) && !e.SendCommit?
    ensures Braked(Step(s, e), limit)
  {
    DispatchedBy(s, e);
  }

  lemma {:induction false} RunKeepsBraked(s: Sys, es: seq<Event>, limit: nat)
    requires Inv(s) && Braked(s, limit) && LegalRun(s, es) && forall e :: e in es ==> !e.SendCommit?
    ensures Braked(Run(s, es), limit)
    decreases |es|
  {
    if es != [] {
      assert es[0] in es;
      StepKeepsInv(s, es[0]);
      StepKeepsBraked(s, es[0], limit);
      RunKeepsBraked(Step(s, es[0]), es[1..], limit);
    }
  }

  /** Until another send takes effect, at most 80 messages follow a pause, redeliveries
      included, and the campaign is not sending. */
  lemma PauseBound(s: Sys, es: seq<Event>)
    requires Inv(s) && Legal(s, Pause) && LegalRun(Step(s, Pause), es) && forall e :: e in es ==> !e.SendCommit?
    ensures var t := Run(Step(s, Pause), es);
            |t.dispatched| <= |s.dispatched| + 80 && !IsSending(t.campaign)
  {
    StepKeepsInv(s, Pause);
    assert LeftInChunk(s.worker) <= CHUNK;
    RunKeepsBraked(Step(s, Pause), es, |s.dispatched| + 80);
  }

  /** The run has read "sending" for the last time and will act on it. */
  predicate LastCheckPassed(w: Worker) {
    w.Running? && w.r.current == Sending &&
    (w.r.phase == Ending || (w.r.phase.InChunk? && ChunkEnd(w.r) == |w.r.recipients|))
  }

  ghost predicate PausedForGood(s: Sys) {
    && (s.campaign.Some? ==> s.campaign.value.status == Paused)
    && !LastCheckPassed(s.worker) && NoSendOpen(s)
  }

  predicate NoSendOpen(s: Sys) {
    s.readers == 0 && s.outbox.None?
  }

  /** A pause that lands before the last chunk check is final when no other send is open:
      only deleting the campaign changes its status afterwards. */
  lemma {:induction false} EarlyPauseSticks(s: Sys, es: seq<Event>)
    requires Inv(s) && PausedForGood(s) && LegalRun(s, es)
    ensures PausedForGood(Run(s, es))
    decreases |es|
  {
    if es != [] {
      StepKeepsInv(s, es[0]);
      assert PausedForGood(Step(s, es[0])) by {
        KeepsPaused(s, es[0]);
      }
      EarlyPauseSticks(Step(s, es[0]), es[1..]);
    }
  }

  lemma KeepsPaused(s: Sys, e: Event)
    requires RowsInv(s) && PausedForGood(s) && Legal(s, e)
    ensures PausedForGood(Step(s, e))
  {
  }

  lemma StepThenRun(s: Sys, e: Event, rest: seq<Event>)
    requires Legal(s, e) && LegalRun(Step(s, e), rest)
    ensures LegalRun(s, [e] + rest) && Run(s, [e] + rest) == Run(Step(s, e), rest)
  {
    assert ([e] + rest)[0] == e && ([e] + rest)[1..] == rest;
  }

  ghost predicate CanComplete(s: Sys) {
    exists es :: LegalRun(s, es) && Finished(Run(s, es).campaign)
  }

  lemma CanCompleteAfter(s: Sys, e: Event)
    requires Legal(s, e) && CanComplete(Step(s, e))
    ensures CanComplete(s)
  {
    var rest :| LegalRun(Step(s, e), rest) && Finished(Run(Step(s, e), rest).campaign);
    StepThenRun(s, e, rest);
  }

  lemma LastStepsGoOn(s: Sys)
    requires Inv(s) && LastCheckPassed(s.worker) && s.worker.r.phase.InChunk? && s.campaign.Some? && s.outbox.None?
    ensures var e := if LeftInChunk(s.worker) > 0 then Process(false, s.clock) else CommitChunk(s.clock);
            && Legal(s, e) && LastCheckPassed(Step(s, e).worker) && Step(s, e).campaign.Some? && Step(s, e).outbox.None?
            && (if LeftInChunk(s.worker) > 0
                then Step(s, e).worker.r.phase.InChunk? && LeftInChunk(Step(s, e).worker) < LeftInChunk(s.worker)
                else !Step(s, e).worker.r.phase.InChunk?)
  {
  }

  lemma FinishCompletes(s: Sys)
    requires s.worker.Running? && s.worker.r.phase == Ending && s.worker.r.current == Sending
    requires s.campaign.Some? && s.outbox.None?
    ensures CanComplete(s)
  {
    var done := Step(s, Finish);
    assert LegalRun(done, []) && Finished(Run(done, []).campaign);
    CanCompleteAfter(s, Finish);
  }

  lemma {:induction false} LastStepsComplete(s: Sys)
    requires Inv(s) && LastCheckPassed(s.worker) && s.campaign.Some? && s.outbox.None?
    ensures CanComplete(s)
    decreases s.worker.r.phase.InChunk?, LeftInChunk(s.worker)
  {
    if s.worker.r.phase == Ending {
      FinishCompletes(s);
    } else {
      var e := if LeftInChunk(s.worker) > 0 then Process(false, s.clock) else CommitChunk(s.clock);
      LastStepsGoOn(s);
      StepKeepsInv(s, e);
      LastStepsComplete(Step(s, e));
      CanCompleteAfter(s, e);
    }
  }

  /** A pause that lands later can be overwritten: whatever the status says by now, the run
      can go on to report "sent". */
  lemma LatePauseIsLost(s: Sys)
    requires Inv(s) && LastCheckPassed(s.worker) && s.campaign.Some?
    ensures CanComplete(s)
  {
    if s.outbox.Some? {
      StepKeepsInv(s, SendRollback);
      LastStepsComplete(Step(s, SendRollback));
      CanCompleteAfter(s, SendRollback);
    } else {
      LastStepsComplete(s);
    }
  }

  /** So can one that an open send outlives: the send sets the campaign going again. */
  lemma PauseCanBeOverruled(s: Sys, ids: set<nat>)
    requires s.readers > 0 && s.campaign.Some? && s.campaign.value.status == Paused && s.outbox.None?
    requires 0 < |ids| <= AUDIENCE_CAP && ids !! s.created
    ensures LegalRun(s, [SendFlush(ids), SendCommit])
    ensures IsSending(Run(s, [SendFlush(ids), SendCommit]).campaign)
    ensures Run(s, [SendFlush(ids), SendCommit]).tasks == s.tasks + 1
  {
    var s1 := Step(s, SendFlush(ids));
    assert LegalRun(Step(s1, SendCommit), []);
    StepThenRun(s1, SendCommit, []);
    StepThenRun(s, SendFlush(ids), [SendCommit]);
    assert [SendCommit] + [] == [SendCommit] && [SendFlush(ids)] + [SendCommit] == [SendFlush(ids), SendCommit];
  }

  // ---------- Completion ----------

  ghost predicate Finished(c: Option<Campaign>) {
    c.Some? && c.value.status == Completed
  }

  ghost predicate FinalInv(s: Sys) {
    && (Finished(s.campaign) ==>
          && PendingIds(s.rows) == s.missed * s.rows.Keys && !s.worker.Running?
          && s.campaign.value.sentCount + s.campaign.value.failedCount + s.base == |s.settled|)
    && (s.commits <= 1 ==> OnceInv(s))
  }

  /** While only one send has taken effect, a run looks at everything there is. */
  ghost predicate OnceInv(s: Sys) {
    && s.missed == {}
    && (s.commits == 0 ==> s.settled == {} && !s.worker.Running? && !Finished(s.campaign))
    && (s.crashes == 0 ==>
          && (IsSending(s.campaign) && !s.worker.Running? ==> s.settled == {})
          && (s.worker.Running? || Finished(s.campaign) ==> s.base == 0)
          && (s.worker.Running? && s.worker.r.phase == Ending && s.worker.r.current != Sending ==>
                !IsSending(s.campaign)))
  }

  lemma LoadSeesAll(s: Sys, recipients: seq<nat>)
    requires RowsInv(s) && s.commits <= 1 && Selects(s.rows, recipients)
    ensures PendingIds(s.rows) - (set i | i in recipients) == {}
  {
    SubsetSize(PendingIds(s.rows), s.created);
    AllSelected(recipients, PendingIds(s.rows));
  }

  lemma FinishKeepsFinal(s: Sys)
    requires Inv(s) && FinalInv(s) && Legal(s, Finish)
    ensures FinalInv(Step(s, Finish))
  {
    assert Position(s.worker.r) == s.worker.r.next;
    assert s.worker.r.next == |s.worker.r.recipients| ==> forall id :: !Ahead(s.worker.r, id);
  }

  lemma LoadKeepsFinal(s: Sys, configured: bool, recipients: seq<nat>)
    requires Inv(s) && FinalInv(s) && Legal(s, Load(configured, recipients))
    ensures FinalInv(Step(s, Load(configured, recipients)))
  {
    if s.commits <= 1 && IsSending(s.campaign) && configured {
      LoadSeesAll(s, recipients);
    }
  }

  lemma SendCommitKeepsFinal(s: Sys)
    requires Inv(s) && FinalInv(s) && Legal(s, SendCommit)
    ensures FinalInv(Step(s, SendCommit))
  {
  }

  lemma DeleteKeepsFinal(s: Sys, e: Event)
    requires Inv(s) && FinalInv(s) && Legal(s, e) && (e.DeleteCampaign? || e.DeleteRow? || e.Pause?)
    ensures FinalInv(Step(s, e))
  {
    if e.DeleteRow? && Finished(s.campaign) {
      assert PendingIds(s.rows - {e.id}) == PendingIds(s.rows) - {e.id};
    }
  }

  lemma ChunksKeepFinal(s: Sys, e: Event)
    requires Inv(s) && FinalInv(s) && Legal(s, e) && (e.BeginChunk? || e.Process? || e.CommitChunk?)
    ensures FinalInv(Step(s, e))
  {
  }

  lemma OthersKeepFinal(s: Sys, e: Event)
    requires Inv(s) && FinalInv(s) && Legal(s, e) && !e.Finish? && !e.Load? && !e.SendCommit?
    requires !e.DeleteCampaign? && !e.DeleteRow? && !e.Pause? && !e.BeginChunk? && !e.Process? && !e.CommitChunk?
    ensures FinalInv(Step(s, e))
  {
  }

  lemma StepKeepsFinal(s: Sys, e: Event)
    requires Inv(s) && FinalInv(s) && Legal(s, e)
    ensures FinalInv(Step(s, e))
  {
    match e
    case Finish => FinishKeepsFinal(s);
    case Load(configured, recipients) => LoadKeepsFinal(s, configured, recipients);
    case SendCommit => SendCommitKeepsFinal(s);
    case DeleteCampaign => DeleteKeepsFinal(s, e);
    case DeleteRow(_) => DeleteKeepsFinal(s, e);
    case Pause => DeleteKeepsFinal(s, e);
    case BeginChunk(_) => ChunksKeepFinal(s, e);
    case Process(_, _) => ChunksKeepFinal(s, e);
    case CommitChunk(_) => ChunksKeepFinal(s, e);
    case _ => OthersKeepFinal(s, e);
  }

  lemma {:induction false} RunKeepsFinal(s: Sys, es: seq<Event>)
    requires Inv(s) && FinalInv(s) && LegalRun(s, es)
    ensures Inv(Run(s, es)) && FinalInv(Run(s, es))
    decreases |es|
  {
    if es != [] {
      StepKeepsInv(s, es[0]);
      StepKeepsFinal(s, es[0]);
      RunKeepsFinal(Step(s, es[0]), es[1..]);
    }
  }

  /** A new campaign satisfies every invariant of this module. */
  lemma InitIsGood(clock: real)
    ensures Inv(Init(clock)) && CostInv(Init(clock)) && PaceInv(Init(clock))
    ensures FinalInv(Init(clock)) && SentInv(Init(clock)) && OutcomeInv(Init(clock))
  {
  }

  /** "Sent" written by the executor means that exactly the rows its run did not look at are
      pending. The counters count what that run settled, so they add up to the total if and
      only if it settled as many as the last send had. When only one send took effect,
      nothing is pending, and the counters add up if and only if no earlier run had settled
      anything and no recipient vanished before its turn. */
  lemma CompletionIsExact(clock: real, es: seq<Event>)
    requires LegalRun(Init(clock), es) && Finished(Run(Init(clock), es).campaign)
    ensures var s := Run(Init(clock), es);
            var c := s.campaign.value;
            && PendingIds(s.rows) == s.missed * s.rows.Keys
            && (c.sentCount + c.failedCount == c.total <==> |s.settled| == s.base + c.total)
            && (c.total == |s.created| <==> s.commits == 1)
            && (s.base == 0 && s.settled == s.created ==> c.sentCount + c.failedCount == |s.created|)
            && (s.commits == 1 ==>
                  && PendingIds(s.rows) == {}
                  && (c.sentCount + c.failedCount == c.total <==> s.base == 0 && s.settled == s.created))
  {
    InitIsGood(clock);
    RunKeepsFinal(Init(clock), es);
    var s := Run(Init(clock), es);
    assert |s.created - s.settled| == |s.created| - |s.settled|;
  }

  /** In a crash-free run of a campaign sent once, without deleted recipients, the counters
      add up to the total. */
  lemma CrashFreeCompletion(clock: real, es: seq<Event>)
    requires LegalRun(Init(clock), es)
    requires var s := Run(Init(clock), es);
             Finished(s.campaign) && s.crashes == 0 && s.rows.Keys == s.created && s.commits == 1
    ensures var c := Run(Init(clock), es).campaign.value; c.sentCount + c.failedCount == c.total
  {
    CompletionIsExact(clock, es);
    InitIsGood(clock);
    RunKeepsFinal(Init(clock), es);
    var s := Run(Init(clock), es);
    forall id | id in s.created
      ensures id in s.settled
    {
      assert id in s.rows && id !in PendingIds(s.rows);
    }
  }

  // ---------- Which counter is which ----------

  ghost function OfRun(ds: seq<Dispatch>, run: nat): set<nat> {
    set k | 0 <= k < |ds| && ds[k].run == run
  }

  ghost function RowsAs(rows: map<nat, RowStatus>, status: RowStatus): set<nat> {
    set i | i in rows && rows[i] == status
  }

  /** `sent` counts the messages of the current run, and so do two of the final counters. */
  ghost predicate SentInv(s: Sys) {
    && (forall k :: 0 <= k < |s.dispatched| ==> s.dispatched[k].run <= s.runs)
    && (s.worker.Running? ==> s.worker.r.sent == |OfRun(s.dispatched, s.runs)|)
    && (Finished(s.campaign) ==>
          s.campaign.value.sentCount == s.campaign.value.deliveredCount == |OfRun(s.dispatched, s.runs)|)
  }

  /** Without earlier settled rows and without deletions the counters count rows. */
  ghost predicate OutcomeInv(s: Sys) {
    s.base == 0 && s.rows.Keys == s.created && s.campaign.Some? ==>
      && (s.worker.Running? ==>
            && s.worker.r.sent == |RowsAs(s.rows, Sent)| + |RowsAs(Writes(s.worker), Sent)|
            && s.worker.r.failed == |RowsAs(s.rows, Failed)| + |RowsAs(Writes(s.worker), Failed)|)
      && (Finished(s.campaign) ==>
            && s.campaign.value.sentCount == |RowsAs(s.rows, Sent)|
            && s.campaign.value.failedCount == |RowsAs(s.rows, Failed)|)
  }

  lemma OfRunGrows(ds: seq<Dispatch>, d: Dispatch, run: nat)
    ensures |OfRun(ds + [d], run)| == |OfRun(ds, run)| + if d.run == run then 1 else 0
  {
    assert OfRun(ds + [d], run) == OfRun(ds, run) + if d.run == run then {|ds|} else {};
  }

  lemma LoadKeepsSent(s: Sys, configured: bool, recipients: seq<nat>)
    requires SentInv(s) && Legal(s, Load(configured, recipients))
    ensures SentInv(Step(s, Load(configured, recipients)))
  {
    assert OfRun(s.dispatched, s.runs + 1) == {};
  }

  lemma ProcessKeepsSent(s: Sys, ok: bool, now: real)
    requires Inv(s) && SentInv(s) && Legal(s, Process(ok, now)) && !Finished(s.campaign)
    ensures SentInv(Step(s, Process(ok, now)))
  {
    var d := Dispatch(s.worker.r.recipients[Position(s.worker.r)], now, s.runs, s.worker.r.next);
    OfRunGrows(s.dispatched, d, s.runs);
  }

  lemma OthersKeepSent(s: Sys, e: Event)
    requires SentInv(s) && Legal(s, e) && !e.Process? && !e.Load?
    ensures SentInv(Step(s, e))
  {
    OthersDispatchNothing(s, e);
  }

  lemma StepKeepsSent(s: Sys, e: Event)
    requires Inv(s) && FinalInv(s) && SentInv(s) && Legal(s, e)
    ensures SentInv(Step(s, e))
  {
    if e.Process? {
      ProcessKeepsSent(s, e.ok, e.now);
    } else if e.Load? {
      LoadKeepsSent(s, e.configured, e.recipients);
    } else {
      OthersKeepSent(s, e);
    }
  }

  lemma RowsAsOne(writes: map<nat, RowStatus>, id: nat, to: RowStatus, status: RowStatus)
    requires id !in writes
    ensures |RowsAs(writes[id := to], status)| == |RowsAs(writes, status)| + if to == status then 1 else 0
  {
    assert RowsAs(writes[id := to], status) == RowsAs(writes, status) + if to == status then {id} else {};
  }

  lemma RowsAsAll(rows: map<nat, RowStatus>, writes: map<nat, RowStatus>, status: RowStatus)
    requires status != Pending && forall i :: i in writes ==> i in rows && rows[i] == Pending
    ensures |RowsAs(rows + writes, status)| == |RowsAs(rows, status)| + |RowsAs(writes, status)|
  {
    assert RowsAs(rows + writes, status) == RowsAs(rows, status) + RowsAs(writes, status);
  }

  lemma ProcessKeepsOutcome(s: Sys, ok: bool, now: real)
    requires Inv(s) && OutcomeInv(s) && Legal(s, Process(ok, now)) && !Finished(s.campaign)
    ensures OutcomeInv(Step(s, Process(ok, now)))
  {
    ProcessWrites(s, ok, now);
    var id, w := s.worker.r.recipients[Position(s.worker.r)], Writes(s.worker);
    RowsAsOne(w, id, if ok then Sent else Failed, Sent);
    RowsAsOne(w, id, if ok then Sent else Failed, Failed);
  }

  lemma CommitRowsAs(s: Sys, now: real)
    requires Inv(s) && Legal(s, CommitChunk(now))
    ensures var s', w := StepCommit(s, now), Writes(s.worker);
            && s'.rows == s.rows + w && s'.rows.Keys == s.rows.Keys && Writes(s'.worker) == map[]
            && (forall i :: i in w ==> i in s.rows && s.rows[i] == Pending)
  {
  }

  lemma CommitKeepsOutcome(s: Sys, now: real)
    requires Inv(s) && OutcomeInv(s) && Legal(s, CommitChunk(now)) && !Finished(s.campaign)
    ensures OutcomeInv(Step(s, CommitChunk(now)))
  {
    var w := Writes(s.worker);
    CommitRowsAs(s, now);
    RowsAsAll(s.rows, w, Sent);
    RowsAsAll(s.rows, w, Failed);
    assert RowsAs(map[], Sent) == {} && RowsAs(map[], Failed) == {};
  }

  lemma NewRowsArePending(rows: map<nat, RowStatus>, ids: set<nat>, created: set<nat>)
    requires rows.Keys <= created && ids !! created
    ensures var rows' := rows + (map i | i in ids :: Pending);
            && RowsAs(rows', Sent) == RowsAs(rows, Sent) && RowsAs(rows', Failed) == RowsAs(rows, Failed)
            && (rows'.Keys == created + ids ==> rows.Keys == created)
  {
    var rows' := rows + (map i | i in ids :: Pending);
    assert rows'.Keys == rows.Keys + ids;
    if rows'.Keys == created + ids {
      forall i | i in created
        ensures i in rows
      {
        assert i in rows'.Keys;
      }
    }
  }

  lemma SendKeepsOutcome(s: Sys)
    requires RowsInv(s) && OutcomeInv(s) && Legal(s, SendCommit)
    ensures OutcomeInv(Step(s, SendCommit))
  {
    NewRowsArePending(s.rows, s.outbox.value, s.created);
  }

  lemma LoadKeepsOutcome(s: Sys, configured: bool, recipients: seq<nat>)
    requires Inv(s) && OutcomeInv(s) && Legal(s, Load(configured, recipients))
    ensures OutcomeInv(Step(s, Load(configured, recipients)))
  {
    if s.settled == {} {
      assert RowsAs(s.rows, Sent) == {} && RowsAs(s.rows, Failed) == {};
    }
  }

  lemma StepKeepsOutcome(s: Sys, e: Event)
    requires Inv(s) && FinalInv(s) && OutcomeInv(s) && Legal(s, e)
    ensures OutcomeInv(Step(s, e))
  {
    match e
    case Process(ok, now) => ProcessKeepsOutcome(s, ok, now);
    case CommitChunk(now) => CommitKeepsOutcome(s, now);
    case SendCommit => SendKeepsOutcome(s);
    case Load(configured, recipients) => LoadKeepsOutcome(s, configured, recipients);
    case DeleteRow(id) => assert id in s.created && id !in Step(s, e).rows;
    case _ =>
  }

  lemma {:induction false} RunKeepsCounts(s: Sys, es: seq<Event>)
    requires Inv(s) && FinalInv(s) && SentInv(s) && OutcomeInv(s) && LegalRun(s, es)
    ensures SentInv(Run(s, es)) && OutcomeInv(Run(s, es))
    decreases |es|
  {
    if es != [] {
      StepKeepsInv(s, es[0]);
      StepKeepsFinal(s, es[0]);
      StepKeepsSent(s, es[0]);
      StepKeepsOutcome(s, es[0]);
      RunKeepsCounts(Step(s, es[0]), es[1..]);
    }
  }

  /** At "sent", sent_count and delivered_count are the number of messages the last run
      handed out. When no earlier run had settled anything and no row is gone, they are the
      rows marked sent, and failed_count the rows marked failed. */
  lemma CountersAreExact(clock: real, es: seq<Event>)
    requires LegalRun(Init(clock), es) && Finished(Run(Init(clock), es).campaign)
    ensures var s := Run(Init(clock), es);
            var c := s.campaign.value;
            && c.sentCount == c.deliveredCount == |OfRun(s.dispatched, s.runs)|
            && (s.base == 0 && s.rows.Keys == s.created ==>
                  c.sentCount == |RowsAs(s.rows, Sent)| && c.failedCount == |RowsAs(s.rows, Failed)|)
  {
    InitIsGood(clock);
    RunKeepsCounts(Init(clock), es);
  }

  /** A run that was paused in time reports the same way and leaves the status alone. */
  lemma PausedRunsReport(clock: real, es: seq<Event>)
    requires LegalRun(Init(clock), es) && Legal(Run(Init(clock), es), Finish)
    requires Run(Init(clock), es).campaign.Some?
    ensures var s := Run(Init(clock), es);
            var c, c' := s.campaign.value, Step(s, Finish).campaign.value;
            && c'.sentCount == c'.deliveredCount == |OfRun(s.dispatched, s.runs)|
            && s.base + c'.sentCount + c'.failedCount == |s.settled|
            && c'.total == c.total
            && c'.status == if s.worker.r.current == Sending then Completed else c.status
  {
    InitIsGood(clock);
    RunKeepsCounts(Init(clock), es);
    RunKeepsInv(Init(clock), es);
  }

  // ---------- A company without a channel ----------

  ghost predicate FailedForGood(s: Sys) {
    && (s.campaign.Some? ==> s.campaign.value.status == Unconfigured)
    && !s.worker.Running? && NoSendOpen(s)
  }

  lemma KeepsFailed(s: Sys, e: Event)
    requires FailedForGood(s) && Legal(s, e) && !e.Pause?
    ensures FailedForGood(Step(s, e)) && Step(s, e).dispatched == s.dispatched
  {
  }

  lemma {:induction false} FailedStays(s: Sys, es: seq<Event>)
    requires FailedForGood(s) && LegalRun(s, es) && forall e :: e in es ==> !e.Pause?
    ensures FailedForGood(Run(s, es)) && Run(s, es).dispatched == s.dispatched
    decreases |es|
  {
    if es != [] {
      assert es[0] in es;
      KeepsFailed(s, es[0]);
      FailedStays(Step(s, es[0]), es[1..]);
    }
  }

  /** When its company has no channel a sending campaign fails: nothing is ever handed out,
      and only a pause that had still read "sending" or a deletion changes the status. */
  lemma UnconfiguredFails(s: Sys, recipients: seq<nat>, es: seq<Event>)
    requires IsSending(s.campaign) && s.worker == Started && NoSendOpen(s)
    requires LegalRun(Step(s, Load(false, recipients)), es) && forall e :: e in es ==> !e.Pause?
    ensures var t := Run(Step(s, Load(false, recipients)), es);
            t.dispatched == s.dispatched && (t.campaign.Some? ==> t.campaign.value.status == Unconfigured)
  {
    FailedStays(Step(s, Load(false, recipients)), es);
  }

  // ---------- A crash after the last commit ----------

  /** Everything is settled, nobody is running, no send is open, and the status still says
      "sending". */
  ghost predicate Stuck(s: Sys) {
    IsSending(s.campaign) && PendingIds(s.rows) == {} && !s.worker.Running? && NoSendOpen(s)
  }

  /** A crash after the last commit and before the final stats leads there exactly when the
      run has left nothing pending and no other send is open. */
  lemma CrashBeforeStats(s: Sys)
    requires Inv(s) && s.worker.Running? && s.worker.r.phase == Ending && s.worker.r.current == Sending
    requires IsSending(s.campaign)
    ensures Legal(s, Crash)
    ensures Stuck(Step(s, Crash)) <==> s.missed * s.rows.Keys == {} && NoSendOpen(s)
    ensures Abandoned(Step(s, Crash)) <==> Stuck(Step(s, Crash))
  {
    assert forall id :: !Ahead(s.worker.r, id);
    assert PendingIds(s.rows) == s.missed * s.rows.Keys;
  }

  /** From there no redelivery ever completes the campaign: the executor finds no
      recipients and returns. */
  lemma {:induction false} StuckForever(s: Sys, es: seq<Event>)
    requires Inv(s) && Stuck(s) && LegalRun(s, es)
    requires forall e :: e in es ==> !e.Pause? && !e.DeleteCampaign? && !(e.Load? && !e.configured)
    ensures Stuck(Run(s, es))
    decreases |es|
  {
    if es != [] {
      assert es[0] in es;
      StepKeepsInv(s, es[0]);
      KeepsStuck(s, es[0]);
      StuckForever(Step(s, es[0]), es[1..]);
    }
  }

  lemma KeepsStuck(s: Sys, e: Event)
    requires Inv(s) && Stuck(s) && Legal(s, e)
    requires !e.Pause? && !e.DeleteCampaign? && !(e.Load? && !e.configured)
    ensures Stuck(Step(s, e))
  {
    if e.Load? {
      LoadsPending(s.rows, e.recipients);
    }
  }

  lemma LoadsPending(rows: map<nat, RowStatus>, recipients: seq<nat>)
    requires Selects(rows, recipients)
    ensures recipients != [] ==> PendingIds(rows) != {}
  {
    if recipients != [] {
      assert recipients[0] in PendingIds(rows);
    }
  }

  // ---------- Which sending campaigns can still complete ----------

  /** The run will report "sent" unless something stops it. */
  predicate WillReport(w: Worker) {
    w.Running? && (w.r.phase != Ending || w.r.current == Sending)
  }

  /** Somebody is at work, or will come and find work: a send that will enqueue a task is
      open; or a task is queued, or taken and not acknowledged yet, while a recipient is
      pending or about to be. */
  predicate WillBeServed(s: Sys) {
    || WillReport(s.worker) || s.readers > 0
    || ((PendingIds(s.rows) != {} || s.outbox.Some?) && (s.tasks > 0 || s.worker != Idle))
  }

  function PhaseRank(p: Phase): nat {
    if p == Between then 2 else if p.InChunk? then 1 else 0
  }

  /** The step an undisturbed run takes next. */
  function NextOfRun(s: Sys): Event
    requires s.worker.Running?
  {
    var r := s.worker.r;
    if r.phase == Between then BeginChunk(if s.clock > r.wake then s.clock else r.wake)
    else if r.phase == Ending then Finish
    else if r.next + r.phase.pos < ChunkEnd(r) then Process(false, s.clock)
    else CommitChunk(s.clock)
  }

  lemma NextOfRunIsLegal(s: Sys)
    requires Inv(s) && s.worker.Running? && s.outbox.None?
    ensures Legal(s, NextOfRun(s))
  {
  }

  lemma RunGoesOn(s: Sys)
    requires Inv(s) && s.worker.Running? && s.worker.r.current == Sending && IsSending(s.campaign) && s.outbox.None?
    requires s.worker.r.phase != Ending
    ensures Legal(s, NextOfRun(s))
    ensures var s' := Step(s, NextOfRun(s));
            && s'.worker.Running? && s'.worker.r.current == Sending && IsSending(s'.campaign) && s'.outbox.None?
            && s'.worker.r.recipients == s.worker.r.recipients
            && (s'.worker.r.next > s.worker.r.next ||
                (s'.worker.r.next == s.worker.r.next && PhaseRank(s'.worker.r.phase) < PhaseRank(s.worker.r.phase)) ||
                (s'.worker.r.next == s.worker.r.next && s'.worker.r.phase.InChunk? && s.worker.r.phase.InChunk? &&
                 s'.worker.r.phase.pos == s.worker.r.phase.pos + 1))
  {
    NextOfRunIsLegal(s);
  }

  /** An undisturbed run of a sending campaign completes it. */
  lemma {:induction false} AliveCanComplete(s: Sys)
    requires Inv(s) && s.worker.Running? && s.worker.r.current == Sending && IsSending(s.campaign) && s.outbox.None?
    ensures CanComplete(s)
    decreases |s.worker.r.recipients| - s.worker.r.next, PhaseRank(s.worker.r.phase), LeftInChunk(s.worker)
  {
    if s.worker.r.phase == Ending {
      FinishCompletes(s);
    } else {
      var e := NextOfRun(s);
      RunGoesOn(s);
      StepKeepsInv(s, e);
      AliveCanComplete(Step(s, e));
      CanCompleteAfter(s, e);
    }
  }

  lemma {:induction false} Enumerate(all: set<nat>) returns (s: seq<nat>)
    ensures Distinct(s) && |s| == |all| && forall x :: x in s <==> x in all
    decreases |all|
  {
    if all == {} {
      s := [];
    } else {
      var x :| x in all;
      var rest := Enumerate(all - {x});
      s := [x] + rest;
    }
  }

  /** The query for pending recipients can always return something. */
  lemma SomeSelection(rows: map<nat, RowStatus>) returns (recipients: seq<nat>)
    ensures Selects(rows, recipients)
    ensures PendingIds(rows) != {} ==> recipients != []
  {
    var all := Enumerate(PendingIds(rows));
    recipients := if |all| < AUDIENCE_CAP then all else all[..AUDIENCE_CAP];
    forall i | i in recipients
      ensures i in PendingIds(rows)
    {
      assert i in all;
    }
  }

  lemma StartedCanComplete(s: Sys)
    requires Inv(s) && s.worker == Started && IsSending(s.campaign) && PendingIds(s.rows) != {} && s.outbox.None?
    ensures CanComplete(s)
  {
    var recipients := SomeSelection(s.rows);
    var e := Load(true, recipients);
    StepKeepsInv(s, e);
    AliveCanComplete(Step(s, e));
    CanCompleteAfter(s, e);
  }

  lemma QueuedCanComplete(s: Sys)
    requires Inv(s) && s.worker == Idle && s.tasks > 0 && IsSending(s.campaign) && s.outbox.None?
    requires PendingIds(s.rows) != {}
    ensures CanComplete(s)
  {
    StepKeepsInv(s, Start);
    StartedCanComplete(Step(s, Start));
    CanCompleteAfter(s, Start);
  }

  lemma PendingCanComplete(s: Sys)
    requires Inv(s) && (s.tasks > 0 || s.worker != Idle) && IsSending(s.campaign) && s.outbox.None?
    requires PendingIds(s.rows) != {}
    ensures CanComplete(s)
  {
    if s.worker == Idle {
      QueuedCanComplete(s);
    } else {
      StepKeepsInv(s, Crash);
      QueuedCanComplete(Step(s, Crash));
      CanCompleteAfter(s, Crash);
    }
  }

  lemma FlushedCanComplete(s: Sys)
    requires Inv(s) && (s.tasks > 0 || s.worker != Idle) && s.campaign.Some? && s.outbox.Some?
    ensures CanComplete(s)
  {
    var s' := Step(s, SendCommit);
    StepKeepsInv(s, SendCommit);
    var id :| id in s.outbox.value;
    assert id in PendingIds(s'.rows);
    PendingCanComplete(s');
    CanCompleteAfter(s, SendCommit);
  }

  lemma {:induction false} NewId(ids: set<nat>) returns (id: nat)
    ensures forall i :: i in ids ==> i < id
    decreases |ids|
  {
    id := 0;
    if ids != {} {
      var x :| x in ids;
      var above := NewId(ids - {x});
      id := if above <= x then x + 1 else above;
      assert forall i :: i in ids ==> i == x || i in ids - {x};
    }
  }

  lemma ReadCanComplete(s: Sys)
    requires Inv(s) && s.readers > 0 && s.campaign.Some?
    ensures CanComplete(s)
  {
    if s.outbox.Some? {
      StepKeepsInv(s, SendRollback);
      ReadCanCompleteAlone(Step(s, SendRollback));
      CanCompleteAfter(s, SendRollback);
    } else {
      ReadCanCompleteAlone(s);
    }
  }

  lemma ReadCanCompleteAlone(s: Sys)
    requires Inv(s) && s.readers > 0 && s.campaign.Some? && s.outbox.None?
    ensures CanComplete(s)
  {
    var id := NewId(s.created);
    StepKeepsInv(s, SendFlush({id}));
    FlushedCanComplete(Step(s, SendFlush({id})));
    CanCompleteAfter(s, SendFlush({id}));
  }

  lemma ReportCanComplete(s: Sys)
    requires Inv(s) && IsSending(s.campaign) && WillReport(s.worker)
    ensures CanComplete(s)
  {
    if s.outbox.Some? {
      StepKeepsInv(s, SendRollback);
      AliveCanComplete(Step(s, SendRollback));
      CanCompleteAfter(s, SendRollback);
    } else {
      AliveCanComplete(s);
    }
  }

  lemma ServedCanComplete(s: Sys)
    requires Inv(s) && IsSending(s.campaign) && WillBeServed(s)
    ensures CanComplete(s)
  {
    if WillReport(s.worker) {
      ReportCanComplete(s);
    } else if s.readers > 0 {
      ReadCanComplete(s);
    } else if s.outbox.Some? {
      FlushedCanComplete(s);
    } else {
      PendingCanComplete(s);
    }
  }

  /** Nobody serves the campaign any more, and nothing brings anybody back. */
  ghost predicate Abandoned(s: Sys) {
    !Unsent(s.campaign) && !Finished(s.campaign) && !WillBeServed(s)
  }

  lemma StaysAbandoned(s: Sys, e: Event)
    requires Abandoned(s) && Legal(s, e)
    ensures Abandoned(Step(s, e)) && Step(s, e).dispatched == s.dispatched
  {
    if e.DeleteRow? {
      assert PendingIds(Step(s, e).rows) <= PendingIds(s.rows);
    } else if e.Load? && IsSending(s.campaign) && e.configured {
      LoadsPending(s.rows, e.recipients);
    }
  }

  /** From there no run hands out a message or completes the campaign, whatever is paused,
      deleted, lost or redelivered. */
  lemma {:induction false} AbandonedForever(s: Sys, es: seq<Event>)
    requires Abandoned(s) && LegalRun(s, es)
    ensures Abandoned(Run(s, es)) && Run(s, es).dispatched == s.dispatched
    decreases |es|
  {
    if es != [] {
      StaysAbandoned(s, es[0]);
      AbandonedForever(Step(s, es[0]), es[1..]);
    }
  }

  /** A sending campaign can still complete if and only if it will be served. */
  lemma CompletesIffServed(s: Sys)
    requires Inv(s) && IsSending(s.campaign)
    ensures CanComplete(s) <==> WillBeServed(s)
  {
    if WillBeServed(s) {
      ServedCanComplete(s);
    }
    forall es | LegalRun(s, es) && !WillBeServed(s)
      ensures !Finished(Run(s, es).campaign)
    {
      AbandonedForever(s, es);
    }
  }

  /** An exception ends a task for good, a lost worker does not. After an exception the
      campaign is abandoned unless a send has yet to enqueue a task, or another task is queued
      and will find recipients; after a loss only if nobody is pending. */
  lemma ExceptionsAbandon(s: Sys)
    requires IsSending(s.campaign) && s.worker != Idle
    ensures Abandoned(Step(s, Abort)) <==>
              s.readers == 0 && (s.tasks == 0 || (PendingIds(s.rows) == {} && s.outbox.None?))
    ensures Abandoned(Step(s, Crash)) <==> s.readers == 0 && PendingIds(s.rows) == {} && s.outbox.None?
  {
  }

  /** A campaign that was sent while no task of its own was left. */
  function LostSend(clock: real, ids: set<nat>): Sys {
    Sys(Some(Campaign(Sending, |ids|, 0, 0, 0)), map i | i in ids :: Pending, 0, None, 0, Idle, clock, [],
        ids, {}, {}, 0, 1, 0, 0)
  }

  /** No crash is needed to get there: the task is enqueued before the send commits, and a
      worker that takes it in between finds a draft and skips it. */
  lemma SendCanBeLost(clock: real, ids: set<nat>)
    requires 0 < |ids| <= 10000
    ensures var es := [SendRead, SendFlush(ids), Start, Load(true, []), Ack, SendCommit];
            LegalRun(Init(clock), es) && Run(Init(clock), es) == LostSend(clock, ids)
  {
    var s0 := Init(clock);
    var s1 := s0.(readers := 1);
    var s2 := s0.(outbox := Some(ids), worker := Started);
    assert Step(Step(s1, SendFlush(ids)), Start) == s2;
    var s4 := s2.(worker := Idle);
    assert Legal(s2, Load(true, [])) && Step(Step(s2, Load(true, [])), Ack) == s4;
    LostSendCommits(s4, clock, ids);
    StepThenRun(Step(s2, Load(true, [])), Ack, [SendCommit]);
    StepThenRun(s2, Load(true, []), [Ack, SendCommit]);
    StepThenRun(Step(s1, SendFlush(ids)), Start, [Load(true, []), Ack, SendCommit]);
    StepThenRun(s1, SendFlush(ids), [Start, Load(true, []), Ack, SendCommit]);
    StepThenRun(s0, SendRead, [SendFlush(ids), Start, Load(true, []), Ack, SendCommit]);
  }

  lemma LostSendCommits(s: Sys, clock: real, ids: set<nat>)
    requires s == Init(clock).(outbox := Some(ids))
    ensures LegalRun(s, [SendCommit]) && Run(s, [SendCommit]) == LostSend(clock, ids)
  {
    assert map[] + (map i | i in ids :: Pending) == (map i | i in ids :: Pending);
    assert {} + ids == ids;
    StepThenRun(s, SendCommit, []);
  }

  /** Its recipients wait for good: nothing is ever handed out, and it never completes. */
  lemma LostSendIsFinal(clock: real, ids: set<nat>, es: seq<Event>)
    requires LegalRun(LostSend(clock, ids), es)
    ensures IsSending(LostSend(clock, ids).campaign) && PendingIds(LostSend(clock, ids).rows) == ids
    ensures !Finished(Run(LostSend(clock, ids), es).campaign) && Run(LostSend(clock, ids), es).dispatched == []
  {
    assert PendingIds(LostSend(clock, ids).rows) == ids;
    AbandonedForever(LostSend(clock, ids), es);
  }

  // ---------- Two sends of one campaign ----------

  lemma {:induction false} RunJoin(s: Sys, es: seq<Event>, fs: seq<Event>)
    requires LegalRun(s, es) && LegalRun(Run(s, es), fs)
    ensures LegalRun(s, es + fs) && Run(s, es + fs) == Run(Run(s, es), fs)
    decreases |es|
  {
    if es == [] {
      assert [] + fs == fs;
    } else {
      RunJoin(Step(s, es[0]), es[1..], fs);
      StepThenRun(s, es[0], es[1..] + fs);
      assert es + fs == [es[0]] + (es[1..] + fs);
    }
  }

  /** Both sends have read a draft; the second waits for the first one's lock. */
  function TwoSends(clock: real, first: set<nat>, second: set<nat>): Sys {
    Sys(Some(Campaign(Sending, |second|, 0, 0, 0)), map i | i in first + second :: Pending, 0, None, 2, Idle, clock, [],
        first + second, {}, {}, 0, 2, 0, 0)
  }

  function SendOf(ids: set<nat>): seq<Event> {
    [SendFlush(ids), SendCommit]
  }

  lemma SendTakesEffect(s: Sys, ids: set<nat>)
    requires Legal(s, SendFlush(ids))
    ensures LegalRun(s, SendOf(ids))
    ensures Run(s, SendOf(ids)) == StepSend(s.(readers := s.readers - 1, tasks := s.tasks + 1), ids)
  {
    var s1 := Step(s, SendFlush(ids));
    StepThenRun(s1, SendCommit, []);
    StepThenRun(s, SendFlush(ids), [SendCommit]);
    assert StepSend(s1, ids) == StepSend(s.(readers := s.readers - 1, tasks := s.tasks + 1), ids);
  }

  lemma BothRead(clock: real)
    ensures LegalRun(Init(clock), [SendRead, SendRead])
    ensures Run(Init(clock), [SendRead, SendRead]) == Init(clock).(readers := 2)
  {
    StepThenRun(Init(clock).(readers := 1), SendRead, []);
    StepThenRun(Init(clock), SendRead, [SendRead]);
  }

  /** Nothing keeps a campaign from being sent twice: both sends read it as a draft. */
  lemma CanBeSentTwice(clock: real, first: set<nat>, second: set<nat>)
    requires 0 < |first| <= 10000 && 0 < |second| <= 10000 && first !! second
    ensures var es := [SendRead, SendRead] + SendOf(first) + SendOf(second);
            LegalRun(Init(clock), es) && Run(Init(clock), es) == TwoSends(clock, first, second)
  {
    var s0 := Init(clock);
    BothRead(clock);
    var s2 := s0.(readers := 2);
    SendTakesEffect(s2, first);
    RunJoin(s0, [SendRead, SendRead], SendOf(first));
    var s3 := Run(s2, SendOf(first));
    SendTakesEffect(s3, second);
    RunJoin(s0, [SendRead, SendRead] + SendOf(first), SendOf(second));
    assert s3.rows + (map i | i in second :: Pending) == map i | i in first + second :: Pending;
  }

  /** A run over two recipients, both handed to the queue: after its load, and before its
      commit. */
  function TwoBegun(s: Sys, i: nat, j: nat): Sys
    requires s.tasks > 0
  {
    s.(tasks := s.tasks - 1, worker := Running(RunState([i, j], 0, InChunk(0, map[]), Sending, 0, 0, s.clock)),
       missed := {}, base := |s.settled|, runs := s.runs + 1)
  }

  function TwoProcessed(s: Sys, i: nat, j: nat): Sys
    requires s.tasks > 0
  {
    var now, run := s.clock, s.runs + 1;
    s.(tasks := s.tasks - 1,
       worker := Running(RunState([i, j], 0, InChunk(2, map[i := Sent, j := Sent]), Sending, 2, 0, now)),
       missed := {}, base := |s.settled|, runs := run,
       dispatched := s.dispatched + [Dispatch(i, now, run, 0), Dispatch(j, now, run, 0)])
  }

  lemma LoadTwo(s: Sys, i: nat, j: nat)
    requires s.worker == Started && IsSending(s.campaign) && i != j && PendingIds(s.rows) == {i, j}
    ensures Legal(s, Load(true, [i, j]))
    ensures Step(s, Load(true, [i, j])) ==
            s.(worker := Running(RunState([i, j], 0, Between, Sending, 0, 0, s.clock)),
               missed := {}, base := |s.settled|, runs := s.runs + 1)
  {
    assert i in PendingIds(s.rows) && j in PendingIds(s.rows);
    assert PendingIds(s.rows) - (set x | x in [i, j]) == {};
  }

  lemma OpenTwo(s: Sys, r: RunState) returns (es: seq<Event>)
    requires s.worker == Running(r) && r.phase == Between && r.next < |r.recipients| && r.wake == s.clock
    requires IsSending(s.campaign) && r.current == Sending
    ensures LegalRun(s, es) && Run(s, es) == s.(worker := Running(r.(phase := InChunk(0, map[]))))
  {
    StepThenRun(s, BeginChunk(s.clock), []);
    es := [BeginChunk(s.clock)] + [];
  }

  lemma BeginTwo(s: Sys, i: nat, j: nat) returns (es: seq<Event>)
    requires s.worker == Idle && s.tasks > 0 && IsSending(s.campaign) && i != j && PendingIds(s.rows) == {i, j}
    ensures LegalRun(s, es) && Run(s, es) == TwoBegun(s, i, j)
  {
    var s1 := s.(tasks := s.tasks - 1, worker := Started);
    LoadTwo(s1, i, j);
    var open := OpenTwo(Step(s1, Load(true, [i, j])), RunState([i, j], 0, Between, Sending, 0, 0, s.clock));
    StepThenRun(s1, Load(true, [i, j]), open);
    StepThenRun(s, Start, [Load(true, [i, j])] + open);
    es := [Start] + ([Load(true, [i, j])] + open);
  }

  lemma ProcessTwo(s: Sys, i: nat, j: nat) returns (es: seq<Event>)
    requires s.tasks > 0 && i != j && i in s.rows && j in s.rows
    ensures LegalRun(TwoBegun(s, i, j), es) && Run(TwoBegun(s, i, j), es) == TwoProcessed(s, i, j)
  {
    var s0, e := TwoBegun(s, i, j), Process(true, s.clock);
    var s1 := Step(s0, e);
    assert s1.worker == Running(RunState([i, j], 0, InChunk(1, map[i := Sent]), Sending, 1, 0, s.clock));
    var s2 := Step(s1, e);
    assert s2.dispatched == s.dispatched + [Dispatch(i, s.clock, s.runs + 1, 0), Dispatch(j, s.clock, s.runs + 1, 0)];
    assert map[i := Sent][j := Sent] == map[i := Sent, j := Sent];
    assert s2 == TwoProcessed(s, i, j);
    StepThenRun(s1, e, []);
    StepThenRun(s0, e, [e]);
    es := [e] + [e];
  }

  /** Where a run over `i` and `j` that started in `s` ends, before its acknowledgement. */
  function TwoDone(s: Sys, i: nat, j: nat): Sys
    requires s.tasks > 0 && s.campaign.Some?
  {
    TwoProcessed(s, i, j).(
      campaign := Some(s.campaign.value.(status := Completed, sentCount := 2, failedCount := 0, deliveredCount := 2)),
      worker := Acking, rows := s.rows + map[i := Sent, j := Sent], settled := s.settled + {i, j})
  }

  lemma FinishTwo(s: Sys, i: nat, j: nat) returns (es: seq<Event>)
    requires s.tasks > 0 && i != j && s.campaign.Some? && s.outbox.None?
    ensures LegalRun(TwoProcessed(s, i, j), es) && Run(TwoProcessed(s, i, j), es) == TwoDone(s, i, j)
  {
    var s0 := TwoProcessed(s, i, j);
    var s1 := Step(s0, CommitChunk(s.clock));
    assert map[i := Sent, j := Sent].Keys == {i, j};
    StepThenRun(s1, Finish, []);
    StepThenRun(s0, CommitChunk(s.clock), [Finish]);
    es := [CommitChunk(s.clock)] + [Finish];
  }

  lemma RunOverTwo(s: Sys, i: nat, j: nat) returns (es: seq<Event>)
    requires s.worker == Idle && s.tasks > 0 && IsSending(s.campaign) && s.outbox.None?
    requires i != j && PendingIds(s.rows) == {i, j}
    ensures LegalRun(s, es) && Run(s, es) == TwoDone(s, i, j)
  {
    assert i in PendingIds(s.rows) && j in PendingIds(s.rows);
    var begin := BeginTwo(s, i, j);
    var process := ProcessTwo(s, i, j);
    var finish := FinishTwo(s, i, j);
    RunJoin(s, begin, process);
    RunJoin(s, begin + process, finish);
    es := begin + process + finish;
  }

  /** Two sends of one contact each: no crash, nothing deleted, everything settled by one
      run, two messages out, and the counters are twice the total. */
  lemma SentTwiceCountsTwice(clock: real, i: nat, j: nat) returns (es: seq<Event>)
    requires i != j
    ensures LegalRun(Init(clock), es)
    ensures var t := Run(Init(clock), es);
            && Finished(t.campaign) && t.campaign.value.sentCount == 2 && t.campaign.value.total == 1
            && |t.dispatched| == 2 && t.crashes == 0 && t.base == 0 && t.settled == t.created == {i, j}
  {
    var s := TwoSends(clock, {i}, {j});
    var sends := [SendRead, SendRead] + SendOf({i}) + SendOf({j});
    CanBeSentTwice(clock, {i}, {j});
    assert PendingIds(s.rows) == {i, j};
    var run := RunOverTwo(s, i, j);
    RunJoin(Init(clock), sends, run);
    es := sends + run;
  }

  /** A send of two recipients and a run over them. */
  function SentAndDone(s: Sys, i: nat, j: nat): Sys
    requires s.readers > 0 && s.campaign.Some?
  {
    TwoDone(StepSend(s.(readers := s.readers - 1, tasks := s.tasks + 1), {i, j}), i, j)
  }

  lemma SendAndRunTwo(s: Sys, i: nat, j: nat) returns (es: seq<Event>)
    requires s.worker == Idle && s.readers > 0 && s.campaign.Some? && s.outbox.None? && PendingIds(s.rows) == {}
    requires i != j && i !in s.created && j !in s.created && s.rows.Keys <= s.created
    ensures LegalRun(s, es) && Run(s, es) == SentAndDone(s, i, j)
  {
    SendTakesEffect(s, {i, j});
    var s' := StepSend(s.(readers := s.readers - 1, tasks := s.tasks + 1), {i, j});
    assert PendingIds(s'.rows) == {i, j};
    var run := RunOverTwo(s', i, j);
    RunJoin(s, SendOf({i, j}), run);
    es := SendOf({i, j}) + run;
  }

  lemma ReadTwice(clock: real) returns (es: seq<Event>)
    ensures LegalRun(Init(clock), es) && Run(Init(clock), es) == Init(clock).(readers := 2)
  {
    BothRead(clock);
    es := [SendRead, SendRead];
  }

  lemma Acknowledge(s: Sys) returns (es: seq<Event>)
    requires s.worker == Acking
    ensures LegalRun(s, es) && Run(s, es) == s.(worker := Idle)
  {
    StepThenRun(s, Ack, []);
    es := [Ack] + [];
  }

  /** Two open sends, of which one has taken effect and its run is over. */
  function OneSendDone(clock: real): Sys {
    SentAndDone(Init(clock).(readers := 2), 0, 1).(worker := Idle)
  }

  lemma FirstSendDone(clock: real) returns (es: seq<Event>)
    ensures LegalRun(Init(clock), es) && Run(Init(clock), es) == OneSendDone(clock)
  {
    var both := ReadTwice(clock);
    var s1 := Init(clock).(readers := 2);
    var first := SendAndRunTwo(s1, 0, 1);
    var ack := Acknowledge(SentAndDone(s1, 0, 1));
    RunJoin(Init(clock), both, first);
    RunJoin(Init(clock), both + first, ack);
    es := both + first + ack;
  }

  /** A second send that takes effect after the first one's run: its own run settles as many
      as it had, so here the counters add up although they leave out the first run. */
  lemma LateSendAddsUp(clock: real) returns (es: seq<Event>)
    ensures LegalRun(Init(clock), es)
    ensures var t := Run(Init(clock), es);
            && Finished(t.campaign)
            && t.campaign.value.sentCount + t.campaign.value.failedCount == t.campaign.value.total
            && t.base == 2 && t.created == {0, 1, 2, 3} && t.crashes == 0
  {
    var first := FirstSendDone(clock);
    assert PendingIds(OneSendDone(clock).rows) == {};
    var second := SendAndRunTwo(OneSendDone(clock), 2, 3);
    RunJoin(Init(clock), first, second);
    es := first + second;
  }

  // ---------- The executor's own loop ----------

  lemma {:induction false} RunAppend(s: Sys, es: seq<Event>, e: Event)
    requires LegalRun(s, es) && Legal(Run(s, es), e)
    ensures LegalRun(s, es + [e]) && Run(s, es + [e]) == Step(Run(s, es), e)
    decreases |es|
  {
    if es == [] {
      assert [] + [e] == [e] && [e][1..] == [];
      assert LegalRun(Step(s, e), []);
    } else {
      RunAppend(Step(s, es[0]), es[1..], e);
      assert (es + [e])[1..] == es[1..] + [e];
    }
  }

  /** `_async_execute` over the shared tables. The ghost fields follow the protocol: it
      started in `start`, went through `events`, and is now in `state`. */
  class Executor {
    var campaign: Option<Campaign>
    var rows: map<nat, RowStatus>
    var readers: nat
    var outbox: Option<set<nat>>
    var created: set<nat>
    var dispatched: seq<Dispatch>
    var clock: real
    var runs: nat
    ghost var start: Sys
    ghost var events: seq<Event>
    ghost var state: Sys

    /** The recorded events form a legal run of the protocol that ends in `state`. */
    ghost predicate IsRun()
      reads this`start, this`events, this`state
    {
      LegalRun(start, events) && Run(start, events) == state
    }

    /** The tables are those of `state`. */
    ghost predicate Agrees()
      reads this
    {
      && state.campaign == campaign && state.rows == rows && state.readers == readers && state.outbox == outbox
      && state.created == created && state.dispatched == dispatched && state.clock == clock && state.runs == runs
    }

    /** The run stands at this point of its loop. */
    ghost predicate At(selected: seq<nat>, next: nat, phase: Phase, sent: nat, failed: nat, wake: real)
      reads this`state
    {
      state.worker == Running(RunState(selected, next, phase, Sending, sent, failed, wake))
    }

    constructor (s: Sys)
      ensures IsRun() && Agrees() && start == state == s
    {
      campaign, rows, readers, outbox, created := s.campaign, s.rows, s.readers, s.outbox, s.created;
      dispatched, clock, runs := s.dispatched, s.clock, s.runs;
      start, events, state := s, [], s;
    }

    ghost method Record(e: Event)
      requires IsRun() && Legal(state, e)
      modifies this`events, this`state
      ensures IsRun() && state == Step(old(state), e) && events == old(events) + [e]
    {
      RunAppend(start, events, e);
      events, state := events + [e], Step(state, e);
    }

    /** A send that holds the lock on the campaign's row commits, or rolls back. */
    method ReleaseLock(commits: bool)
      requires IsRun() && Agrees() && outbox.Some?
      modifies this`campaign, this`rows, this`outbox, this`created, this`events, this`state
      ensures IsRun() && Agrees() && outbox.None? && state.worker == old(state.worker) && old(events) <= events
      ensures IsSending(old(campaign)) ==> IsSending(campaign)
    {
      if commits && campaign.Some? {
        Record(SendCommit);
        var ids := outbox.value;
        campaign := Some(campaign.value.(status := Sending, total := |ids|));
        rows := rows + map i | i in ids :: Pending;
        created, outbox := created + ids, None;
      } else {
        Record(SendRollback);
        outbox := None;
      }
    }

    /** One step of another send of this campaign. */
    method OtherSend(flushes: bool, ids: set<nat>, commits: bool)
      requires IsRun() && Agrees()
      modifies this`campaign, this`rows, this`readers, this`outbox, this`created, this`events, this`state
      ensures IsRun() && Agrees() && state.worker == old(state.worker) && old(events) <= events
    {
      if outbox.Some? {
        ReleaseLock(commits);
      } else if readers > 0 && flushes {
        if campaign.Some? && 0 < |ids| <= AUDIENCE_CAP && ids !! created {
          Record(SendFlush(ids));
          readers, outbox := readers - 1, Some(ids);
        }
      } else if readers > 0 {
        Record(SendDrop);
        readers := readers - 1;
      }
    }

    /** A pause, a deletion of the campaign, or of the contact of recipient `id`. `held` are
        the rows the executor's transaction has locked. */
    method Disturb(held: set<nat>, pause: bool, id: nat)
      requires IsRun() && Agrees() && held == Writes(state.worker).Keys
      modifies this`campaign, this`rows, this`events, this`state
      ensures IsRun() && Agrees() && state.worker == old(state.worker) && old(events) <= events
    {
      if pause && campaign.Some? && !Unsent(campaign) && outbox.None? {
        Record(Pause);
        campaign := Some(campaign.value.(status := Paused));
      } else if id in rows && id !in held {
        Record(DeleteRow(id));
        rows := rows - {id};
      } else if campaign.Some? && outbox.None? && held == {} {
        Record(DeleteCampaign);
        campaign, rows := None, map[];
      }
    }

    /** What may happen to the tables while the executor awaits. */
    method Await(held: set<nat>)
      requires IsRun() && Agrees() && held == Writes(state.worker).Keys
      modifies this`campaign, this`rows, this`readers, this`outbox, this`created, this`events, this`state
      ensures IsRun() && Agrees() && state.worker == old(state.worker) && old(events) <= events
    {
      var more: nat := *;
      while more > 0
        invariant IsRun() && Agrees() && state.worker == old(state.worker) && old(events) <= events
      {
        more := more - 1;
        var send: bool, choice: bool, id: nat, ids: set<nat>, commits: bool := *, *, *, *, *;
        if send {
          OtherSend(choice, ids, commits);
        } else {
          Disturb(held, choice, id);
        }
      }
    }

    /** An UPDATE of the campaign waits until no send holds its row. */
    method AwaitLock()
      requires IsRun() && Agrees()
      modifies this`campaign, this`rows, this`outbox, this`created, this`events, this`state
      ensures IsRun() && Agrees() && outbox.None? && state.worker == old(state.worker) && old(events) <= events
      ensures IsSending(old(campaign)) ==> IsSending(campaign)
    {
      if outbox.Some? {
        var commits: bool := *;
        ReleaseLock(commits);
      }
    }

    /** The clock some time later, not before `wake`. */
    method Later(wake: real) returns (now: real)
      ensures clock <= now && wake <= now
    {
      var delay: real := *;
      now := if wake > clock then wake else clock;
      now := if delay > 0.0 then now + delay else now;
    }

    /** The whole task, whatever happens at its awaits and whichever enqueues raise: every
        execution of the chunk loop is a legal run of the protocol above. `selected` is
        what the query for pending recipients returned. */
    method Execute(configured: bool, selected: seq<nat>)
      requires Inv(state) && IsRun() && Agrees() && state.worker == Started && Selects(rows, selected)
      modifies this
      ensures old(events) <= events && start == old(start)
      ensures IsRun() && Agrees() && (state.worker == Acking || state.worker == Idle)
    {
      if IsSending(campaign) && !configured {
        AwaitLock();
      }
      Record(Load(configured, selected));
      if !IsSending(campaign) {
        return;
      }
      if !configured {
        campaign := Some(campaign.value.(status := Unconfigured));
        return;
      }
      if selected == [] {
        return;
      }
      runs := runs + 1;
      SendAll(selected);
    }

    /** Step 3 and 4 of the task: the chunk loop and the final stats. */
    method SendAll(selected: seq<nat>)
      requires IsRun() && Agrees() && At(selected, 0, Between, 0, 0, clock) && selected != []
      modifies this
      ensures old(events) <= events && start == old(start)
      ensures IsRun() && Agrees() && (state.worker == Acking || state.worker == Idle)
    {
      var sent, failed, current, next, wake := 0, 0, Sending, 0, clock;
      while next < |selected|
        invariant old(events) <= events && start == old(start) && IsRun() && Agrees()
        invariant next <= |selected| && current == Sending
        invariant At(selected, next, if next < |selected| then Between else Ending, sent, failed, wake)
      {
        current := CheckStatus(selected, next, sent, failed, wake);
        if campaign.None? {
          return;
        }
        if current != Sending {
          break;
        }
        sent, failed := SendChunk(selected, next, sent, failed, wake);
        next := if next + CHUNK < |selected| then next + CHUNK else |selected|;
        wake := clock + 1.0;
      }
      Report(sent, failed, current);
    }

    /** Step 4, once the campaign's row is free. */
    method Report(sent: nat, failed: nat, current: Status)
      requires IsRun() && Agrees() && state.worker.Running? && state.worker.r.phase == Ending
      requires state.worker.r.sent == sent && state.worker.r.failed == failed && state.worker.r.current == current
      modifies this
      ensures old(events) <= events && start == old(start)
      ensures IsRun() && Agrees() && state.worker == Acking
    {
      Await({});
      AwaitLock();
      FinalStats(sent, failed, current);
    }

    /** The check at a chunk's start; a deleted campaign raises. */
    method CheckStatus(selected: seq<nat>, next: nat, sent: nat, failed: nat, wake: real) returns (current: Status)
      requires IsRun() && Agrees() && next < |selected| && At(selected, next, Between, sent, failed, wake)
      modifies this
      ensures old(events) <= events && start == old(start) && IsRun() && Agrees()
      ensures campaign.None? ==> state.worker == Idle
      ensures campaign.Some? ==> state.worker == Running(
                RunState(selected, next, if current == Sending then InChunk(0, map[]) else Ending,
                         current, sent, failed, wake))
    {
      Await({});
      var now := Later(wake);
      Record(BeginChunk(now));
      clock := now;
      current := if campaign.Some? then campaign.value.status else Sending;
    }

    /** The counters of this run, and the status that follows from the last one read. */
    method FinalStats(sent: nat, failed: nat, current: Status)
      requires IsRun() && Agrees() && Legal(state, Finish)
      requires state.worker.r.sent == sent && state.worker.r.failed == failed && state.worker.r.current == current
      modifies this`campaign, this`events, this`state
      ensures old(events) <= events
      ensures IsRun() && Agrees() && state.worker == Acking
    {
      Record(Finish);
      if campaign.Some? {
        campaign := Some(campaign.value.(sentCount := sent, failedCount := failed, deliveredCount := sent));
        if current == Sending {
          campaign := Some(campaign.value.(status := Completed));
        }
      }
    }

    /** One chunk inside its transaction, up to and including the commit. */
    method SendChunk(selected: seq<nat>, next: nat, sent0: nat, failed0: nat, wake: real)
      returns (sent: nat, failed: nat)
      requires IsRun() && Agrees() && next < |selected|
      requires At(selected, next, InChunk(0, map[]), sent0, failed0, wake)
      modifies this
      ensures old(events) <= events && start == old(start) && IsRun() && Agrees()
      ensures var end := if next + CHUNK < |selected| then next + CHUNK else |selected|;
              At(selected, end, if end < |selected| then Between else Ending, sent, failed, clock + 1.0)
    {
      sent, failed := sent0, failed0;
      var end := if next + CHUNK < |selected| then next + CHUNK else |selected|;
      var pos: nat, writes: map<nat, RowStatus> := 0, map[];
      while next + pos < end
        invariant old(events) <= events && start == old(start) && IsRun() && Agrees() && next + pos <= end
        invariant At(selected, next, InChunk(pos, writes), sent, failed, wake)
      {
        var status := SendOne(selected, next, pos, writes, sent, failed, wake);
        if status.Some? {
          writes := writes[selected[next + pos] := status.value];
          sent := if status.value == Sent then sent + 1 else sent;
          failed := if status.value == Sent then failed else failed + 1;
        }
        pos := pos + 1;
      }
      CommitRows(selected, next, pos, writes, sent, failed, wake);
    }

    /** The end of a chunk's transaction. */
    method CommitRows(selected: seq<nat>, next: nat, pos: nat, writes: map<nat, RowStatus>, sent: nat, failed: nat,
                      wake: real)
      requires IsRun() && Agrees() && next < |selected|
      requires next + pos == if next + CHUNK < |selected| then next + CHUNK else |selected|
      requires At(selected, next, InChunk(pos, writes), sent, failed, wake)
      modifies this
      ensures old(events) <= events && start == old(start) && IsRun() && Agrees()
      ensures At(selected, next + pos, if next + pos < |selected| then Between else Ending, sent, failed, clock + 1.0)
    {
      Await(writes.Keys);
      CommitNow(RunState(selected, next, InChunk(pos, writes), Sending, sent, failed, wake));
    }

    method CommitNow(r: RunState)
      requires IsRun() && Agrees() && state.worker == Running(r) && r.phase.InChunk? && Position(r) == ChunkEnd(r)
      modifies this`rows, this`clock, this`events, this`state
      ensures old(events) <= events && IsRun() && Agrees()
      ensures state.worker == Running(
                r.(next := ChunkEnd(r), phase := if ChunkEnd(r) < |r.recipients| then Between else Ending,
                   wake := clock + 1.0))
    {
      var now := Later(clock);
      Record(CommitChunk(now));
      clock := now;
      rows := rows + r.phase.writes;
    }

    /** One recipient: skipped when its row is gone, otherwise handed to the queue, or
        marked as failed when the enqueue raises. */
    method SendOne(selected: seq<nat>, next: nat, pos: nat, writes: map<nat, RowStatus>, sent: nat, failed: nat,
                   wake: real)
      returns (status: Option<RowStatus>)
      requires IsRun() && Agrees() && next + pos < |selected| && pos < CHUNK
      requires At(selected, next, InChunk(pos, writes), sent, failed, wake)
      modifies this
      ensures old(events) <= events && start == old(start) && IsRun() && Agrees()
      ensures status.Some? ==> status.value == Sent || status.value == Failed
      ensures match status
              case None => At(selected, next, InChunk(pos + 1, writes), sent, failed, wake)
              case Some(v) =>
                At(selected, next, InChunk(pos + 1, writes[selected[next + pos] := v]),
                   if v == Sent then sent + 1 else sent, if v == Sent then failed else failed + 1, wake)
    {
      Await(writes.Keys);
      var ok: bool := *;
      status := Enqueue(RunState(selected, next, InChunk(pos, writes), Sending, sent, failed, wake), ok);
    }

    /** The recipient `r` has come to; `ok` when the enqueue does not raise. */
    method Enqueue(r: RunState, ok: bool) returns (status: Option<RowStatus>)
      requires IsRun() && Agrees() && state.worker == Running(r) && r.phase.InChunk? && Position(r) < ChunkEnd(r)
      modifies this`dispatched, this`clock, this`events, this`state
      ensures old(events) <= events && IsRun() && Agrees()
      ensures status == if r.recipients[Position(r)] !in rows then None else Some(if ok then Sent else Failed)
      ensures var phase := InChunk(r.phase.pos + 1, if status.None? then r.phase.writes
                                                    else r.phase.writes[r.recipients[Position(r)] := status.value]);
              state.worker == Running(
                if status.None? then r.(phase := phase)
                else if ok then r.(phase := phase, sent := r.sent + 1) else r.(phase := phase, failed := r.failed + 1))
    {
      var now := Later(clock);
      ProcessMeans(state, r, ok, now);
      Record(Process(ok, now));
      clock := now;
      var id := r.recipients[Position(r)];
      if id !in rows {
        return None;
      }
      if ok {
        dispatched := dispatched + [Dispatch(id, now, runs, r.next)];
      }
      status := Some(if ok then Sent else Failed);
    }
  }

  /** What one turn of the inner loop does to the tables and to the run. */
  lemma ProcessMeans(s: Sys, r: RunState, ok: bool, now: real)
    requires s.worker == Running(r) && r.phase.InChunk? && s.clock <= now && Position(r) < ChunkEnd(r)
    ensures Legal(s, Process(ok, now))
    ensures var id, pos, writes := r.recipients[Position(r)], r.phase.pos, r.phase.writes;
            Step(s, Process(ok, now)) ==
            if id !in s.rows then s.(clock := now, worker := Running(r.(phase := InChunk(pos + 1, writes))))
            else if ok then
              s.(clock := now, dispatched := s.dispatched + [Dispatch(id, now, s.runs, r.next)],
                 worker := Running(r.(phase := InChunk(pos + 1, writes[id := Sent]), sent := r.sent + 1)))
            else
              s.(clock := now,
                 worker := Running(r.(phase := InChunk(pos + 1, writes[id := Failed]), failed := r.failed + 1)))
  {
  }
}
