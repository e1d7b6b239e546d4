/** Local dispatch as interleaved send loops, and the broadcast of events over many pods
    through one reliable, ordered channel. */
module FanOut {
  import opened Wrappers
  import opened WebSocket

  // ---------- Envelopes ----------

  /** The decoded JSON object; a missing or null string is as good as an empty one. */
  datatype Envelope = Envelope(target: string, company: Company, user: User, event: Option<string>)

  datatype Audience = Nobody | Everyone(company: Company) | OneUser(company: Company, user: User)

  /** The branches of `_dispatch_local`. */
  function AudienceOf(e: Envelope): Audience {
    if e.target == "" || e.company == "" || e.event.None? then Nobody
    else if e.target == "company" then Everyone(e.company)
    else if e.target == "user" && e.user != "" then OneUser(e.company, e.user)
    else Nobody
  }

  predicate Matches(a: Audience, owner: (Company, User)) {
    match a
    case Nobody => false
    case Everyone(c) => owner.0 == c
    case OneUser(c, u) => owner == (c, u)
  }

  /** Whom an envelope is for: a company event is for every user of that company, a user
      event for that user; one without an event, or with an id missing, is for nobody. */
  predicate IsFor(e: Envelope, owner: (Company, User)) {
    && e.event.Some? && e.company != "" && owner.0 == e.company
    && (e.target == "company" || (e.target == "user" && e.user != "" && owner.1 == e.user))
  }

  lemma AudienceIsExact(e: Envelope, owner: (Company, User))
    ensures Matches(AudienceOf(e), owner) <==> IsFor(e, owner)
  {
  }

  /** What `broadcast_to_company` publishes. */
  function CompanyEvent(c: Company, event: string): Envelope {
    Envelope("company", c, "", Some(event))
  }

  /** What `send_to_user` publishes. */
  function UserEvent(c: Company, u: User, event: string): Envelope {
    Envelope("user", c, u, Some(event))
  }

  // ---------- One pod ----------

  /** What a send loop serves: the `k`-th event on the channel, or the `n`-th local fallback. */
  datatype Source = Bus(k: nat) | Fallback(n: nat)

  datatype Entry = Entry(user: User, list: Ref)

  /** A send loop suspended in an await: the entries it copied, the list object it is in,
      the iterator's index into it, and the sockets that failed so far. */
  datatype Task = Task(company: Company, snapshot: seq<Entry>, pos: nat, index: nat, dead: seq<(User, Socket)>)

  datatype Delivery = Delivery(source: Source, socket: Socket, ok: bool)

  /** The audience of a dispatch, and the matching sockets registered when it started. */
  datatype Start = Start(audience: Audience, must: set<Socket>)

  /** A pod: its registry, its suspended send loops, its place in the channel; then the
      history: every send, every dispatch, who owned each socket, the events dispatched
      before it joined, and the sockets disconnected or pruned. */
  datatype Pod = Pod(
    reg: Registry, tasks: map<Source, Task>, since: Option<nat>, cursor: nat, fallbacks: nat,
    log: seq<Delivery>, started: map<Source, Start>, own: Owners, joined: map<Socket, nat>,
    closed: set<Socket>, pruned: set<Socket>)

  const EMPTY_POD :=
    Pod(Registry(map[], []), map[], None, 0, 0, [], map[], map[], map[], {}, {})

  datatype Event =
    | Connect(socket: Socket, company: Company, user: User)
    | Disconnect(socket: Socket)
    | Subscribe
    | Consume(order: seq<User>)
    | FallBack(envelope: Envelope, order: seq<User>)
    | Send(source: Source, ok: bool)
    | Next(source: Source)
    | Finish(source: Source)

  function Audible(p: Pod, a: Audience): set<Socket> {
    set s | s in p.own && Matches(a, p.own[s]) && IsRegistered(p.reg, p.own[s].0, p.own[s].1, s)
  }

  function Entries(m: map<User, Ref>, order: seq<User>): seq<Entry>
    requires forall u :: u in order ==> u in m
  {
    seq(|order|, i requires 0 <= i < |order| => Entry(order[i], m[order[i]]))
  }

  /** `order` lists the users of the company once each. */
  predicate Enumerates(p: Pod, a: Audience, order: seq<User>) {
    a.Everyone? && a.company in p.reg.conns ==>
      NoDup(order) && (forall u :: u in order ==> u in p.reg.conns[a.company])
      && (forall u :: u in p.reg.conns[a.company] ==> u in order)
  }

  /** A dispatch up to its first await. For a company the loop takes over the registered
      list objects; for one user it makes a copy of the list. */
  function Dispatched(p: Pod, src: Source, a: Audience, order: seq<User>): Pod
    requires Enumerates(p, a, order) && Sound(p.reg)
  {
    var p' := p.(started := p.started[src := Start(a, Audible(p, a))]);
    match a
    case Nobody => p'
    case Everyone(c) =>
      if c !in p.reg.conns then p'
      else p'.(tasks := p.tasks[src := Task(c, Entries(p.reg.conns[c], order), 0, 0, [])])
    case OneUser(c, u) =>
      if !At(p.reg, c, u) then p'
      else p'.(reg := p.reg.(lists := p.reg.lists + [p.reg.lists[p.reg.conns[c][u]]]),
               tasks := p.tasks[src := Task(c, [Entry(u, |p.reg.lists|)], 0, 0, [])])
  }

  /** The list object a loop is in the middle of. */
  predicate InList(lists: seq<seq<Socket>>, t: Task) {
    t.pos < |t.snapshot| && t.snapshot[t.pos].list < |lists|
  }

  function Current(lists: seq<seq<Socket>>, t: Task): seq<Socket>
    requires InList(lists, t)
  {
    lists[t.snapshot[t.pos].list]
  }

  ghost predicate Legal(bus: seq<Envelope>, p: Pod, e: Event) {
    Sound(p.reg) && Enabled(bus, p, e)
  }

  predicate Enabled(bus: seq<Envelope>, p: Pod, e: Event) {
    match e
    case Connect(s, c, u) => s !in p.own
    case Disconnect(s) => s in p.own
    case Subscribe => p.since.None?
    case Consume(order) =>
      // one event at a time, in channel order
      && p.since.Some? && p.cursor < |bus| && (forall src :: src in p.tasks ==> src.Fallback?)
      && Enumerates(p, AudienceOf(bus[p.cursor]), order)
    case FallBack(env, order) => Enumerates(p, AudienceOf(env), order)
    case Send(src, ok) =>
      && src in p.tasks && InList(p.reg.lists, p.tasks[src])
      && p.tasks[src].index < |Current(p.reg.lists, p.tasks[src])|
    case Next(src) =>
      && src in p.tasks && InList(p.reg.lists, p.tasks[src])
      && p.tasks[src].index >= |Current(p.reg.lists, p.tasks[src])|
    case Finish(src) => src in p.tasks && p.tasks[src].pos >= |p.tasks[src].snapshot|
  }

  /** One atomic step of a pod: what runs between two awaits, or less. */
  function Step(bus: seq<Envelope>, p: Pod, e: Event): Pod
    requires Legal(bus, p, e)
  {
    match e
    case Connect(s, c, u) =>
      p.(reg := Connected(p.reg, s, c, u), own := p.own[s := (c, u)], joined := p.joined[s := p.cursor])
    case Disconnect(s) =>
      p.(reg := Disconnected(p.reg, s, p.own[s].0, p.own[s].1), closed := p.closed + {s})
    case Subscribe => p.(since := Some(|bus|), cursor := |bus|)
    case Consume(order) =>
      Dispatched(p, Bus(p.cursor), AudienceOf(bus[p.cursor]), order).(cursor := p.cursor + 1)
    case FallBack(env, order) =>
      Dispatched(p, Fallback(p.fallbacks), AudienceOf(env), order).(fallbacks := p.fallbacks + 1)
    case Send(src, ok) =>
      var t := p.tasks[src];
      var s := Current(p.reg.lists, t)[t.index];
      p.(tasks := p.tasks[src := Sent(t, s, ok)], log := p.log + [Delivery(src, s, ok)])
    case Next(src) =>
      p.(tasks := p.tasks[src := p.tasks[src].(pos := p.tasks[src].pos + 1, index := 0)])
    case Finish(src) =>
      var t := p.tasks[src];
      p.(reg := Pruned(p.reg, t.company, t.dead), tasks := p.tasks - {src},
         pruned := p.pruned + set d | d in t.dead :: d.1)
  }

  function Sent(t: Task, s: Socket, ok: bool): Task
    requires t.pos < |t.snapshot|
  {
    t.(index := t.index + 1, dead := if ok then t.dead else t.dead + [(t.snapshot[t.pos].user, s)])
  }

  // ---------- What every step keeps ----------

  ghost predicate Tried(log: seq<Delivery>, src: Source, s: Socket) {
    Delivery(src, s, true) in log || Delivery(src, s, false) in log
  }

  ghost predicate HasFailed(log: seq<Delivery>, s: Socket) {
    exists src :: Delivery(src, s, false) in log
  }

  ghost predicate EntryAt(lists: seq<seq<Socket>>, own: Owners, t: Task, i: nat)
    requires i < |t.snapshot|
  {
    t.snapshot[i].list < |lists| && Owned(own, lists[t.snapshot[i].list], t.company, t.snapshot[i].user)
  }

  ghost predicate TaskShape(lists: seq<seq<Socket>>, own: Owners, a: Audience, t: Task) {
    && t.pos <= |t.snapshot|
    && (forall i :: 0 <= i < |t.snapshot| ==> EntryAt(lists, own, t, i))
    && (forall i :: 0 <= i < |t.snapshot| ==> Matches(a, (t.company, t.snapshot[i].user)))
    && (forall i, j :: 0 <= i < j < |t.snapshot| ==> t.snapshot[i].user != t.snapshot[j].user)
    && (InList(lists, t) ==> t.index <= |Current(lists, t)|)
  }

  ghost predicate SeenAt(lists: seq<seq<Socket>>, t: Task, i: nat, s: Socket) {
    && i < |t.snapshot| && t.snapshot[i].list < |lists|
    && ((i < t.pos && s in lists[t.snapshot[i].list]) ||
        (i == t.pos && t.index <= |lists[t.snapshot[i].list]| && s in lists[t.snapshot[i].list][..t.index]))
  }

  ghost predicate LeftAt(lists: seq<seq<Socket>>, t: Task, i: nat, s: Socket) {
    && i < |t.snapshot| && t.snapshot[i].list < |lists|
    && ((i > t.pos && s in lists[t.snapshot[i].list]) ||
        (i == t.pos && t.index <= |lists[t.snapshot[i].list]| && s in lists[t.snapshot[i].list][t.index..]))
  }

  /** The loop is past the socket. */
  ghost predicate Seen(lists: seq<seq<Socket>>, t: Task, s: Socket) {
    exists i: nat :: SeenAt(lists, t, i, s)
  }

  /** The loop still has the socket before it. */
  ghost predicate Left(lists: seq<seq<Socket>>, t: Task, s: Socket) {
    exists i: nat :: LeftAt(lists, t, i, s)
  }

  ghost predicate DeadOk(own: Owners, log: seq<Delivery>, t: Task) {
    forall d :: d in t.dead ==> d.1 in own && own[d.1] == (t.company, d.0) && HasFailed(log, d.1)
  }

  ghost predicate TaskInv(lists: seq<seq<Socket>>, own: Owners, log: seq<Delivery>, st: Start, src: Source, t: Task) {
    && TaskShape(lists, own, st.audience, t)
    && (forall s :: Tried(log, src, s) ==> Seen(lists, t, s))
    && (forall s :: s in st.must ==> Tried(log, src, s) || Left(lists, t, s))
    && DeadOk(own, log, t)
  }

  ghost predicate Extends(own: Owners, own': Owners) {
    forall s :: s in own ==> s in own' && own'[s] == own[s]
  }

  lemma SeenGrows(lists: seq<seq<Socket>>, lists': seq<seq<Socket>>, t: Task, s: Socket)
    requires Grows(lists, lists')
    ensures Seen(lists, t, s) ==> Seen(lists', t, s)
    ensures Left(lists, t, s) ==> Left(lists', t, s)
  {
    if Seen(lists, t, s) {
      var i: nat :| SeenAt(lists, t, i, s);
      assert lists[t.snapshot[i].list] <= lists'[t.snapshot[i].list];
      assert SeenAt(lists', t, i, s);
    }
    if Left(lists, t, s) {
      var i: nat :| LeftAt(lists, t, i, s);
      var l, l' := lists[t.snapshot[i].list], lists'[t.snapshot[i].list];
      assert l <= l';
      if i == t.pos {
        assert l[t.index..] <= l'[t.index..];
      }
      assert LeftAt(lists', t, i, s);
    }
  }

  /** What the rest of the pod does to a suspended loop: lists grow, sockets join, other
      loops send. */
  lemma TaskSurvives(lists: seq<seq<Socket>>, lists': seq<seq<Socket>>, own: Owners, own': Owners,
                     log: seq<Delivery>, log': seq<Delivery>, st: Start, src: Source, t: Task)
    requires TaskInv(lists, own, log, st, src, t)
    requires Grows(lists, lists') && Extends(own, own') && log <= log'
    requires forall s :: Tried(log', src, s) ==> Tried(log, src, s)
    requires forall i :: 0 <= i < |t.snapshot| ==> EntryAt(lists', own', t, i)
    ensures TaskInv(lists', own', log', st, src, t)
  {
    assert forall d :: d in log ==> d in log';
    forall s
      ensures Tried(log', src, s) ==> Seen(lists', t, s)
      ensures s in st.must ==> Tried(log', src, s) || Left(lists', t, s)
    {
      SeenGrows(lists, lists', t, s);
    }
    if InList(lists', t) {
      assert EntryAt(lists, own, t, t.pos);
      assert Current(lists, t) <= Current(lists', t);
    }
    forall s | HasFailed(log, s)
      ensures HasFailed(log', s)
    {
      var f :| Delivery(f, s, false) in log;
      assert Delivery(f, s, false) in log';
    }
  }

  /** A new list object, or none, at the end of the heap leaves every entry in place. */
  lemma EntriesSurvive(lists: seq<seq<Socket>>, lists': seq<seq<Socket>>, own: Owners, t: Task)
    requires lists <= lists'
    requires forall i :: 0 <= i < |t.snapshot| ==> EntryAt(lists, own, t, i)
    ensures Grows(lists, lists')
    ensures forall i :: 0 <= i < |t.snapshot| ==> EntryAt(lists', own, t, i)
  {
    assert forall r :: 0 <= r < |lists| ==> lists'[r] == lists[r];
    forall i | 0 <= i < |t.snapshot|
      ensures EntryAt(lists', own, t, i)
    {
      assert EntryAt(lists, own, t, i);
    }
  }

  /** A socket appended in place joins the list of its own user only. */
  lemma EntrySurvivesConnect(r: Registry, own: Owners, s: Socket, c: Company, u: User, t: Task, i: nat)
    requires RegistryInv(r, own) && Sound(r) && s !in own
    requires i < |t.snapshot| && EntryAt(r.lists, own, t, i)
    ensures EntryAt(Connected(r, s, c, u).lists, own[s := (c, u)], t, i)
  {
    var x := t.snapshot[i].list;
    if At(r, c, u) && r.conns[c][u] == x {
      assert EntryOk(r, own, c, u);
      assert r.lists[x][0] in r.lists[x];
      assert own[r.lists[x][0]] == (c, u) == (t.company, t.snapshot[i].user);
    }
  }

  // ---------- The loop itself ----------

  lemma SeenIsNotCurrent(lists: seq<seq<Socket>>, own: Owners, a: Audience, t: Task, i: nat, s: Socket)
    requires TaskShape(lists, own, a, t) && SeenAt(lists, t, i, s)
    requires InList(lists, t) && t.index < |Current(lists, t)| && NoDup(Current(lists, t))
    ensures s != Current(lists, t)[t.index]
  {
    assert EntryAt(lists, own, t, i) && EntryAt(lists, own, t, t.pos);
    assert Current(lists, t)[t.index] in Current(lists, t);
  }

  /** The socket the iterator is at was not tried before. */
  lemma FreshInTurn(lists: seq<seq<Socket>>, own: Owners, log: seq<Delivery>, st: Start, src: Source, t: Task)
    requires TaskInv(lists, own, log, st, src, t)
    requires InList(lists, t) && t.index < |Current(lists, t)| && NoDup(Current(lists, t))
    ensures !Tried(log, src, Current(lists, t)[t.index])
    ensures Current(lists, t)[t.index] in own
    ensures own[Current(lists, t)[t.index]] == (t.company, t.snapshot[t.pos].user)
  {
    var s := Current(lists, t)[t.index];
    assert EntryAt(lists, own, t, t.pos);
    assert s in Current(lists, t);
    if Tried(log, src, s) {
      var i: nat :| SeenAt(lists, t, i, s);
      SeenIsNotCurrent(lists, own, st.audience, t, i, s);
    }
  }

  lemma SendMoves(lists: seq<seq<Socket>>, t: Task, ok: bool, x: Socket)
    requires InList(lists, t) && t.index < |Current(lists, t)|
    ensures var s := Current(lists, t)[t.index];
            && (Seen(lists, t, x) || x == s ==> Seen(lists, Sent(t, s, ok), x))
            && (Left(lists, t, x) && x != s ==> Left(lists, Sent(t, s, ok), x))
  {
    var l := Current(lists, t);
    var s := l[t.index];
    var t' := Sent(t, s, ok);
    assert l[..t.index + 1] == l[..t.index] + [s];
    assert l[t.index..] == [s] + l[t.index + 1..];
    if x == s {
      assert SeenAt(lists, t', t.pos, x);
    } else if Seen(lists, t, x) {
      var i: nat :| SeenAt(lists, t, i, x);
      assert SeenAt(lists, t', i, x);
    }
    if Left(lists, t, x) && x != s {
      var i: nat :| LeftAt(lists, t, i, x);
      assert LeftAt(lists, t', i, x);
    }
  }

  lemma SendKeepsTask(lists: seq<seq<Socket>>, own: Owners, log: seq<Delivery>, st: Start, src: Source, t: Task,
                      ok: bool)
    requires TaskInv(lists, own, log, st, src, t)
    requires InList(lists, t) && t.index < |Current(lists, t)| && NoDup(Current(lists, t))
    ensures var s := Current(lists, t)[t.index];
            TaskInv(lists, own, log + [Delivery(src, s, ok)], st, src, Sent(t, s, ok))
  {
    var s := Current(lists, t)[t.index];
    var t', log' := Sent(t, s, ok), log + [Delivery(src, s, ok)];
    FreshInTurn(lists, own, log, st, src, t);
    forall x
      ensures Tried(log', src, x) <==> Tried(log, src, x) || x == s
      ensures Tried(log', src, x) ==> Seen(lists, t', x)
      ensures x in st.must ==> Tried(log', src, x) || Left(lists, t', x)
    {
      SendMoves(lists, t, ok, x);
    }
    forall d | d in t'.dead
      ensures d.1 in own && own[d.1] == (t.company, d.0) && HasFailed(log', d.1)
    {
      if d in t.dead {
        var f :| Delivery(f, d.1, false) in log;
        assert Delivery(f, d.1, false) in log';
      } else {
        assert Delivery(src, s, false) in log';
      }
    }
    forall i | 0 <= i < |t'.snapshot|
      ensures EntryAt(lists, own, t', i)
    {
      assert EntryAt(lists, own, t, i);
    }
  }

  lemma NextKeepsTask(lists: seq<seq<Socket>>, own: Owners, log: seq<Delivery>, st: Start, src: Source, t: Task)
    requires TaskInv(lists, own, log, st, src, t)
    requires InList(lists, t) && t.index >= |Current(lists, t)|
    ensures TaskInv(lists, own, log, st, src, t.(pos := t.pos + 1, index := 0))
  {
    var t' := t.(pos := t.pos + 1, index := 0);
    var l := Current(lists, t);
    assert l[..t.index] == l && l[t.index..] == [];
    forall s
      ensures Seen(lists, t, s) ==> Seen(lists, t', s)
      ensures Left(lists, t, s) ==> Left(lists, t', s)
    {
      if Seen(lists, t, s) {
        var i: nat :| SeenAt(lists, t, i, s);
        assert SeenAt(lists, t', i, s);
      }
      if Left(lists, t, s) {
        var i: nat :| LeftAt(lists, t, i, s);
        assert lists[t.snapshot[i].list][0..] == lists[t.snapshot[i].list];
        assert LeftAt(lists, t', i, s);
      }
    }
    forall i | 0 <= i < |t'.snapshot|
      ensures EntryAt(lists, own, t', i)
    {
      assert EntryAt(lists, own, t, i);
    }
  }

  /** A loop that ran to its end has tried every socket that was there when it started. */
  lemma EndMeansAllTried(lists: seq<seq<Socket>>, own: Owners, log: seq<Delivery>, st: Start, src: Source, t: Task)
    requires TaskInv(lists, own, log, st, src, t) && t.pos >= |t.snapshot|
    ensures forall s :: s in st.must ==> Tried(log, src, s)
  {
  }

  // ---------- The invariant of a pod ----------

  /** A socket is registered exactly from its connection until it is disconnected or
      pruned, and only sockets with a failed send are pruned. */
  ghost predicate RegistryExact(p: Pod) {
    && RegistryInv(p.reg, p.own)
    && (forall s :: s in p.own ==>
          (IsRegistered(p.reg, p.own[s].0, p.own[s].1, s) <==> s !in p.closed && s !in p.pruned))
    && (forall s :: s in p.closed || s in p.pruned ==> s in p.own)
    && (forall s :: s in p.pruned ==> HasFailed(p.log, s))
  }

  ghost predicate TasksInv(p: Pod) {
    forall src :: src in p.tasks ==>
      src in p.started && TaskInv(p.reg.lists, p.own, p.log, p.started[src], src, p.tasks[src])
  }

  /** A dispatch that is over has tried every socket it found at its start. */
  ghost predicate DoneInv(p: Pod) {
    forall src, s :: src in p.started && src !in p.tasks && s in p.started[src].must ==> Tried(p.log, src, s)
  }

  ghost predicate MustInv(p: Pod) {
    forall src, s :: src in p.started && s in p.started[src].must ==> s in p.own
  }

  ghost predicate Same(d: Delivery, e: Delivery) {
    d.source == e.source && d.socket == e.socket
  }

  ghost predicate Later(d: Delivery, e: Delivery) {
    d.source.Bus? && e.source.Bus? ==> d.source.k <= e.source.k
  }

  /** No event is sent twice to a socket, and every socket gets them in channel order. */
  ghost predicate LogInv(log: seq<Delivery>) {
    forall i, j :: 0 <= i < j < |log| ==> !Same(log[i], log[j]) && Later(log[i], log[j])
  }

  ghost predicate Addressed(p: Pod, d: Delivery) {
    d.source in p.started && d.socket in p.own && Matches(p.started[d.source].audience, p.own[d.socket])
  }

  ghost predicate BusInv(bus: seq<Envelope>, p: Pod) {
    && p.cursor <= |bus| && (p.since.Some? ==> p.since.value <= p.cursor)
    && (forall k: nat :: Bus(k) in p.started <==> p.since.Some? && p.since.value <= k < p.cursor)
    && (forall k: nat :: Bus(k) in p.started && k < |bus| ==> p.started[Bus(k)].audience == AudienceOf(bus[k]))
    && (forall k: nat :: Bus(k) in p.tasks ==> k + 1 == p.cursor)
    && (forall n: nat :: Fallback(n) in p.started ==> n < p.fallbacks)
  }

  /** A socket still registered was there at the start of every dispatch since it joined. */
  ghost predicate JoinInv(p: Pod) {
    && (forall s :: s in p.own ==> s in p.joined && p.joined[s] <= p.cursor)
    && (forall s, k: nat :: Present(p, s) && p.joined[s] <= k && Bus(k) in p.started ==>
          Expected(p.started[Bus(k)], p.own, s))
  }

  ghost predicate Present(p: Pod, s: Socket) {
    s in p.own && s in p.joined && s !in p.closed && s !in p.pruned
  }

  ghost predicate Expected(st: Start, own: Owners, s: Socket) {
    s in own && Matches(st.audience, own[s]) ==> s in st.must
  }

  /** A socket that failed is remembered by its loop, and pruned once the loop is over. */
  ghost predicate FailureHandled(p: Pod, d: Delivery) {
    d.socket in p.own &&
    if d.source in p.tasks then (p.own[d.socket].1, d.socket) in p.tasks[d.source].dead else d.socket in p.pruned
  }

  ghost predicate FailuresInv(p: Pod) {
    forall d :: d in p.log && !d.ok ==> FailureHandled(p, d)
  }

  ghost predicate Inv(bus: seq<Envelope>, p: Pod) {
    && RegistryExact(p) && TasksInv(p) && DoneInv(p) && MustInv(p) && FailuresInv(p)
    && LogInv(p.log) && (forall d :: d in p.log ==> Addressed(p, d))
    && BusInv(bus, p) && JoinInv(p)
  }

  // ---------- Registry steps ----------

  lemma ConnectKeepsRegistry(bus: seq<Envelope>, p: Pod, s: Socket, c: Company, u: User)
    requires RegistryExact(p) && Legal(bus, p, Connect(s, c, u))
    ensures RegistryExact(Step(bus, p, Connect(s, c, u)))
  {
    var p' := Step(bus, p, Connect(s, c, u));
    ConnectKeeps(p.reg, p.own, s, c, u);
    forall x | x in p'.own
      ensures IsRegistered(p'.reg, p'.own[x].0, p'.own[x].1, x) <==> x !in p'.closed && x !in p'.pruned
    {
      ConnectRegisters(p.reg, p.own, s, c, u, p'.own[x].0, p'.own[x].1, x);
    }
  }

  lemma DisconnectKeepsRegistry(bus: seq<Envelope>, p: Pod, s: Socket)
    requires RegistryExact(p) && Legal(bus, p, Disconnect(s))
    ensures RegistryExact(Step(bus, p, Disconnect(s)))
  {
    var p' := Step(bus, p, Disconnect(s));
    var (c, u) := p.own[s];
    DisconnectKeeps(p.reg, p.own, s, c, u);
    forall x | x in p'.own
      ensures IsRegistered(p'.reg, p'.own[x].0, p'.own[x].1, x) <==> x !in p'.closed && x !in p'.pruned
    {
      DisconnectUnregisters(p.reg, p.own, s, c, u, p'.own[x].0, p'.own[x].1, x);
    }
  }

  lemma FinishKeepsRegistry(bus: seq<Envelope>, p: Pod, src: Source)
    requires RegistryExact(p) && Legal(bus, p, Finish(src)) && DeadOk(p.own, p.log, p.tasks[src])
    ensures RegistryExact(Step(bus, p, Finish(src)))
  {
    var p' := Step(bus, p, Finish(src));
    var t := p.tasks[src];
    PruneKeeps(p.reg, p.own, t.company, t.dead);
    forall x | x in p'.own
      ensures IsRegistered(p'.reg, p'.own[x].0, p'.own[x].1, x) <==> x !in p'.closed && x !in p'.pruned
    {
      PruneUnregisters(p.reg, p.own, t.company, t.dead, p.own[x].0, p.own[x].1, x);
      if x in p'.pruned && x !in p.pruned {
        var d :| d in t.dead && d.1 == x;
        assert (p.own[x].1, x) == d;
      }
      if (p.own[x].1, x) in t.dead {
        assert (p.own[x].1, x).1 in p'.pruned;
      }
    }
  }

  lemma CopyKeepsRegistry(r: Registry, own: Owners, l: seq<Socket>)
    requires RegistryInv(r, own) && l in r.lists
    ensures RegistryInv(r.(lists := r.lists + [l]), own)
    ensures forall c, u, s :: IsRegistered(r, c, u, s) <==> IsRegistered(r.(lists := r.lists + [l]), c, u, s)
  {
    var r' := r.(lists := r.lists + [l]);
    forall c, u | At(r', c, u)
      ensures EntryOk(r', own, c, u)
    {
      assert At(r, c, u) && EntryOk(r, own, c, u);
    }
    forall c, u, s
      ensures IsRegistered(r, c, u, s) <==> IsRegistered(r', c, u, s)
    {
      if At(r, c, u) {
        assert EntryOk(r, own, c, u);
      }
    }
  }

  lemma DispatchKeepsRegistry(p: Pod, src: Source, a: Audience, order: seq<User>)
    requires RegistryExact(p) && Sound(p.reg) && Enumerates(p, a, order)
    ensures RegistryExact(Dispatched(p, src, a, order))
    ensures p.reg.lists <= Dispatched(p, src, a, order).reg.lists
  {
    if a.OneUser? && At(p.reg, a.company, a.user) {
      CopyKeepsRegistry(p.reg, p.own, p.reg.lists[p.reg.conns[a.company][a.user]]);
    }
  }

  lemma SendKeepsRegistry(bus: seq<Envelope>, p: Pod, src: Source, ok: bool)
    requires RegistryExact(p) && Legal(bus, p, Send(src, ok))
    ensures RegistryExact(Step(bus, p, Send(src, ok)))
  {
  }

  lemma StepKeepsRegistry(bus: seq<Envelope>, p: Pod, e: Event)
    requires RegistryExact(p) && TasksInv(p) && Legal(bus, p, e)
    ensures RegistryExact(Step(bus, p, e))
  {
    match e
    case Connect(s, c, u) => ConnectKeepsRegistry(bus, p, s, c, u);
    case Disconnect(s) => DisconnectKeepsRegistry(bus, p, s);
    case Subscribe =>
    case Consume(order) => DispatchKeepsRegistry(p, Bus(p.cursor), AudienceOf(bus[p.cursor]), order);
    case FallBack(env, order) => DispatchKeepsRegistry(p, Fallback(p.fallbacks), AudienceOf(env), order);
    case Send(src, ok) => SendKeepsRegistry(bus, p, src, ok);
    case Next(src) =>
    case Finish(src) => FinishKeepsRegistry(bus, p, src);
  }

  // ---------- Loop steps ----------

  lemma OthersSurvive(p: Pod, p': Pod, src: Source)
    requires TasksInv(p) && src in p.tasks && src in p'.started && p'.started[src] == p.started[src]
    requires p.reg.lists <= p'.reg.lists && p'.own == p.own && p.log <= p'.log
    requires forall s :: Tried(p'.log, src, s) ==> Tried(p.log, src, s)
    ensures TaskInv(p'.reg.lists, p'.own, p'.log, p'.started[src], src, p.tasks[src])
  {
    var t := p.tasks[src];
    EntriesSurvive(p.reg.lists, p'.reg.lists, p.own, t);
    TaskSurvives(p.reg.lists, p'.reg.lists, p.own, p'.own, p.log, p'.log, p.started[src], src, t);
  }

  lemma ConnectKeepsTasks(bus: seq<Envelope>, p: Pod, s: Socket, c: Company, u: User)
    requires RegistryExact(p) && TasksInv(p) && Legal(bus, p, Connect(s, c, u))
    ensures TasksInv(Step(bus, p, Connect(s, c, u)))
  {
    var p' := Step(bus, p, Connect(s, c, u));
    ConnectKeeps(p.reg, p.own, s, c, u);
    forall src | src in p'.tasks
      ensures TaskInv(p'.reg.lists, p'.own, p'.log, p'.started[src], src, p'.tasks[src])
    {
      var t := p.tasks[src];
      forall i | 0 <= i < |t.snapshot|
        ensures EntryAt(p'.reg.lists, p'.own, t, i)
      {
        EntrySurvivesConnect(p.reg, p.own, s, c, u, t, i);
      }
      TaskSurvives(p.reg.lists, p'.reg.lists, p.own, p'.own, p.log, p'.log, p.started[src], src, t);
    }
  }

  lemma SendKeepsTasks(bus: seq<Envelope>, p: Pod, src: Source, ok: bool)
    requires RegistryExact(p) && TasksInv(p) && Legal(bus, p, Send(src, ok))
    ensures TasksInv(Step(bus, p, Send(src, ok)))
  {
    var p' := Step(bus, p, Send(src, ok));
    assert Current(p.reg.lists, p.tasks[src]) in p.reg.lists;
    forall x | x in p'.tasks
      ensures TaskInv(p'.reg.lists, p'.own, p'.log, p'.started[x], x, p'.tasks[x])
    {
      if x == src {
        SendKeepsTask(p.reg.lists, p.own, p.log, p.started[src], src, p.tasks[src], ok);
      } else {
        OthersSurvive(p, p', x);
      }
    }
  }

  lemma NextKeepsTasks(bus: seq<Envelope>, p: Pod, src: Source)
    requires TasksInv(p) && Legal(bus, p, Next(src))
    ensures TasksInv(Step(bus, p, Next(src)))
  {
    NextKeepsTask(p.reg.lists, p.own, p.log, p.started[src], src, p.tasks[src]);
  }

  lemma CompanyTaskStarts(p: Pod, src: Source, c: Company, order: seq<User>)
    requires RegistryExact(p) && Sound(p.reg) && Enumerates(p, Everyone(c), order) && c in p.reg.conns
    requires forall s :: !Tried(p.log, src, s)
    ensures TaskInv(p.reg.lists, p.own, p.log, Start(Everyone(c), Audible(p, Everyone(c))), src,
                    Task(c, Entries(p.reg.conns[c], order), 0, 0, []))
  {
    var t := Task(c, Entries(p.reg.conns[c], order), 0, 0, []);
    forall i | 0 <= i < |t.snapshot|
      ensures EntryAt(p.reg.lists, p.own, t, i)
    {
      assert At(p.reg, c, order[i]) && EntryOk(p.reg, p.own, c, order[i]);
    }
    forall s | s in Audible(p, Everyone(c))
      ensures Left(p.reg.lists, t, s)
    {
      var u := p.own[s].1;
      assert At(p.reg, c, u);
      var i: nat :| i < |order| && order[i] == u;
      assert p.reg.lists[t.snapshot[i].list][0..] == p.reg.lists[t.snapshot[i].list];
      assert LeftAt(p.reg.lists, t, i, s);
    }
  }

  lemma UserTaskStarts(p: Pod, src: Source, c: Company, u: User)
    requires RegistryExact(p) && Sound(p.reg) && At(p.reg, c, u)
    requires forall s :: !Tried(p.log, src, s)
    ensures TaskInv(p.reg.lists + [p.reg.lists[p.reg.conns[c][u]]], p.own, p.log,
                    Start(OneUser(c, u), Audible(p, OneUser(c, u))), src,
                    Task(c, [Entry(u, |p.reg.lists|)], 0, 0, []))
  {
    var l := p.reg.lists[p.reg.conns[c][u]];
    var lists := p.reg.lists + [l];
    var t := Task(c, [Entry(u, |p.reg.lists|)], 0, 0, []);
    assert EntryOk(p.reg, p.own, c, u) && lists[|p.reg.lists|] == l;
    assert EntryAt(lists, p.own, t, 0);
    forall s | s in Audible(p, OneUser(c, u))
      ensures Left(lists, t, s)
    {
      assert l[0..] == l;
      assert LeftAt(lists, t, 0, s);
    }
  }

  lemma DispatchedTask(p: Pod, src: Source, a: Audience, order: seq<User>)
    requires RegistryExact(p) && Sound(p.reg) && Enumerates(p, a, order)
    requires src !in p.tasks && forall s :: !Tried(p.log, src, s)
    ensures var p' := Dispatched(p, src, a, order);
            src in p'.tasks ==> TaskInv(p'.reg.lists, p.own, p.log, Start(a, Audible(p, a)), src, p'.tasks[src])
  {
    match a
    case Nobody =>
    case Everyone(c) => if c in p.reg.conns { CompanyTaskStarts(p, src, c, order); }
    case OneUser(c, u) => if At(p.reg, c, u) { UserTaskStarts(p, src, c, u); }
  }

  lemma DispatchSparesTask(p: Pod, src: Source, a: Audience, order: seq<User>, x: Source)
    requires RegistryExact(p) && TasksInv(p) && Sound(p.reg) && Enumerates(p, a, order)
    requires x in p.tasks && x != src
    ensures var p' := Dispatched(p, src, a, order);
            && x in p'.tasks && p'.tasks[x] == p.tasks[x] && p'.started[x] == p.started[x]
            && TaskInv(p'.reg.lists, p'.own, p'.log, p'.started[x], x, p.tasks[x])
  {
    var p' := Dispatched(p, src, a, order);
    DispatchKeepsRegistry(p, src, a, order);
    OthersSurvive(p, p', x);
  }

  lemma DispatchKeepsTasks(p: Pod, src: Source, a: Audience, order: seq<User>)
    requires RegistryExact(p) && TasksInv(p) && Sound(p.reg) && Enumerates(p, a, order)
    requires src !in p.started && forall d :: d in p.log ==> d.source in p.started
    ensures TasksInv(Dispatched(p, src, a, order))
  {
    var p' := Dispatched(p, src, a, order);
    DispatchStarts(p, src, a, order);
    DispatchedTask(p, src, a, order);
    assert p'.log == p.log && src !in p.tasks;
    forall x | x in p'.tasks && x != src
      ensures x in p'.started && TaskInv(p'.reg.lists, p'.own, p'.log, p'.started[x], x, p'.tasks[x])
    {
      DispatchSparesTask(p, src, a, order, x);
    }
  }

  lemma DisconnectKeepsTasks(bus: seq<Envelope>, p: Pod, s: Socket)
    requires RegistryExact(p) && TasksInv(p) && Legal(bus, p, Disconnect(s))
    ensures TasksInv(Step(bus, p, Disconnect(s)))
  {
    var p' := Step(bus, p, Disconnect(s));
    DisconnectKeeps(p.reg, p.own, s, p.own[s].0, p.own[s].1);
    forall x | x in p'.tasks
      ensures TaskInv(p'.reg.lists, p'.own, p'.log, p'.started[x], x, p'.tasks[x])
    {
      OthersSurvive(p, p', x);
    }
  }

  lemma FinishKeepsTasks(bus: seq<Envelope>, p: Pod, src: Source)
    requires RegistryExact(p) && TasksInv(p) && Legal(bus, p, Finish(src))
    ensures TasksInv(Step(bus, p, Finish(src)))
  {
    var p' := Step(bus, p, Finish(src));
    PruneKeeps(p.reg, p.own, p.tasks[src].company, p.tasks[src].dead);
    forall x | x in p'.tasks
      ensures TaskInv(p'.reg.lists, p'.own, p'.log, p'.started[x], x, p'.tasks[x])
    {
      OthersSurvive(p, p', x);
    }
  }

  lemma StepKeepsTasks(bus: seq<Envelope>, p: Pod, e: Event)
    requires Inv(bus, p) && Legal(bus, p, e)
    ensures TasksInv(Step(bus, p, e))
  {
    match e
    case Connect(s, c, u) => ConnectKeepsTasks(bus, p, s, c, u);
    case Disconnect(s) => DisconnectKeepsTasks(bus, p, s);
    case Subscribe =>
    case Consume(order) => DispatchKeepsTasks(p, Bus(p.cursor), AudienceOf(bus[p.cursor]), order);
    case FallBack(env, order) => DispatchKeepsTasks(p, Fallback(p.fallbacks), AudienceOf(env), order);
    case Send(src, ok) => SendKeepsTasks(bus, p, src, ok);
    case Next(src) => NextKeepsTasks(bus, p, src);
    case Finish(src) => FinishKeepsTasks(bus, p, src);
  }

  // ---------- History steps ----------

  lemma NobodyToTell(p: Pod, src: Source, a: Audience, order: seq<User>)
    requires Sound(p.reg) && Enumerates(p, a, order) && src !in p.tasks
    ensures src !in Dispatched(p, src, a, order).tasks ==> Audible(p, a) == {}
  {
  }

  lemma DispatchKeepsDone(p: Pod, src: Source, a: Audience, order: seq<User>)
    requires DoneInv(p) && MustInv(p) && Sound(p.reg) && Enumerates(p, a, order) && src !in p.tasks
    ensures DoneInv(Dispatched(p, src, a, order)) && MustInv(Dispatched(p, src, a, order))
  {
    var p' := Dispatched(p, src, a, order);
    NobodyToTell(p, src, a, order);
    DispatchStarts(p, src, a, order);
    assert p'.log == p.log && p.tasks.Keys <= p'.tasks.Keys;
    forall x, s | x in p'.started && s in p'.started[x].must
      ensures (x !in p'.tasks ==> Tried(p'.log, x, s)) && s in p'.own
    {
      if x != src {
        assert p'.started[x] == p.started[x];
      }
    }
  }

  lemma SendKeepsDone(bus: seq<Envelope>, p: Pod, src: Source, ok: bool)
    requires DoneInv(p) && MustInv(p) && Legal(bus, p, Send(src, ok))
    ensures DoneInv(Step(bus, p, Send(src, ok))) && MustInv(Step(bus, p, Send(src, ok)))
  {
  }

  lemma FinishKeepsDone(bus: seq<Envelope>, p: Pod, src: Source)
    requires DoneInv(p) && MustInv(p) && TasksInv(p) && Legal(bus, p, Finish(src))
    ensures DoneInv(Step(bus, p, Finish(src))) && MustInv(Step(bus, p, Finish(src)))
  {
  }

  lemma StepKeepsDone(bus: seq<Envelope>, p: Pod, e: Event)
    requires Inv(bus, p) && Legal(bus, p, e)
    ensures DoneInv(Step(bus, p, e)) && MustInv(Step(bus, p, e))
  {
    var p' := Step(bus, p, e);
    match e
    case Consume(order) => DispatchKeepsDone(p, Bus(p.cursor), AudienceOf(bus[p.cursor]), order);
    case FallBack(env, order) =>
      assert Fallback(p.fallbacks) !in p.tasks;
      DispatchKeepsDone(p, Fallback(p.fallbacks), AudienceOf(env), order);
    case Send(src, ok) => SendKeepsDone(bus, p, src, ok);
    case Finish(src) => FinishKeepsDone(bus, p, src);
    case _ => assert p'.started == p.started && p'.tasks.Keys == p.tasks.Keys && p'.log == p.log;
  }

  lemma SendKeepsLog(bus: seq<Envelope>, p: Pod, src: Source, ok: bool)
    requires Inv(bus, p) && Legal(bus, p, Send(src, ok))
    ensures var p' := Step(bus, p, Send(src, ok)); LogInv(p'.log) && forall d :: d in p'.log ==> Addressed(p', d)
  {
    var t := p.tasks[src];
    assert Current(p.reg.lists, t) in p.reg.lists;
    FreshInTurn(p.reg.lists, p.own, p.log, p.started[src], src, t);
    var d := Delivery(src, Current(p.reg.lists, t)[t.index], ok);
    forall x | x in p.log
      ensures !Same(x, d) && Later(x, d)
    {
      assert Addressed(p, x);
    }
  }

  lemma AddressedStays(p: Pod, p': Pod)
    requires forall d :: d in p.log ==> Addressed(p, d)
    requires p'.log == p.log && Extends(p.own, p'.own)
    requires forall src :: src in p.started && src in p'.started ==> p'.started[src] == p.started[src]
    requires p.started.Keys <= p'.started.Keys
    ensures forall d :: d in p'.log ==> Addressed(p', d)
  {
  }

  lemma DispatchKeepsLog(p: Pod, src: Source, a: Audience, order: seq<User>)
    requires Sound(p.reg) && Enumerates(p, a, order) && src !in p.started
    requires forall d :: d in p.log ==> Addressed(p, d)
    ensures var p' := Dispatched(p, src, a, order); p'.log == p.log && forall d :: d in p'.log ==> Addressed(p', d)
  {
  }

  lemma StepKeepsLog(bus: seq<Envelope>, p: Pod, e: Event)
    requires Inv(bus, p) && Legal(bus, p, e)
    ensures var p' := Step(bus, p, e); LogInv(p'.log) && forall d :: d in p'.log ==> Addressed(p', d)
  {
    match e
    case Send(src, ok) => SendKeepsLog(bus, p, src, ok);
    case Consume(order) => DispatchKeepsLog(p, Bus(p.cursor), AudienceOf(bus[p.cursor]), order);
    case FallBack(env, order) => DispatchKeepsLog(p, Fallback(p.fallbacks), AudienceOf(env), order);
    case _ => AddressedStays(p, Step(bus, p, e));
  }

  lemma SendKeepsFailures(bus: seq<Envelope>, p: Pod, src: Source, ok: bool)
    requires Inv(bus, p) && Legal(bus, p, Send(src, ok))
    ensures FailuresInv(Step(bus, p, Send(src, ok)))
  {
    var p' := Step(bus, p, Send(src, ok));
    var t := p.tasks[src];
    assert Current(p.reg.lists, t) in p.reg.lists;
    FreshInTurn(p.reg.lists, p.own, p.log, p.started[src], src, t);
    forall d | d in p.log && !d.ok
      ensures FailureHandled(p', d)
    {
      assert FailureHandled(p, d);
    }
  }

  lemma FinishKeepsFailures(bus: seq<Envelope>, p: Pod, src: Source)
    requires FailuresInv(p) && Legal(bus, p, Finish(src))
    ensures FailuresInv(Step(bus, p, Finish(src)))
  {
    var p' := Step(bus, p, Finish(src));
    forall d | d in p.log && !d.ok
      ensures FailureHandled(p', d)
    {
      assert FailureHandled(p, d);
      if d.source == src {
        assert (p.own[d.socket].1, d.socket).1 in p'.pruned;
      }
    }
  }

  lemma DispatchKeepsFailures(p: Pod, src: Source, a: Audience, order: seq<User>)
    requires FailuresInv(p) && Sound(p.reg) && Enumerates(p, a, order)
    requires forall d :: d in p.log ==> d.source != src
    ensures FailuresInv(Dispatched(p, src, a, order))
  {
    var p' := Dispatched(p, src, a, order);
    forall d | d in p'.log && !d.ok
      ensures FailureHandled(p', d)
    {
      assert FailureHandled(p, d);
    }
  }

  lemma OthersKeepFailures(p: Pod, p': Pod)
    requires FailuresInv(p) && p'.log == p.log && Extends(p.own, p'.own) && p.pruned <= p'.pruned
    requires p'.tasks.Keys == p.tasks.Keys
    requires forall src :: src in p.tasks ==> p'.tasks[src].dead == p.tasks[src].dead
    ensures FailuresInv(p')
  {
    forall d | d in p'.log && !d.ok
      ensures FailureHandled(p', d)
    {
      assert FailureHandled(p, d);
      assert d.source in p.tasks.Keys <==> d.source in p'.tasks.Keys;
    }
  }

  lemma OutsideKeepsFailures(bus: seq<Envelope>, p: Pod, e: Event)
    requires FailuresInv(p) && Legal(bus, p, e) && (e.Connect? || e.Disconnect? || e.Subscribe? || e.Next?)
    ensures FailuresInv(Step(bus, p, e))
  {
    var p' := Step(bus, p, e);
    if e.Next? {
      assert p'.tasks.Keys == p.tasks.Keys;
    }
    OthersKeepFailures(p, p');
  }

  lemma StartKeepsFailures(bus: seq<Envelope>, p: Pod, e: Event)
    requires FailuresInv(p) && BusInv(bus, p) && Legal(bus, p, e) && (e.Consume? || e.FallBack?)
    requires forall d :: d in p.log ==> d.source in p.started
    ensures FailuresInv(Step(bus, p, e))
  {
    match e
    case Consume(order) => DispatchKeepsFailures(p, Bus(p.cursor), AudienceOf(bus[p.cursor]), order);
    case FallBack(env, order) => DispatchKeepsFailures(p, Fallback(p.fallbacks), AudienceOf(env), order);
  }

  lemma StepKeepsFailures(bus: seq<Envelope>, p: Pod, e: Event)
    requires Inv(bus, p) && Legal(bus, p, e)
    ensures FailuresInv(Step(bus, p, e))
  {
    if e.Send? {
      SendKeepsFailures(bus, p, e.source, e.ok);
    } else if e.Finish? {
      FinishKeepsFailures(bus, p, e.source);
    } else if e.Consume? || e.FallBack? {
      StartKeepsFailures(bus, p, e);
    } else {
      OutsideKeepsFailures(bus, p, e);
    }
  }

  lemma DispatchStarts(p: Pod, src: Source, a: Audience, order: seq<User>)
    requires Sound(p.reg) && Enumerates(p, a, order)
    ensures var p' := Dispatched(p, src, a, order);
            && p'.started == p.started[src := Start(a, Audible(p, a))]
            && p'.tasks.Keys <= p.tasks.Keys + {src}
            && p'.own == p.own && p'.joined == p.joined && p'.closed == p.closed && p'.pruned == p.pruned
            && p'.since == p.since && p'.cursor == p.cursor && p'.fallbacks == p.fallbacks
  {
  }

  lemma StepKeepsBus(bus: seq<Envelope>, p: Pod, e: Event)
    requires BusInv(bus, p) && p.tasks.Keys <= p.started.Keys && Legal(bus, p, e)
    ensures BusInv(bus, Step(bus, p, e))
  {
    var p' := Step(bus, p, e);
    match e
    case Consume(order) => DispatchStarts(p, Bus(p.cursor), AudienceOf(bus[p.cursor]), order);
    case FallBack(env, order) => DispatchStarts(p, Fallback(p.fallbacks), AudienceOf(env), order);
    case _ => assert p'.started == p.started && p'.tasks.Keys <= p.tasks.Keys && p'.fallbacks == p.fallbacks;
  }

  lemma ConsumeKeepsJoin(bus: seq<Envelope>, p: Pod, order: seq<User>)
    requires RegistryExact(p) && JoinInv(p) && BusInv(bus, p) && Legal(bus, p, Consume(order))
    ensures JoinInv(Step(bus, p, Consume(order)))
  {
    var p' := Step(bus, p, Consume(order));
    var a := AudienceOf(bus[p.cursor]);
    DispatchStarts(p, Bus(p.cursor), a, order);
    forall s, k: nat | Present(p', s) && p'.joined[s] <= k && Bus(k) in p'.started
      ensures Expected(p'.started[Bus(k)], p'.own, s)
    {
      if k == p.cursor {
        assert p'.started[Bus(k)].must == Audible(p, a);
      } else {
        assert Present(p, s) && p'.started[Bus(k)] == p.started[Bus(k)];
      }
    }
  }

  lemma ConnectKeepsJoin(bus: seq<Envelope>, p: Pod, x: Socket, c: Company, u: User)
    requires JoinInv(p) && BusInv(bus, p) && Legal(bus, p, Connect(x, c, u))
    ensures JoinInv(Step(bus, p, Connect(x, c, u)))
  {
  }

  lemma StepKeepsJoin(bus: seq<Envelope>, p: Pod, e: Event)
    requires RegistryExact(p) && JoinInv(p) && BusInv(bus, p) && Legal(bus, p, e)
    ensures JoinInv(Step(bus, p, e))
  {
    var p' := Step(bus, p, e);
    if e.Consume? {
      ConsumeKeepsJoin(bus, p, e.order);
    } else if e.Connect? {
      ConnectKeepsJoin(bus, p, e.socket, e.company, e.user);
    } else {
      if e.FallBack? {
        DispatchStarts(p, Fallback(p.fallbacks), AudienceOf(e.envelope), e.order);
      }
      assert p'.own == p.own && p'.joined == p.joined && p.closed <= p'.closed && p.pruned <= p'.pruned;
      forall s, k: nat | Present(p', s) && p'.joined[s] <= k && Bus(k) in p'.started
        ensures Expected(p'.started[Bus(k)], p'.own, s)
      {
        assert Present(p, s) && p'.started[Bus(k)] == p.started[Bus(k)];
      }
    }
  }

  /** Whatever runs between two awaits of a send loop, all of this stays true. */
  lemma StepKeepsInv(bus: seq<Envelope>, p: Pod, e: Event)
    requires Inv(bus, p) && Legal(bus, p, e)
    ensures Inv(bus, Step(bus, p, e))
  {
    StepKeepsRegistry(bus, p, e);
    StepKeepsTasks(bus, p, e);
    StepKeepsDone(bus, p, e);
    StepKeepsLog(bus, p, e);
    StepKeepsFailures(bus, p, e);
    assert p.tasks.Keys <= p.started.Keys;
    StepKeepsBus(bus, p, e);
    StepKeepsJoin(bus, p, e);
  }

  // ---------- Runs of one pod ----------

  ghost predicate LegalRun(bus: seq<Envelope>, p: Pod, es: seq<Event>)
    decreases |es|
  {
    es == [] || (Legal(bus, p, es[0]) && LegalRun(bus, Step(bus, p, es[0]), es[1..]))
  }

  ghost function Run(bus: seq<Envelope>, p: Pod, es: seq<Event>): Pod
    requires LegalRun(bus, p, es)
    decreases |es|
  {
    if es == [] then p else Run(bus, Step(bus, p, es[0]), es[1..])
  }

  lemma {:induction false} RunAppend(bus: seq<Envelope>, p: Pod, es: seq<Event>, e: Event)
    requires LegalRun(bus, p, es) && Legal(bus, Run(bus, p, es), e)
    ensures LegalRun(bus, p, es + [e]) && Run(bus, p, es + [e]) == Step(bus, Run(bus, p, es), e)
    decreases |es|
  {
    if es == [] {
      assert [] + [e] == [e] && [e][1..] == [];
    } else {
      assert (es + [e])[0] == es[0] && (es + [e])[1..] == es[1..] + [e];
      RunAppend(bus, Step(bus, p, es[0]), es[1..], e);
    }
  }

  /** A suspended send loop can always go on: to the next socket, the next list, or the end. */
  lemma NeverStuck(bus: seq<Envelope>, p: Pod, src: Source, ok: bool)
    requires Inv(bus, p) && src in p.tasks
    ensures Legal(bus, p, Send(src, ok)) || Legal(bus, p, Next(src)) || Legal(bus, p, Finish(src))
  {
    SoundEntries(p.reg, p.own);
    var t := p.tasks[src];
    if t.pos < |t.snapshot| {
      assert EntryAt(p.reg.lists, p.own, t, t.pos);
    }
  }

  // ---------- What a reader of the log sees ----------

  function Attempts(log: seq<Delivery>, src: Source, s: Socket): nat
    decreases |log|
  {
    if log == [] then 0
    else (if log[0].source == src && log[0].socket == s then 1 else 0) + Attempts(log[1..], src, s)
  }

  lemma {:induction false} AttemptsAtMostOne(log: seq<Delivery>, src: Source, s: Socket)
    requires LogInv(log)
    ensures Attempts(log, src, s) == if Tried(log, src, s) then 1 else 0
    decreases |log|
  {
    if log != [] {
      var rest := log[1..];
      assert forall d :: d in log <==> d == log[0] || d in rest;
      assert forall i :: 0 <= i < |rest| ==> !Same(log[0], rest[i]);
      AttemptsAtMostOne(rest, src, s);
    }
  }

  lemma TriedIsAddressed(bus: seq<Envelope>, p: Pod, src: Source, s: Socket)
    requires Inv(bus, p) && Tried(p.log, src, s)
    ensures src in p.started && s in p.own && Matches(p.started[src].audience, p.own[s])
  {
  }

  /** Once a dispatched event is done, a socket that is still registered and joined before
      has been sent the event exactly once if it is addressed, and never otherwise. */
  lemma DeliveredExactlyOnce(bus: seq<Envelope>, p: Pod, s: Socket, k: nat)
    requires Inv(bus, p) && Present(p, s) && p.joined[s] <= k < |bus|
    requires p.since.Some? && p.since.value <= k < p.cursor && Bus(k) !in p.tasks
    ensures Attempts(p.log, Bus(k), s) == if IsFor(bus[k], p.own[s]) then 1 else 0
  {
    AttemptsAtMostOne(p.log, Bus(k), s);
    AudienceIsExact(bus[k], p.own[s]);
    assert Bus(k) in p.started && p.started[Bus(k)].audience == AudienceOf(bus[k]);
    assert Expected(p.started[Bus(k)], p.own, s);
    if Tried(p.log, Bus(k), s) {
      TriedIsAddressed(bus, p, Bus(k), s);
    }
  }

  /** Whoever else gets the event, it is one of its addressees, and gets it once. */
  lemma NobodyElse(bus: seq<Envelope>, p: Pod, s: Socket, k: nat)
    requires Inv(bus, p) && k < |bus| && Tried(p.log, Bus(k), s)
    ensures s in p.own && IsFor(bus[k], p.own[s]) && Attempts(p.log, Bus(k), s) == 1
  {
    AttemptsAtMostOne(p.log, Bus(k), s);
    TriedIsAddressed(bus, p, Bus(k), s);
    AudienceIsExact(bus[k], p.own[s]);
  }

  /** What was on the channel before a pod subscribed is never sent there. */
  lemma NothingFromBefore(bus: seq<Envelope>, bus': seq<Envelope>, p: Pod, p': Pod, k: nat, s: Socket)
    requires Legal(bus, p, Subscribe) && k < |bus|
    requires Inv(bus', p') && p'.since == Step(bus, p, Subscribe).since
    ensures !Tried(p'.log, Bus(k), s)
  {
    if Tried(p'.log, Bus(k), s) {
      TriedIsAddressed(bus', p', Bus(k), s);
    }
  }

  /** One socket gets its events in the order of the channel. */
  lemma InChannelOrder(bus: seq<Envelope>, p: Pod, i: nat, j: nat)
    requires Inv(bus, p) && i < j < |p.log| && p.log[i].socket == p.log[j].socket
    requires p.log[i].source.Bus? && p.log[j].source.Bus?
    ensures p.log[i].source.k < p.log[j].source.k
  {
  }

  /** A registered socket is one that was neither disconnected nor had a failed send that
      pruned it; and the users online are those with such a socket. */
  lemma OnlineIsExact(bus: seq<Envelope>, p: Pod, c: Company, u: User)
    requires Inv(bus, p)
    ensures u in Users(p.reg, c) <==> exists s :: Present(p, s) && p.own[s] == (c, u)
    ensures forall s :: s in p.own && s !in p.closed && !HasFailed(p.log, s) ==>
              IsRegistered(p.reg, p.own[s].0, p.own[s].1, s)
    ensures c in p.reg.conns ==> p.reg.conns[c] != map[]
  {
    OnlineMeansRegistered(p.reg, p.own, c, u);
    if u in Users(p.reg, c) {
      assert At(p.reg, c, u) && EntryOk(p.reg, p.own, c, u);
      var s := p.reg.lists[p.reg.conns[c][u]][0];
      assert s in p.reg.lists[p.reg.conns[c][u]] && IsRegistered(p.reg, c, u, s);
      assert Present(p, s) && p.own[s] == (c, u);
    }
    if s :| Present(p, s) && p.own[s] == (c, u) {
      assert IsRegistered(p.reg, c, u, s);
    }
  }

  lemma {:induction false} RunKeepsInv(bus: seq<Envelope>, p: Pod, es: seq<Event>)
    requires Inv(bus, p) && LegalRun(bus, p, es)
    ensures Inv(bus, Run(bus, p, es))
    decreases |es|
  {
    if es != [] {
      StepKeepsInv(bus, p, es[0]);
      RunKeepsInv(bus, Step(bus, p, es[0]), es[1..]);
    }
  }

  lemma PrunedIsUnregistered(bus: seq<Envelope>, p: Pod, s: Socket)
    requires Inv(bus, p) && s in p.pruned
    ensures forall c, u :: !IsRegistered(p.reg, c, u, s)
  {
    forall c, u
      ensures !IsRegistered(p.reg, c, u, s)
    {
      if At(p.reg, c, u) {
        assert EntryOk(p.reg, p.own, c, u);
      }
    }
  }

  /** A socket whose send failed is registered nowhere once the loop that tried it is over,
      and never again in any continuation. */
  lemma FailedSocketsLeave(bus: seq<Envelope>, p: Pod, d: Delivery, es: seq<Event>)
    requires Inv(bus, p) && d in p.log && !d.ok && d.source !in p.tasks && LegalRun(bus, p, es)
    ensures d.socket in p.own
    ensures forall c, u :: !IsRegistered(Run(bus, p, es).reg, c, u, d.socket)
  {
    assert FailureHandled(p, d);
    RunKeepsInv(bus, p, es);
    RunPersists(bus, p, es);
    PrunedIsUnregistered(bus, Run(bus, p, es), d.socket);
  }

  // ---------- The send loops as they are written ----------

  ghost predicate Steady(p: Pod) {
    Sound(p.reg) && forall src :: src in p.tasks && src.Fallback? ==> src.n < p.fallbacks
  }

  predicate OwnMove(e: Event, src: Source) {
    (e.Send? || e.Next? || e.Finish?) && e.source == src
  }

  lemma StepKeepsSound(bus: seq<Envelope>, p: Pod, e: Event)
    requires Legal(bus, p, e)
    ensures Sound(Step(bus, p, e).reg)
  {
    var r' := Step(bus, p, e).reg;
    match e
    case Disconnect(s) =>
      NarrowedSound(p.reg, s, p.own[s].0, p.own[s].1);
      TidiedSound(Narrowed(p.reg, s, p.own[s].0, p.own[s].1), p.own[s].0);
    case Finish(src) => TidiedSound(PrunedAll(p.reg, p.tasks[src].company, p.tasks[src].dead), p.tasks[src].company);
    case _ =>
      forall c, u | At(r', c, u)
        ensures r'.conns[c][u] < |r'.lists|
      {
        assert At(p.reg, c, u) || e.Connect?;
      }
  }

  lemma TidiedSound(r: Registry, c: Company)
    requires Sound(r)
    ensures Sound(Tidied(r, c))
  {
  }

  lemma StepKeepsSteady(bus: seq<Envelope>, p: Pod, e: Event)
    requires Steady(p) && Legal(bus, p, e)
    ensures Steady(Step(bus, p, e))
  {
    StepKeepsSound(bus, p, e);
    match e
    case Consume(order) => DispatchStarts(p, Bus(p.cursor), AudienceOf(bus[p.cursor]), order);
    case FallBack(env, order) => DispatchStarts(p, Fallback(p.fallbacks), AudienceOf(env), order);
    case _ => assert Step(bus, p, e).tasks.Keys <= p.tasks.Keys;
  }

  lemma OthersStandStill(bus: seq<Envelope>, p: Pod, e: Event, src: Source)
    requires Steady(p) && Legal(bus, p, e) && src in p.tasks && !OwnMove(e, src)
    ensures src in Step(bus, p, e).tasks && Step(bus, p, e).tasks[src] == p.tasks[src]
  {
  }

  lemma {:induction false} PruneAllAppends(r: Registry, c: Company, dead: seq<(User, Socket)>)
    requires Sound(r)
    ensures r.lists <= PrunedAll(r, c, dead).lists
    decreases |dead|
  {
    if dead != [] {
      NarrowedSound(r, dead[0].1, c, dead[0].0);
      PruneAllAppends(Narrowed(r, dead[0].1, c, dead[0].0), c, dead[1..]);
    }
  }

  /** Whatever a step does to the registry, the list objects that suspended loops hold on
      to only grow at their ends. */
  lemma ListsGrow(bus: seq<Envelope>, p: Pod, e: Event)
    requires Legal(bus, p, e)
    ensures Grows(p.reg.lists, Step(bus, p, e).reg.lists)
  {
    if e.Finish? {
      PruneAllAppends(p.reg, p.tasks[e.source].company, p.tasks[e.source].dead);
    }
  }

  lemma GrowsOn(a: seq<seq<Socket>>, b: seq<seq<Socket>>, c: seq<seq<Socket>>)
    requires Grows(a, b) && Grows(b, c)
    ensures Grows(a, c)
  {
  }

  lemma DispatchIsInRange(p: Pod, src: Source, a: Audience, order: seq<User>)
    requires Sound(p.reg) && Enumerates(p, a, order)
    ensures var p' := Dispatched(p, src, a, order);
            src in p'.tasks && src !in p.tasks ==>
              && p'.tasks[src].pos == p'.tasks[src].index == 0 && p'.tasks[src].dead == []
              && forall e :: e in p'.tasks[src].snapshot ==> e.list < |p'.reg.lists|
  {
  }

  // ---------- What later steps do not undo ----------

  /** Sockets keep their owner and their place, dispatches their start; nothing closed or
      pruned comes back; a subscription stays. */
  ghost predicate Persists(p: Pod, p': Pod) {
    && (forall s :: s in p.own ==> s in p'.own && p'.own[s] == p.own[s])
    && (forall s :: s in p.own && s in p.joined ==> s in p'.joined && p'.joined[s] == p.joined[s])
    && (forall src :: src in p.started ==> src in p'.started && p'.started[src] == p.started[src])
    && p.closed <= p'.closed && p.pruned <= p'.pruned
    && (p.since.Some? ==> p'.since == p.since) && p.cursor <= p'.cursor
  }

  lemma StepPersists(bus: seq<Envelope>, p: Pod, e: Event)
    requires BusInv(bus, p) && Legal(bus, p, e)
    ensures Persists(p, Step(bus, p, e))
  {
    match e
    case Consume(order) => DispatchStarts(p, Bus(p.cursor), AudienceOf(bus[p.cursor]), order);
    case FallBack(env, order) => DispatchStarts(p, Fallback(p.fallbacks), AudienceOf(env), order);
    case _ =>
  }

  lemma {:induction false} RunPersists(bus: seq<Envelope>, p: Pod, es: seq<Event>)
    requires Inv(bus, p) && LegalRun(bus, p, es)
    ensures Persists(p, Run(bus, p, es))
    decreases |es|
  {
    if es != [] {
      StepPersists(bus, p, es[0]);
      StepKeepsInv(bus, p, es[0]);
      RunPersists(bus, Step(bus, p, es[0]), es[1..]);
    }
  }

  lemma {:induction false} RunSplits(bus: seq<Envelope>, p: Pod, es: seq<Event>, fs: seq<Event>)
    requires LegalRun(bus, p, es + fs)
    ensures LegalRun(bus, p, es) && LegalRun(bus, Run(bus, p, es), fs)
    ensures Run(bus, p, es + fs) == Run(bus, Run(bus, p, es), fs)
    decreases |es|
  {
    if es == [] {
      assert [] + fs == fs;
    } else {
      assert (es + fs)[0] == es[0] && (es + fs)[1..] == es[1..] + fs;
      RunSplits(bus, Step(bus, p, es[0]), es[1..], fs);
    }
  }

  predicate Registered(p: Pod, s: Socket)
    requires s in p.own
  {
    IsRegistered(p.reg, p.own[s].0, p.own[s].1, s)
  }

  /** Whoever the envelope is for and was registered before has been sent the event exactly
      once, and it was never sent to anybody it is not for. */
  ghost predicate DispatchIsExact(before: Pod, after: Pod, src: Source, env: Envelope) {
    && (forall s :: s in before.own && Registered(before, s) && IsFor(env, before.own[s]) ==>
          Attempts(after.log, src, s) == 1)
    && (forall s :: Tried(after.log, src, s) ==>
          s in after.own && IsFor(env, after.own[s]) && Attempts(after.log, src, s) == 1)
  }

  lemma DoneIsComplete(bus: seq<Envelope>, p: Pod, src: Source)
    requires Inv(bus, p) && src in p.started && src !in p.tasks
    ensures forall s :: s in p.started[src].must ==> Attempts(p.log, src, s) == 1
  {
    forall s | s in p.started[src].must
      ensures Attempts(p.log, src, s) == 1
    {
      AttemptsAtMostOne(p.log, src, s);
    }
  }

  lemma DoneIsExact(bus: seq<Envelope>, before: Pod, after: Pod, src: Source, env: Envelope)
    requires Inv(bus, after) && src in after.started && src !in after.tasks
    requires after.started[src] == Start(AudienceOf(env), Audible(before, AudienceOf(env)))
    ensures DispatchIsExact(before, after, src, env)
  {
    DoneIsComplete(bus, after, src);
    forall owner
      ensures Matches(AudienceOf(env), owner) <==> IsFor(env, owner)
    {
      AudienceIsExact(env, owner);
    }
    forall s | s in before.own && Registered(before, s) && IsFor(env, before.own[s])
      ensures Attempts(after.log, src, s) == 1
    {
      assert s in Audible(before, AudienceOf(env));
    }
    forall s | Tried(after.log, src, s)
      ensures s in after.own && IsFor(env, after.own[s]) && Attempts(after.log, src, s) == 1
    {
      TriedIsAddressed(bus, after, src, s);
      AttemptsAtMostOne(after.log, src, s);
    }
  }

  predicate Dispatches(bus: seq<Envelope>, p: Pod, e: Event, src: Source, env: Envelope) {
    match e
    case Consume(order) => p.cursor < |bus| && src == Bus(p.cursor) && env == bus[p.cursor]
    case FallBack(envelope, order) => src == Fallback(p.fallbacks) && env == envelope
    case _ => false
  }

  lemma DispatchTakesNote(bus: seq<Envelope>, p: Pod, e: Event, src: Source, env: Envelope)
    requires Legal(bus, p, e) && Dispatches(bus, p, e, src, env)
    ensures src in Step(bus, p, e).started
    ensures Step(bus, p, e).started[src] == Start(AudienceOf(env), Audible(p, AudienceOf(env)))
  {
    DispatchStarts(p, src, AudienceOf(env), e.order);
  }

  lemma DispatchFirst(bus: seq<Envelope>, p: Pod, e: Event, rest: seq<Event>, src: Source, env: Envelope)
    requires Inv(bus, p) && Legal(bus, p, e) && LegalRun(bus, Step(bus, p, e), rest)
    requires Dispatches(bus, p, e, src, env) && src !in Run(bus, Step(bus, p, e), rest).tasks
    ensures DispatchIsExact(p, Run(bus, Step(bus, p, e), rest), src, env)
  {
    StepKeepsInv(bus, p, e);
    DispatchTakesNote(bus, p, e, src, env);
    RunPersists(bus, Step(bus, p, e), rest);
    RunKeepsInv(bus, Step(bus, p, e), rest);
    DoneIsExact(bus, p, Run(bus, Step(bus, p, e), rest), src, env);
  }

  lemma RunAround(bus: seq<Envelope>, p: Pod, past: seq<Event>, e: Event, events: seq<Event>) returns (rest: seq<Event>)
    requires LegalRun(bus, p, events) && past + [e] <= events && LegalRun(bus, p, past)
    ensures Legal(bus, Run(bus, p, past), e) && LegalRun(bus, Step(bus, Run(bus, p, past), e), rest)
    ensures Run(bus, p, events) == Run(bus, Step(bus, Run(bus, p, past), e), rest)
  {
    rest := events[|past| + 1..];
    assert events == past + ([e] + rest);
    RunSplits(bus, p, past, [e] + rest);
    assert ([e] + rest)[0] == e && ([e] + rest)[1..] == rest;
  }

  /** A dispatch that was started by `e` somewhere in a run and is over at its end. */
  lemma DispatchedAndDone(bus: seq<Envelope>, p: Pod, past: seq<Event>, e: Event, events: seq<Event>, src: Source,
                          env: Envelope)
    requires Inv(bus, p) && LegalRun(bus, p, events) && past + [e] <= events && LegalRun(bus, p, past)
    requires Dispatches(bus, Run(bus, p, past), e, src, env)
    requires src !in Run(bus, p, events).tasks
    ensures DispatchIsExact(Run(bus, p, past), Run(bus, p, events), src, env)
  {
    RunKeepsInv(bus, p, past);
    var rest := RunAround(bus, p, past, e, events);
    DispatchFirst(bus, Run(bus, p, past), e, rest, src, env);
  }

  /** One pod running: `pod` is what its coroutines share. Between any two sends of a loop
      the other coroutines take finitely many steps, `budget` in all. */
  class Runner {
    const bus: seq<Envelope>
    var pod: Pod
    var budget: nat
    ghost var start: Pod
    ghost var events: seq<Event>

    /** The steps so far are a legal run of the pod. */
    ghost predicate IsRun()
      reads this
    {
      LegalRun(bus, start, events) && Run(bus, start, events) == pod && Steady(pod)
    }

    constructor (bus: seq<Envelope>, p: Pod, budget: nat)
      requires Steady(p)
      ensures IsRun() && start == pod == p && this.bus == bus
    {
      this.bus, pod, this.budget, start, events := bus, p, budget, p, [];
    }

    method Perform(e: Event)
      requires IsRun() && Enabled(bus, pod, e)
      modifies this`pod, this`events
      ensures IsRun() && Legal(bus, old(pod), e) && pod == Step(bus, old(pod), e) && events == old(events) + [e]
    {
      RunAppend(bus, start, events, e);
      StepKeepsSteady(bus, pod, e);
      events := events + [e];
      pod := Step(bus, pod, e);
    }

    /** A step of another coroutine, if it is one that can happen. */
    method Interrupt(src: Source, e: Event)
      requires IsRun() && src in pod.tasks
      modifies this`pod, this`events
      ensures IsRun() && old(events) <= events
      ensures src in pod.tasks && pod.tasks[src] == old(pod.tasks)[src]
      ensures Grows(old(pod.reg.lists), pod.reg.lists)
    {
      if !OwnMove(e, src) && Enabled(bus, pod, e) {
        OthersStandStill(bus, pod, e, src);
        ListsGrow(bus, pod, e);
        Perform(e);
      }
    }

    /** `await`: other coroutines may connect, disconnect, dispatch, send and prune; only
        loop `src` itself stands still. */
    method Await(src: Source)
      requires IsRun() && src in pod.tasks
      modifies this`pod, this`events, this`budget
      ensures IsRun() && old(events) <= events && budget <= old(budget)
      ensures src in pod.tasks && pod.tasks[src] == old(pod.tasks)[src]
      ensures Grows(old(pod.reg.lists), pod.reg.lists)
      ensures budget == old(budget) ==> pod == old(pod)
    {
      var more: nat := *;
      while more > 0 && budget > 0
        invariant IsRun() && old(events) <= events && budget <= old(budget)
        invariant src in pod.tasks && pod.tasks[src] == old(pod.tasks)[src]
        invariant Grows(old(pod.reg.lists), pod.reg.lists)
        invariant budget == old(budget) ==> pod == old(pod)
        decreases budget
      {
        var e: Event := *;
        ghost var before := pod.reg.lists;
        Interrupt(src, e);
        GrowsOn(old(pod.reg.lists), before, pod.reg.lists);
        budget := budget - 1;
        more := more - 1;
      }
    }

    /** `for ws in sockets`: the iterator looks at the length of the list object anew after
        every send, so it also reaches sockets appended meanwhile. */
    method SendToList(src: Source, company: Company, entries: seq<Entry>, i: nat, dead0: seq<(User, Socket)>)
      returns (dead: seq<(User, Socket)>)
      requires IsRun() && src in pod.tasks && i < |entries| && entries[i].list < |pod.reg.lists|
      requires pod.tasks[src] == Task(company, entries, i, 0, dead0)
      modifies this`pod, this`events, this`budget
      ensures IsRun() && old(events) <= events && budget <= old(budget)
      ensures Grows(old(pod.reg.lists), pod.reg.lists)
      ensures src in pod.tasks && pod.tasks[src] == Task(company, entries, i + 1, 0, dead)
    {
      dead := dead0;
      var list, index := entries[i].list, 0;
      while index < |pod.reg.lists[list]|
        invariant IsRun() && old(events) <= events && budget <= old(budget)
        invariant Grows(old(pod.reg.lists), pod.reg.lists)
        invariant src in pod.tasks && pod.tasks[src] == Task(company, entries, i, index, dead)
        decreases budget, |pod.reg.lists[list]| - index
      {
        ghost var before := pod.reg.lists;
        Await(src);
        GrowsOn(old(pod.reg.lists), before, pod.reg.lists);
        assert before[list] <= pod.reg.lists[list];
        var ok: bool := *;
        var ws := pod.reg.lists[list][index];
        Perform(Send(src, ok));
        if !ok {
          dead := dead + [(entries[i].user, ws)];
        }
        index := index + 1;
      }
      Perform(Next(src));
    }

    /** The rest of a dispatch once its entries are copied: all sends, then the pruning. */
    method SendLoop(src: Source)
      requires IsRun() && src in pod.tasks && pod.tasks[src].pos == pod.tasks[src].index == 0
      requires forall e :: e in pod.tasks[src].snapshot ==> e.list < |pod.reg.lists|
      requires pod.tasks[src].dead == []
      modifies this`pod, this`events, this`budget
      ensures IsRun() && old(events) <= events && src !in pod.tasks
    {
      var company, entries := pod.tasks[src].company, pod.tasks[src].snapshot;
      var dead: seq<(User, Socket)>, i := [], 0;
      while i < |entries|
        invariant i <= |entries| && IsRun() && old(events) <= events
        invariant |old(pod.reg.lists)| <= |pod.reg.lists|
        invariant src in pod.tasks && pod.tasks[src] == Task(company, entries, i, 0, dead)
      {
        assert entries[i] in entries;
        dead := SendToList(src, company, entries, i, dead);
        i := i + 1;
      }
      Perform(Finish(src));
    }

    /** One turn of the consume loop: dispatch the next event and await the dispatch. */
    method ConsumeOne(order: seq<User>)
      requires IsRun() && Enabled(bus, pod, Consume(order))
      modifies this`pod, this`events, this`budget
      ensures IsRun() && old(events) < events && Bus(old(pod.cursor)) !in pod.tasks
      ensures Inv(bus, start) ==>
                DispatchIsExact(old(pod), pod, Bus(old(pod.cursor)), bus[old(pod.cursor)])
    {
      ghost var before, past := pod, events;
      var src := Bus(pod.cursor);
      DispatchIsInRange(pod, src, AudienceOf(bus[pod.cursor]), order);
      Perform(Consume(order));
      if src in pod.tasks {
        SendLoop(src);
      }
      if Inv(bus, start) {
        DispatchedAndDone(bus, start, past, Consume(order), events, src, bus[before.cursor]);
      }
    }

    /** The `except` branch of `_publish`: the same dispatch, by the publishing coroutine. */
    method DispatchLocally(env: Envelope, order: seq<User>)
      requires IsRun() && Enabled(bus, pod, FallBack(env, order))
      modifies this`pod, this`events, this`budget
      ensures IsRun() && old(events) < events && Fallback(old(pod.fallbacks)) !in pod.tasks
      ensures Inv(bus, start) ==> DispatchIsExact(old(pod), pod, Fallback(old(pod.fallbacks)), env)
    {
      ghost var past := events;
      var src := Fallback(pod.fallbacks);
      DispatchIsInRange(pod, src, AudienceOf(env), order);
      Perform(FallBack(env, order));
      if src in pod.tasks {
        SendLoop(src);
      }
      if Inv(bus, start) {
        DispatchedAndDone(bus, start, past, FallBack(env, order), events, src, env);
      }
    }
  }
}
