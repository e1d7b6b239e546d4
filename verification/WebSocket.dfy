/** One pod's socket registry, its send loops interleaved at every await, and the fan-out
    of published events over many pods. */
module WebSocket {

  type Company = string
  type User = string
  type Socket = nat

  // ---------- The registry ----------

  /** A reference to a list object. Lists are shared: a send loop keeps iterating the very
      object it found in the registry. */
  type Ref = nat

  /** `conns` is {company: {user: list}}; `lists` holds every list object ever made. */
  datatype Registry = Registry(conns: map<Company, map<User, Ref>>, lists: seq<seq<Socket>>)

  predicate At(r: Registry, c: Company, u: User) {
    c in r.conns && u in r.conns[c]
  }

  /** Every registered reference denotes a list. */
  ghost predicate Sound(r: Registry) {
    forall c, u :: At(r, c, u) ==> r.conns[c][u] < |r.lists|
  }

  function Users(r: Registry, c: Company): map<User, Ref> {
    if c in r.conns then r.conns[c] else map[]
  }

  predicate IsRegistered(r: Registry, c: Company, u: User, s: Socket) {
    At(r, c, u) && r.conns[c][u] < |r.lists| && s in r.lists[r.conns[c][u]]
  }

  /** `[ws for ws in ... if ws is not s]` */
  function Without(l: seq<Socket>, s: Socket): seq<Socket>
    decreases |l|
  {
    if l == [] then [] else (if l[0] == s then [] else [l[0]]) + Without(l[1..], s)
  }

  /** `setdefault(...).setdefault(...).append(s)`: appends in place to an existing list. */
  function Connected(r: Registry, s: Socket, c: Company, u: User): Registry
    requires Sound(r)
  {
    if At(r, c, u) then r.(lists := r.lists[r.conns[c][u] := r.lists[r.conns[c][u]] + [s]])
    else Registry(r.conns[c := Users(r, c)[u := |r.lists|]], r.lists + [[s]])
  }

  /** The user's list is replaced by a new one without `s`, and dropped when empty. */
  function Narrowed(r: Registry, s: Socket, c: Company, u: User): Registry
    requires Sound(r)
  {
    if !At(r, c, u) then r
    else
      var l := Without(r.lists[r.conns[c][u]], s);
      Registry(r.conns[c := if l == [] then r.conns[c] - {u} else r.conns[c][u := |r.lists|]], r.lists + [l])
  }

  function Tidied(r: Registry, c: Company): Registry {
    if c in r.conns && r.conns[c] == map[] then r.(conns := r.conns - {c}) else r
  }

  function Disconnected(r: Registry, s: Socket, c: Company, u: User): Registry
    requires Sound(r)
  {
    if At(r, c, u) then NarrowedSound(r, s, c, u); Tidied(Narrowed(r, s, c, u), c) else r
  }

  lemma NarrowedSound(r: Registry, s: Socket, c: Company, u: User)
    requires Sound(r)
    ensures Sound(Narrowed(r, s, c, u))
  {
  }

  function PrunedAll(r: Registry, c: Company, dead: seq<(User, Socket)>): (r': Registry)
    requires Sound(r)
    ensures Sound(r')
    decreases |dead|
  {
    if dead == [] then r
    else
      NarrowedSound(r, dead[0].1, c, dead[0].0);
      PrunedAll(Narrowed(r, dead[0].1, c, dead[0].0), c, dead[1..])
  }

  function Pruned(r: Registry, c: Company, dead: seq<(User, Socket)>): Registry
    requires Sound(r)
  {
    Tidied(PrunedAll(r, c, dead), c)
  }

  // ---------- What the registry keeps ----------

  /** For whom each socket was opened. */
  type Owners = map<Socket, (Company, User)>

  predicate NoDup<T(==)>(l: seq<T>) {
    forall i, j :: 0 <= i < j < |l| ==> l[i] != l[j]
  }

  ghost predicate Owned(own: Owners, l: seq<Socket>, c: Company, u: User) {
    forall s :: s in l ==> s in own && own[s] == (c, u)
  }

  ghost predicate EntryOk(r: Registry, own: Owners, c: Company, u: User)
    requires At(r, c, u)
  {
    r.conns[c][u] < |r.lists| && r.lists[r.conns[c][u]] != [] && Owned(own, r.lists[r.conns[c][u]], c, u)
  }

  ghost predicate EntriesInv(r: Registry, own: Owners) {
    && (forall c, u :: At(r, c, u) ==> EntryOk(r, own, c, u))
    && (forall l :: l in r.lists ==> NoDup(l))
  }

  /** No company is left with an empty map (leaving out `but`). */
  ghost predicate Full(r: Registry, but: set<Company>) {
    forall c :: c in r.conns && c !in but ==> r.conns[c] != map[]
  }

  ghost predicate RegistryInv(r: Registry, own: Owners) {
    EntriesInv(r, own) && Full(r, {})
  }

  /** List objects are never emptied or reordered: they only grow at the end. */
  ghost predicate Grows(a: seq<seq<Socket>>, b: seq<seq<Socket>>) {
    |a| <= |b| && forall i :: 0 <= i < |a| ==> a[i] <= b[i]
  }

  lemma {:induction false} WithoutMeans(l: seq<Socket>, s: Socket)
    ensures forall x :: x in Without(l, s) <==> x in l && x != s
    ensures NoDup(l) ==> NoDup(Without(l, s))
    decreases |l|
  {
    if l != [] {
      WithoutMeans(l[1..], s);
      assert forall x :: x in l <==> x == l[0] || x in l[1..];
      if NoDup(l) {
        assert NoDup(l[1..]);
        assert l[0] !in l[1..];
      }
    }
  }

  lemma {:induction false} WithoutJoins(l: seq<Socket>, m: seq<Socket>, s: Socket)
    ensures Without(l + m, s) == Without(l, s) + Without(m, s)
    decreases |l|
  {
    if l == [] {
      assert l + m == m;
    } else {
      assert (l + m)[0] == l[0] && (l + m)[1..] == l[1..] + m;
      WithoutJoins(l[1..], m, s);
    }
  }

  lemma WithoutNext(l: seq<Socket>, i: nat, s: Socket)
    requires i < |l|
    ensures Without(l[..i + 1], s) == if l[i] == s then Without(l[..i], s) else Without(l[..i], s) + [l[i]]
  {
    assert l[..i + 1] == l[..i] + [l[i]];
    WithoutJoins(l[..i], [l[i]], s);
    assert [l[i]][1..] == [];
  }

  lemma SoundEntries(r: Registry, own: Owners)
    requires EntriesInv(r, own)
    ensures Sound(r)
  {
  }

  /** Two users never share a list: it is not empty, and its sockets have one owner. */
  lemma OneListEach(r: Registry, own: Owners, c: Company, u: User, c': Company, u': User)
    requires EntriesInv(r, own) && At(r, c, u) && At(r, c', u') && r.conns[c][u] == r.conns[c'][u']
    ensures c == c' && u == u'
  {
    assert EntryOk(r, own, c, u) && EntryOk(r, own, c', u');
    var s := r.lists[r.conns[c][u]][0];
    assert s in r.lists[r.conns[c][u]] && s in r.lists[r.conns[c'][u']];
  }

  lemma ConnectKeeps(r: Registry, own: Owners, s: Socket, c: Company, u: User)
    requires RegistryInv(r, own) && Sound(r) && s !in own
    ensures RegistryInv(Connected(r, s, c, u), own[s := (c, u)])
    ensures Grows(r.lists, Connected(r, s, c, u).lists)
  {
    var r' := Connected(r, s, c, u);
    var own' := own[s := (c, u)];
    forall c', u' | At(r', c', u')
      ensures EntryOk(r', own', c', u')
    {
      if At(r, c', u') {
        assert EntryOk(r, own, c', u');
        if At(r, c, u) && r.conns[c][u] == r.conns[c'][u'] {
          OneListEach(r, own, c, u, c', u');
        }
      }
    }
    if At(r, c, u) {
      assert EntryOk(r, own, c, u);
      assert s !in r.lists[r.conns[c][u]];
      assert r.lists[r.conns[c][u]] in r.lists;
    }
    assert u in r'.conns[c];
    forall l | l in r'.lists
      ensures NoDup(l)
    {
      assert l in r.lists || l == [s] || (At(r, c, u) && l == r.lists[r.conns[c][u]] + [s]);
    }
  }

  lemma ConnectRegisters(r: Registry, own: Owners, s: Socket, c: Company, u: User, c': Company, u': User, x: Socket)
    requires RegistryInv(r, own) && Sound(r)
    ensures IsRegistered(Connected(r, s, c, u), c', u', x) <==> IsRegistered(r, c', u', x) || (c', u', x) == (c, u, s)
  {
    if At(r, c, u) && At(r, c', u') && r.conns[c][u] == r.conns[c'][u'] {
      OneListEach(r, own, c, u, c', u');
    }
  }

  lemma NarrowKeeps(r: Registry, own: Owners, s: Socket, c: Company, u: User)
    requires EntriesInv(r, own) && Sound(r) && Full(r, {c})
    ensures EntriesInv(Narrowed(r, s, c, u), own) && Full(Narrowed(r, s, c, u), {c})
    ensures r.lists <= Narrowed(r, s, c, u).lists
  {
    if At(r, c, u) {
      var r' := Narrowed(r, s, c, u);
      var l := r.lists[r.conns[c][u]];
      assert l in r.lists;
      WithoutMeans(l, s);
      assert EntryOk(r, own, c, u);
      forall c', u' | At(r', c', u')
        ensures EntryOk(r', own, c', u')
      {
        assert At(r, c', u') && EntryOk(r, own, c', u');
      }
    }
  }

  lemma NarrowUnregisters(r: Registry, s: Socket, c: Company, u: User, c': Company, u': User, x: Socket)
    requires Sound(r)
    ensures IsRegistered(Narrowed(r, s, c, u), c', u', x) <==> IsRegistered(r, c', u', x) && (c', u', x) != (c, u, s)
  {
    if At(r, c, u) {
      WithoutMeans(r.lists[r.conns[c][u]], s);
    }
  }

  lemma TidyKeeps(r: Registry, own: Owners, c: Company)
    requires EntriesInv(r, own) && Full(r, {c})
    ensures RegistryInv(Tidied(r, c), own)
    ensures forall c', u', x :: IsRegistered(Tidied(r, c), c', u', x) <==> IsRegistered(r, c', u', x)
  {
    var r' := Tidied(r, c);
    forall c', u'
      ensures At(r', c', u') <==> At(r, c', u')
      ensures At(r, c', u') ==> EntryOk(r, own, c', u')
    {
    }
  }

  lemma DisconnectKeeps(r: Registry, own: Owners, s: Socket, c: Company, u: User)
    requires RegistryInv(r, own) && Sound(r)
    ensures RegistryInv(Disconnected(r, s, c, u), own)
    ensures r.lists <= Disconnected(r, s, c, u).lists
  {
    NarrowKeeps(r, own, s, c, u);
    TidyKeeps(Narrowed(r, s, c, u), own, c);
  }

  lemma DisconnectUnregisters(r: Registry, own: Owners, s: Socket, c: Company, u: User,
                              c': Company, u': User, x: Socket)
    requires RegistryInv(r, own) && Sound(r)
    ensures IsRegistered(Disconnected(r, s, c, u), c', u', x) <==>
            IsRegistered(r, c', u', x) && (c', u', x) != (c, u, s)
  {
    NarrowKeeps(r, own, s, c, u);
    NarrowUnregisters(r, s, c, u, c', u', x);
    TidyKeeps(Narrowed(r, s, c, u), own, c);
  }

  lemma {:induction false} PruneAllKeeps(r: Registry, own: Owners, c: Company, dead: seq<(User, Socket)>)
    requires EntriesInv(r, own) && Sound(r) && Full(r, {c})
    ensures EntriesInv(PrunedAll(r, c, dead), own) && Full(PrunedAll(r, c, dead), {c})
    ensures r.lists <= PrunedAll(r, c, dead).lists
    decreases |dead|
  {
    if dead != [] {
      NarrowKeeps(r, own, dead[0].1, c, dead[0].0);
      NarrowedSound(r, dead[0].1, c, dead[0].0);
      PruneAllKeeps(Narrowed(r, dead[0].1, c, dead[0].0), own, c, dead[1..]);
    }
  }

  lemma {:induction false} PruneAllUnregisters(r: Registry, c: Company, dead: seq<(User, Socket)>,
                                              c': Company, u': User, x: Socket)
    requires Sound(r)
    ensures IsRegistered(PrunedAll(r, c, dead), c', u', x) <==>
            IsRegistered(r, c', u', x) && !(c' == c && (u', x) in dead)
    decreases |dead|
  {
    if dead != [] {
      NarrowUnregisters(r, dead[0].1, c, dead[0].0, c', u', x);
      NarrowedSound(r, dead[0].1, c, dead[0].0);
      PruneAllUnregisters(Narrowed(r, dead[0].1, c, dead[0].0), c, dead[1..], c', u', x);
      assert (u', x) in dead <==> (u', x) == dead[0] || (u', x) in dead[1..];
    }
  }

  lemma PruneKeeps(r: Registry, own: Owners, c: Company, dead: seq<(User, Socket)>)
    requires RegistryInv(r, own) && Sound(r)
    ensures RegistryInv(Pruned(r, c, dead), own)
    ensures r.lists <= Pruned(r, c, dead).lists
  {
    PruneAllKeeps(r, own, c, dead);
    TidyKeeps(PrunedAll(r, c, dead), own, c);
  }

  lemma PruneUnregisters(r: Registry, own: Owners, c: Company, dead: seq<(User, Socket)>,
                         c': Company, u': User, x: Socket)
    requires RegistryInv(r, own) && Sound(r)
    ensures IsRegistered(Pruned(r, c, dead), c', u', x) <==>
            IsRegistered(r, c', u', x) && !(c' == c && (u', x) in dead)
  {
    PruneAllKeeps(r, own, c, dead);
    PruneAllUnregisters(r, c, dead, c', u', x);
    TidyKeeps(PrunedAll(r, c, dead), own, c);
  }

  /** The users online are exactly those with a registered socket. */
  lemma OnlineMeansRegistered(r: Registry, own: Owners, c: Company, u: User)
    requires RegistryInv(r, own)
    ensures u in Users(r, c) <==> exists s :: IsRegistered(r, c, u, s)
  {
    if u in Users(r, c) {
      assert At(r, c, u) && EntryOk(r, own, c, u);
      assert IsRegistered(r, c, u, r.lists[r.conns[c][u]][0]);
    }
  }

  /** The synchronous half of the manager. */
  class ConnectionManager {
    var conns: map<Company, map<User, Ref>>
    var lists: seq<seq<Socket>>

    ghost function Value(): Registry
      reads this
    {
      Registry(conns, lists)
    }

    constructor ()
      ensures Value() == Registry(map[], []) && Sound(Value())
    {
      conns, lists := map[], [];
    }

    method Filtered(l: seq<Socket>, ws: Socket) returns (kept: seq<Socket>)
      ensures kept == Without(l, ws)
    {
      kept := [];
      for i := 0 to |l|
        invariant kept == Without(l[..i], ws)
      {
        WithoutNext(l, i, ws);
        if l[i] != ws {
          kept := kept + [l[i]];
        }
      }
      assert l[..|l|] == l;
    }

    method Connect(ws: Socket, c: Company, u: User)
      requires Sound(Value())
      modifies this
      ensures Value() == Connected(old(Value()), ws, c, u)
    {
      var users := if c in conns then conns[c] else map[];
      var known := u in users;
      if !known {
        users := users[u := |lists|];
        lists := lists + [[]];
        conns := conns[c := users];
      }
      assert At(old(Value()), c, u) <==> known;
      assert !known ==> lists[users[u]] + [ws] == [ws];
      lists := lists[users[u] := lists[users[u]] + [ws]];
    }

    /** Replaces a user's list by a new one without `ws`; drops it when empty. */
    method Narrow(ws: Socket, c: Company, u: User)
      requires Sound(Value()) && At(Value(), c, u)
      modifies this
      ensures Value() == Narrowed(old(Value()), ws, c, u)
      ensures c in conns
    {
      var kept := Filtered(lists[conns[c][u]], ws);
      var users: map<User, Ref> := conns[c][u := |lists|];
      conns, lists := conns[c := users], lists + [kept];
      if kept == [] {
        assert users - {u} == old(conns[c]) - {u};
        conns := conns[c := conns[c] - {u}];
      }
    }

    method Disconnect(ws: Socket, c: Company, u: User)
      requires Sound(Value())
      modifies this
      ensures Value() == Disconnected(old(Value()), ws, c, u)
    {
      if c in conns && u in conns[c] {
        Narrow(ws, c, u);
        if conns[c] == map[] {
          conns := conns - {c};
        }
      }
    }

    method GetOnlineUsers(c: Company) returns (users: set<User>)
      ensures users == Users(Value(), c).Keys
    {
      users := if c in conns then conns[c].Keys else {};
    }

    method PruneDead(c: Company, dead: seq<(User, Socket)>)
      requires Sound(Value())
      modifies this
      ensures Value() == Pruned(old(Value()), c, dead)
    {
      for i := 0 to |dead|
        invariant Sound(Value())
        invariant PrunedAll(Value(), c, dead[i..]) == PrunedAll(old(Value()), c, dead)
      {
        var (u, ws) := dead[i];
        assert dead[i..][0] == dead[i] && dead[i..][1..] == dead[i + 1..];
        NarrowedSound(Value(), ws, c, u);
        if c in conns && u in conns[c] {
          Narrow(ws, c, u);
        }
      }
      if c in conns && conns[c] == map[] {
        conns := conns - {c};
      }
    }
  }
}
