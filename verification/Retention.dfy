/** The nightly retention sweep. Its DELETEs name no company: what they reach is decided
    by the session's tenant and the row policies, and by the cascading foreign keys. */
module Retention {
  import opened Wrappers
  import opened Tenancy

  const CONTACT_DAYS := 365
  const CONVERSATION_DAYS := 365
  const AI_CONTEXT_DAYS := 90

  /** Datetimes, in days: the first instant of year 1 up to the end of year 9999. */
  const LAST_DAY := 3652059.0

  // ---------- Cutoffs from per-tenant settings ----------

  /** A settings value: absent, or present with its truth value and its `int(...)`, which
      is missing when the conversion raises. */
  datatype Json = Missing | Value(truthy: bool, asInt: Option<int>)

  datatype Settings = Settings(contactDays: Json, conversationDays: Json, aiDays: Json)

  datatype Cutoffs = Cutoffs(contact: real, conversation: real, ai: real)

  /** `int(settings.get(key) or default)` */
  function Days(j: Json, default: int): Option<int> {
    if j.Value? && j.truthy then j.asInt else Some(default)
  }

  /** `now - timedelta(days=...)`, which raises outside the range of datetimes. */
  function Cutoff(now: real, days: Option<int>): Option<real> {
    if days.Some? && 0.0 <= now - days.value as real < LAST_DAY then Some(now - days.value as real) else None
  }

  /** All three cutoffs of a tenant; None when computing one of them raises. */
  function CutoffsOf(now: real, s: Settings): Option<Cutoffs> {
    var c := Cutoff(now, Days(s.contactDays, CONTACT_DAYS));
    var v := Cutoff(now, Days(s.conversationDays, CONVERSATION_DAYS));
    var a := Cutoff(now, Days(s.aiDays, AI_CONTEXT_DAYS));
    if c.Some? && v.Some? && a.Some? then Some(Cutoffs(c.value, v.value, a.value)) else None
  }

  // ---------- The statements of one tenant's purge ----------

  predicate InConversation(r: Row) {
    r.Message? || r.AiContext? || r.RoutingDecision?
  }

  /** Rows that hang on a deleted contact or conversation go with it; referential actions
      do not look at row policies. */
  predicate Hangs(db: Rows, gone: set<nat>, r: Row) {
    match r
    case Conversation(_, contact, _, _) => contact in gone
    case _ => InConversation(r) && OnGone(db, gone, r.conversation)
  }

  predicate OnGone(db: Rows, gone: set<nat>, conversation: nat) {
    conversation in gone || (conversation in db && db[conversation].Conversation? && db[conversation].contact in gone)
  }

  function DeleteCascade(db: Rows, gone: set<nat>): Rows {
    map i | i in db && i !in gone && !Hangs(db, gone, db[i]) :: db[i]
  }

  predicate OldContact(c: Cutoffs, r: Row) {
    r.Contact? && r.deletedAt.Some? && r.deletedAt.value < c.contact
  }

  predicate OldConversation(c: Cutoffs, r: Row) {
    r.Conversation? && r.status == "closed" && r.lastMessageAt.Some? && r.lastMessageAt.value < c.conversation
  }

  predicate OldAiContext(c: Cutoffs, r: Row) {
    r.AiContext? && r.updatedAt < c.ai
  }

  function OldContacts(c: Cutoffs): Filter {
    (i, r) => OldContact(c, r)
  }

  function OldAiContexts(c: Cutoffs): Filter {
    (i, r) => OldAiContext(c, r)
  }

  function MessagesOf(ids: set<nat>): Filter {
    (i, r: Row) => r.Message? && r.conversation in ids
  }

  function ConversationsIn(ids: set<nat>): Filter {
    (i, r: Row) => r.Conversation? && i in ids
  }

  function DeleteContacts(db: Rows, s: Setting, c: Cutoffs): Rows {
    DeleteCascade(db, Reached(db, s, OldContacts(c)))
  }

  function SelectConversations(db: Rows, s: Setting, c: Cutoffs): set<nat> {
    set i | i in db && CanRead(s, db[i]) && OldConversation(c, db[i])
  }

  function DeleteMessages(db: Rows, s: Setting, ids: set<nat>): Rows {
    db - Reached(db, s, MessagesOf(ids))
  }

  function DeleteConversations(db: Rows, s: Setting, ids: set<nat>): Rows {
    DeleteCascade(db, Reached(db, s, ConversationsIn(ids)))
  }

  function DeleteAiContexts(db: Rows, s: Setting, c: Cutoffs): Rows {
    db - Reached(db, s, OldAiContexts(c))
  }

  /** Step 1: contacts; step 2: old closed conversations, messages first; step 3: stale
      AI contexts. Every statement runs under the policies for the setting `s`. */
  function Purge(db: Rows, s: Setting, c: Cutoffs): Rows {
    var d1 := DeleteContacts(db, s, c);
    var ids := SelectConversations(d1, s, c);
    DeleteAiContexts(DeleteConversations(DeleteMessages(d1, s, ids), s, ids), s, c)
  }

  // ---------- What a purge amounts to ----------

  /** The row a row hangs on. */
  function Parent(r: Row): Option<nat> {
    if r.Conversation? then Some(r.contact) else if InConversation(r) then Some(r.conversation) else None
  }

  /** What the schema guarantees: every foreign key points to an existing row of the right
      table. It says nothing about companies. */
  ghost predicate Resolved(db: Rows) {
    forall i :: i in db ==> Resolves(db, db[i])
  }

  ghost predicate Resolves(db: Rows, r: Row) {
    match r
    case Conversation(_, contact, _, _) => contact in db && db[contact].Contact?
    case _ => InConversation(r) ==> r.conversation in db && db[r.conversation].Conversation?
  }

  /** Tenant `t` deletes this contact. */
  ghost predicate TakesContact(db: Rows, t: Company, c: Cutoffs, contact: nat) {
    contact in db && db[contact].company == t && OldContact(c, db[contact])
  }

  ghost predicate InTakenContact(db: Rows, t: Company, c: Cutoffs, conversation: nat) {
    conversation in db && db[conversation].Conversation? && TakesContact(db, t, c, db[conversation].contact)
  }

  ghost predicate InOldConversation(db: Rows, t: Company, c: Cutoffs, conversation: nat) {
    conversation in db && db[conversation].company == t && OldConversation(c, db[conversation])
  }

  /** Tenant `t` deletes the contact of this conversation, or the conversation itself. */
  ghost predicate TakesConversation(db: Rows, t: Company, c: Cutoffs, conversation: nat) {
    InTakenContact(db, t, c, conversation) || InOldConversation(db, t, c, conversation)
  }

  /** The rows a purge by tenant `t` removes, whatever their company. */
  ghost predicate Doomed(db: Rows, t: Company, c: Cutoffs, r: Row) {
    match r
    case Contact(company, _) => company == t && OldContact(c, r)
    case Conversation(company, contact, _, _) =>
      TakesContact(db, t, c, contact) || (company == t && OldConversation(c, r))
    case _ =>
      InConversation(r) && (TakesConversation(db, t, c, r.conversation) || (r.company == t && OldAiContext(c, r)))
  }

  ghost function Survivors(db: Rows, t: Company, c: Cutoffs): Rows {
    map i | i in db && !Doomed(db, t, c, db[i]) :: db[i]
  }

  ghost function AfterContacts(db: Rows, t: Company, c: Cutoffs): Rows {
    map i | i in db && !ByContact(db, t, c, db[i]) :: db[i]
  }

  /** The row goes because of an old contact of `t`: itself, its contact, or that of its
      conversation. */
  ghost predicate ByContact(db: Rows, t: Company, c: Cutoffs, r: Row) {
    match r
    case Contact(company, _) => company == t && OldContact(c, r)
    case Conversation(_, contact, _, _) => TakesContact(db, t, c, contact)
    case _ => InConversation(r) && InTakenContact(db, t, c, r.conversation)
  }

  /** The row goes because of an old closed conversation of `t`: itself, or the one it is in. */
  ghost predicate ByConversation(db: Rows, t: Company, c: Cutoffs, r: Row) {
    match r
    case Conversation(company, _, _, _) => company == t && OldConversation(c, r)
    case _ => InConversation(r) && InOldConversation(db, t, c, r.conversation)
  }

  lemma ContactsStep(db: Rows, t: Company, c: Cutoffs)
    requires Resolved(db)
    ensures DeleteContacts(db, Tenant(t), c) == AfterContacts(db, t, c)
    ensures Resolved(AfterContacts(db, t, c))
  {
    var gone := Reached(db, Tenant(t), OldContacts(c));
    forall i | i in db
      ensures i in gone || Hangs(db, gone, db[i]) <==> ByContact(db, t, c, db[i])
      ensures i in AfterContacts(db, t, c) ==> Resolves(AfterContacts(db, t, c), db[i])
    {
      assert Resolves(db, db[i]);
      if InConversation(db[i]) {
        assert Resolves(db, db[db[i].conversation]);
      }
    }
  }

  /** The second step in terms of the database it starts from. Only the tenant's own
      messages are deleted first; the cascade takes the others. */
  lemma ConversationsStep(db: Rows, t: Company, c: Cutoffs)
    requires Resolved(db)
    ensures var ids := SelectConversations(db, Tenant(t), c);
            DeleteConversations(DeleteMessages(db, Tenant(t), ids), Tenant(t), ids)
            == map i | i in db && !ByConversation(db, t, c, db[i]) :: db[i]
  {
    var s := Tenant(t);
    var ids := SelectConversations(db, s, c);
    var d := DeleteMessages(db, s, ids);
    var gone := Reached(d, s, ConversationsIn(ids));
    assert gone == ids;
    forall i | i in db
      ensures i !in d || i in gone || Hangs(d, gone, db[i]) <==> ByConversation(db, t, c, db[i])
    {
      assert Resolves(db, db[i]);
    }
  }

  /** The second step judged in the original database rather than after the first step. */
  lemma TwoStepsAt(db: Rows, t: Company, c: Cutoffs, i: nat)
    requires Resolved(db) && i in AfterContacts(db, t, c)
    ensures ByConversation(AfterContacts(db, t, c), t, c, db[i]) <==> ByConversation(db, t, c, db[i])
  {
    assert Resolves(db, db[i]);
    if InConversation(db[i]) {
      assert Resolves(db, db[db[i].conversation]);
    }
  }

  lemma DoomedBySteps(db: Rows, t: Company, c: Cutoffs, r: Row)
    ensures Doomed(db, t, c, r) <==>
            ByContact(db, t, c, r) || ByConversation(db, t, c, r) || (r.company == t && OldAiContext(c, r))
  {
  }

  /** A purge removes exactly the doomed rows. No statement names a company and the
      cascades ignore the policies; the schema's own guarantee is all that is needed. */
  lemma PurgeIsExact(db: Rows, t: Company, c: Cutoffs)
    requires Resolved(db)
    ensures Purge(db, Tenant(t), c) == Survivors(db, t, c)
  {
    var s := Tenant(t);
    var d1 := AfterContacts(db, t, c);
    ContactsStep(db, t, c);
    var ids := SelectConversations(d1, s, c);
    var d3 := DeleteConversations(DeleteMessages(d1, s, ids), s, ids);
    ConversationsStep(d1, t, c);
    forall i | i in db
      ensures i in DeleteAiContexts(d3, s, c) <==> i in Survivors(db, t, c)
    {
      DoomedBySteps(db, t, c, db[i]);
      if i in d1 {
        TwoStepsAt(db, t, c, i);
      }
    }
    assert DeleteAiContexts(d3, s, c) == Survivors(db, t, c);
  }

  /** No orphan: what survives still has its contact and its conversation. */
  lemma PurgeKeepsLinks(db: Rows, t: Company, c: Cutoffs)
    requires Resolved(db)
    ensures Resolved(Purge(db, Tenant(t), c))
  {
    PurgeIsExact(db, t, c);
    var d := Survivors(db, t, c);
    forall i | i in d
      ensures Resolves(d, d[i])
    {
      assert Resolves(db, db[i]);
    }
  }

  /** A message or a routing decision goes if and only if its conversation goes. */
  lemma MessagesFollow(db: Rows, t: Company, c: Cutoffs, i: nat)
    requires Resolved(db) && i in db && (db[i].Message? || db[i].RoutingDecision?)
    ensures db[i].conversation in db
    ensures i in Survivors(db, t, c) <==> db[i].conversation in Survivors(db, t, c)
  {
    assert Resolves(db, db[i]);
  }

  // ---------- Other tenants ----------

  /** A row of another tenant hangs on a row of `t` that goes. */
  ghost predicate Borrows(db: Rows, t: Company, c: Cutoffs, i: nat)
    requires i in db
  {
    && db[i].company != t && Parent(db[i]).Some? && Parent(db[i]).value in db
    && db[Parent(db[i]).value].company == t && Doomed(db, t, c, db[Parent(db[i]).value])
  }

  /** A foreign row goes only with the row it hangs on, and always with it. */
  lemma ForeignDoom(db: Rows, t: Company, c: Cutoffs, i: nat)
    requires Resolved(db) && i in db && db[i].company != t
    ensures Doomed(db, t, c, db[i]) <==> Parent(db[i]).Some? && Doomed(db, t, c, db[Parent(db[i]).value])
    ensures Parent(db[i]).Some? ==> Parent(db[i]).value in db
    ensures Doomed(db, t, c, db[i]) ==> Borrows(db, t, c, i) || Borrows(db, t, c, Parent(db[i]).value)
  {
    assert Resolves(db, db[i]);
    if InConversation(db[i]) {
      assert Resolves(db, db[db[i].conversation]);
    }
  }

  /** A purge leaves the other tenants alone if and only if none of their rows hangs on a
      row of its own that goes. */
  lemma ForeignRowsStayIff(db: Rows, t: Company, c: Cutoffs)
    requires Resolved(db)
    ensures Foreign(Purge(db, Tenant(t), c), t) == Foreign(db, t) <==>
            forall i :: i in db ==> !Borrows(db, t, c, i)
  {
    PurgeIsExact(db, t, c);
    var d := Survivors(db, t, c);
    forall i | i in db && db[i].company != t
      ensures i in Foreign(db, t)
      ensures i in Foreign(d, t) <==> !Doomed(db, t, c, db[i])
      ensures Borrows(db, t, c, i) ==> Doomed(db, t, c, db[i])
      ensures Doomed(db, t, c, db[i]) ==> exists j :: j in db && Borrows(db, t, c, j)
    {
      ForeignDoom(db, t, c, i);
    }
    if forall i :: i in db ==> !Borrows(db, t, c, i) {
      assert Foreign(d, t) == Foreign(db, t);
    }
  }

  /** Foreign keys that stay inside one company, which no constraint asks for. */
  ghost predicate SameCompany(db: Rows) {
    forall i :: i in db && Parent(db[i]).Some? && Parent(db[i]).value in db ==>
      db[Parent(db[i]).value].company == db[i].company
  }

  /** Where they do, every purge leaves every other tenant alone. */
  lemma OwnDoom(db: Rows, t: Company, c: Cutoffs, i: nat)
    requires Resolved(db) && SameCompany(db) && i in db && Doomed(db, t, c, db[i])
    ensures db[i].company == t
  {
    if db[i].company != t {
      ForeignDoom(db, t, c, i);
    }
  }

  /** They need not: the policies let a tenant store a conversation on another tenant's
      contact. */
  lemma TenantsMayBorrow(contact: Row)
    requires contact.Contact? && contact.company == 1
    ensures var db0: Rows := map[1 := contact];
            var db1 := Exec(db0, Tenant(2), Insert(2, Conversation(2, 1, "open", None))).0;
            Exec(db1, Tenant(2), Insert(3, Message(2, 2, "hello"))).0
            == map[1 := contact, 2 := Conversation(2, 1, "open", None), 3 := Message(2, 2, "hello")]
  {
  }

  /** It loses both when the contact's tenant purges the contact. */
  lemma ForeignRowsCanGo()
    ensures var db: Rows :=
              map[1 := Contact(1, Some(0.0)), 2 := Conversation(2, 1, "open", None), 3 := Message(2, 2, "hello")];
            Resolved(db) && Purge(db, Tenant(1), Cutoffs(1.0, 1.0, 1.0)) == map[]
  {
    var db: Rows :=
      map[1 := Contact(1, Some(0.0)), 2 := Conversation(2, 1, "open", None), 3 := Message(2, 2, "hello")];
    var c := Cutoffs(1.0, 1.0, 1.0);
    assert TakesContact(db, 1, c, 1) && TakesConversation(db, 1, c, 2);
    PurgeIsExact(db, 1, c);
  }

  // ---------- The sweep over all tenants ----------

  /** How a tenant's transaction fares: it raises at one of its statements (or at the
      commit), or it gets as far as inserting its audit row under a new key. */
  datatype Luck = Trouble(after: nat) | Fine(auditId: nat)

  datatype Job = Job(tenant: Company, settings: Settings, luck: Luck)

  /** The database a sweep leaves, the tenants it logs as done and as failed, and whether
      the task itself raised. */
  datatype Outcome = Outcome(db: Rows, done: seq<Company>, failed: seq<Company>, raised: bool)

  function Audit(t: Company): Row {
    AuditLog(t, "retention.purge")
  }

  function PurgeTenant(db: Rows, t: Company, c: Cutoffs, luck: Luck): Option<Rows> {
    if luck.Trouble? then None
    else
      var d := Purge(db, Tenant(t), c);
      if luck.auditId in d then None else Some(d[luck.auditId := Audit(t)])
  }

  function Sweep(db: Rows, now: real, jobs: seq<Job>): Outcome
    decreases |jobs|
  {
    if jobs == [] then Outcome(db, [], [], false)
    else
      var t := jobs[0].tenant;
      match CutoffsOf(now, jobs[0].settings)
      case None => Outcome(db, [], [], true)
      case Some(c) =>
        match PurgeTenant(db, t, c, jobs[0].luck)
        case None => var r := Sweep(db, now, jobs[1..]); r.(failed := [t] + r.failed)
        case Some(d) => var r := Sweep(d, now, jobs[1..]); r.(done := [t] + r.done)
  }

  /** `company.id` is a primary key. */
  ghost predicate Distinct(jobs: seq<Job>)
    decreases |jobs|
  {
    jobs == [] || ((forall j :: j in jobs[1..] ==> j.tenant != jobs[0].tenant) && Distinct(jobs[1..]))
  }

  /** The tenant of `j`, with its settings, dooms the row. */
  ghost predicate DoomedBy(db: Rows, now: real, j: Job, r: Row) {
    CutoffsOf(now, j.settings).Some? && Doomed(db, j.tenant, CutoffsOf(now, j.settings).value, r)
  }

  /** Some tenant logged as done dooms the row. */
  ghost predicate Lost(db: Rows, now: real, jobs: seq<Job>, done: seq<Company>, r: Row) {
    exists j :: j in jobs && j.tenant in done && DoomedBy(db, now, j, r)
  }

  /** Rows of `d` are rows of `db`, or audit rows written since. */
  ghost predicate Descends(d: Rows, db: Rows) {
    forall i :: i in d ==> (i in db && d[i] == db[i]) || d[i].AuditLog?
  }

  /** What a purge would take does not depend on what earlier purges took. */
  lemma DoomIsStable(db: Rows, d: Rows, t: Company, c: Cutoffs, i: nat)
    requires Resolved(db) && Resolved(d) && Descends(d, db) && i in d && i in db && d[i] == db[i]
    ensures Doomed(d, t, c, d[i]) <==> Doomed(db, t, c, db[i])
  {
    assert Resolves(d, d[i]) && Resolves(db, db[i]);
    if InConversation(d[i]) {
      assert Resolves(d, d[d[i].conversation]) && Resolves(db, db[db[i].conversation]);
    }
  }

  /** One tenant's transaction: exactly the doomed rows go, one audit row comes, and no link
      breaks. */
  lemma PurgeTenantEffect(db: Rows, t: Company, c: Cutoffs, luck: Luck)
    requires Resolved(db) && PurgeTenant(db, t, c, luck).Some?
    ensures luck.Fine? && luck.auditId !in Survivors(db, t, c)
    ensures PurgeTenant(db, t, c, luck).value == Survivors(db, t, c)[luck.auditId := Audit(t)]
    ensures Resolved(PurgeTenant(db, t, c, luck).value) && Descends(PurgeTenant(db, t, c, luck).value, db)
  {
    PurgeIsExact(db, t, c);
    PurgeKeepsLinks(db, t, c);
    var d, d' := Survivors(db, t, c), Survivors(db, t, c)[luck.auditId := Audit(t)];
    forall i | i in d'
      ensures Resolves(d', d'[i])
    {
      assert i in d ==> Resolves(d, d[i]);
    }
  }

  lemma NothingDoomedIsLeft(db: Rows, t: Company, c: Cutoffs, luck: Luck, i: nat)
    requires Resolved(db) && PurgeTenant(db, t, c, luck).Some? && i in PurgeTenant(db, t, c, luck).value
    ensures var d := PurgeTenant(db, t, c, luck).value; !Doomed(d, t, c, d[i])
  {
    PurgeTenantEffect(db, t, c, luck);
    var d := PurgeTenant(db, t, c, luck).value;
    if i != luck.auditId {
      DoomIsStable(db, d, t, c, i);
    }
  }

  lemma {:induction false} DoneAreTenants(db: Rows, now: real, jobs: seq<Job>, t: Company)
    requires forall j :: j in jobs ==> j.tenant != t
    ensures t !in Sweep(db, now, jobs).done && t !in Sweep(db, now, jobs).failed
    decreases |jobs|
  {
    if jobs != [] && CutoffsOf(now, jobs[0].settings).Some? {
      var c := CutoffsOf(now, jobs[0].settings).value;
      var next := PurgeTenant(db, jobs[0].tenant, c, jobs[0].luck);
      DoneAreTenants(if next.Some? then next.value else db, now, jobs[1..], t);
    }
  }

  /** What the first job of a sweep leaves to the others. */
  ghost function Next(db: Rows, now: real, j: Job): Rows
    requires !BadSettings(now, j)
  {
    var d := PurgeTenant(db, j.tenant, CutoffsOf(now, j.settings).value, j.luck);
    if d.Some? then d.value else db
  }

  ghost predicate Succeeds(db: Rows, now: real, j: Job)
    requires !BadSettings(now, j)
  {
    PurgeTenant(db, j.tenant, CutoffsOf(now, j.settings).value, j.luck).Some?
  }

  lemma NextDescends(db: Rows, now: real, j: Job)
    requires Resolved(db) && !BadSettings(now, j)
    ensures Resolved(Next(db, now, j)) && Descends(Next(db, now, j), db)
  {
    if Succeeds(db, now, j) {
      PurgeTenantEffect(db, j.tenant, CutoffsOf(now, j.settings).value, j.luck);
    }
  }

  lemma SweepUnfolds(db: Rows, now: real, jobs: seq<Job>)
    requires jobs != [] && !BadSettings(now, jobs[0])
    ensures var r, rest := Sweep(db, now, jobs), Sweep(Next(db, now, jobs[0]), now, jobs[1..]);
            && r.db == rest.db && r.raised == rest.raised
            && r.done == (if Succeeds(db, now, jobs[0]) then [jobs[0].tenant] else []) + rest.done
            && r.failed == (if Succeeds(db, now, jobs[0]) then [] else [jobs[0].tenant]) + rest.failed
  {
  }

  /** A sweep breaks no link and adds nothing but audit rows. */
  lemma {:induction false} SweepDescends(db: Rows, now: real, jobs: seq<Job>)
    requires Resolved(db)
    ensures Resolved(Sweep(db, now, jobs).db) && Descends(Sweep(db, now, jobs).db, db)
    decreases |jobs|
  {
    if jobs != [] && !BadSettings(now, jobs[0]) {
      NextDescends(db, now, jobs[0]);
      SweepDescends(Next(db, now, jobs[0]), now, jobs[1..]);
      SweepUnfolds(db, now, jobs);
    }
  }

  ghost predicate Kept(db: Rows, after: Rows, i: nat)
    requires i in db
  {
    i in after && after[i] == db[i]
  }

  lemma FirstOrLater(db: Rows, d: Rows, now: real, jobs: seq<Job>, first: seq<Company>, done: seq<Company>, i: nat)
    requires jobs != [] && Distinct(jobs) && i in db && i in d && d[i] == db[i]
    requires Resolved(db) && Resolved(d) && Descends(d, db)
    requires first == [jobs[0].tenant] || first == []
    requires jobs[0].tenant !in done
    ensures Lost(db, now, jobs, first + done, db[i]) <==>
            (first != [] && DoomedBy(db, now, jobs[0], db[i])) || Lost(d, now, jobs[1..], done, d[i])
  {
    assert forall j :: j in jobs <==> j == jobs[0] || j in jobs[1..];
    assert forall t :: t in first + done <==> t in first || t in done;
    forall j | j in jobs
      ensures DoomedBy(db, now, j, db[i]) <==> DoomedBy(d, now, j, d[i])
    {
      if CutoffsOf(now, j.settings).Some? {
        DoomIsStable(db, d, j.tenant, CutoffsOf(now, j.settings).value, i);
      }
    }
  }

  lemma FirstTakes(db: Rows, now: real, j: Job, i: nat)
    requires Resolved(db) && !BadSettings(now, j) && i in db
    ensures Kept(db, Next(db, now, j), i) <==> !(Succeeds(db, now, j) && DoomedBy(db, now, j, db[i]))
  {
    if Succeeds(db, now, j) {
      PurgeTenantEffect(db, j.tenant, CutoffsOf(now, j.settings).value, j.luck);
    }
  }

  /** Over a whole sweep, whatever its tenants' settings and failures and whoever's rows
      hang on whose: a row is lost if and only if some completed tenant dooms it. */
  lemma {:induction false} KeptOrDoomed(db: Rows, now: real, jobs: seq<Job>, i: nat)
    requires Resolved(db) && Distinct(jobs) && i in db
    ensures Kept(db, Sweep(db, now, jobs).db, i) <==> !Lost(db, now, jobs, Sweep(db, now, jobs).done, db[i])
    decreases |jobs|
  {
    if jobs != [] && !BadSettings(now, jobs[0]) {
      var d := Next(db, now, jobs[0]);
      var rest := Sweep(d, now, jobs[1..]);
      var first := if Succeeds(db, now, jobs[0]) then [jobs[0].tenant] else [];
      SweepUnfolds(db, now, jobs);
      NextDescends(db, now, jobs[0]);
      FirstTakes(db, now, jobs[0], i);
      DoneAreTenants(d, now, jobs[1..], jobs[0].tenant);
      if Kept(db, d, i) {
        KeptOrDoomed(d, now, jobs[1..], i);
        FirstOrLater(db, d, now, jobs, first, rest.done, i);
      } else {
        SweepDescends(d, now, jobs[1..]);
        assert jobs[0] in jobs && jobs[0].tenant in first + rest.done;
        assert !db[i].AuditLog?;
      }
    }
  }

  // ---------- Who is reached ----------

  /** Computing this tenant's cutoffs raises. */
  predicate BadSettings(now: real, j: Job) {
    CutoffsOf(now, j.settings).None?
  }

  /** The sweep raises if and only if some tenant's settings do not give cutoffs, and it
      logs every tenant if and only if it does not raise. */
  lemma {:induction false} RaisesIffBadSettings(db: Rows, now: real, jobs: seq<Job>)
    ensures var r := Sweep(db, now, jobs);
            && (r.raised <==> exists j :: j in jobs && BadSettings(now, j))
            && |r.done| + |r.failed| <= |jobs|
            && (|r.done| + |r.failed| == |jobs| <==> !r.raised)
    decreases |jobs|
  {
    if jobs != [] {
      if BadSettings(now, jobs[0]) {
        assert jobs[0] in jobs;
      } else {
        RaisesIffBadSettings(Next(db, now, jobs[0]), now, jobs[1..]);
        SweepUnfolds(db, now, jobs);
        assert forall j :: j in jobs <==> j == jobs[0] || j in jobs[1..];
      }
    }
  }

  /** Settings are read outside the per-tenant `try`: a tenant is logged, as done or as
      failed, if and only if its settings and those of all tenants listed before it give
      cutoffs. One bad setting keeps the sweep from everybody listed after it. */
  lemma {:induction false} LoggedIffSettingsGood(db: Rows, now: real, jobs: seq<Job>, m: nat)
    requires Distinct(jobs) && m < |jobs|
    ensures jobs[m].tenant in Sweep(db, now, jobs).done || jobs[m].tenant in Sweep(db, now, jobs).failed <==>
            forall k :: 0 <= k <= m ==> !BadSettings(now, jobs[k])
    decreases |jobs|
  {
    if !BadSettings(now, jobs[0]) {
      SweepUnfolds(db, now, jobs);
      if m > 0 {
        var rest := jobs[1..];
        assert jobs[m] in rest;
        LoggedIffSettingsGood(Next(db, now, jobs[0]), now, rest, m - 1);
        assert forall k :: 1 <= k <= m ==> jobs[k] == rest[k - 1];
        assert (forall k :: 0 <= k <= m - 1 ==> !BadSettings(now, rest[k])) <==>
               (forall k :: 1 <= k <= m ==> !BadSettings(now, jobs[k])) by {
          assert forall k :: 0 <= k <= m - 1 ==> rest[k] == jobs[k + 1];
        }
      }
    }
  }

  /** The days a setting asks for reach back to a datetime. */
  ghost predicate Datable(now: real, j: Json, default: int) {
    exists days :: AsksFor(j, default, days) && 0.0 <= now - days as real < LAST_DAY
  }

  lemma CutoffIffDatable(now: real, j: Json, default: int)
    ensures Cutoff(now, Days(j, default)).Some? <==> Datable(now, j, default)
  {
    if Days(j, default).Some? {
      assert AsksFor(j, default, Days(j, default).value);
    }
  }

  /** Settings are bad if and only if one of the three values names no number, or more days
      (or days ahead) than there are datetimes for. */
  lemma BadSettingsIff(now: real, j: Job)
    ensures BadSettings(now, j) <==>
            !(Datable(now, j.settings.contactDays, 365) && Datable(now, j.settings.conversationDays, 365)
              && Datable(now, j.settings.aiDays, 90))
  {
    CutoffIffDatable(now, j.settings.contactDays, 365);
    CutoffIffDatable(now, j.settings.conversationDays, 365);
    CutoffIffDatable(now, j.settings.aiDays, 90);
  }

  /** The keys of the audit rows are new. */
  ghost predicate NewAuditKeys(db: Rows, jobs: seq<Job>) {
    && (forall j :: j in jobs && j.luck.Fine? ==> j.luck.auditId !in db)
    && forall k, m :: 0 <= k < m < |jobs| && jobs[k].luck.Fine? && jobs[m].luck.Fine? ==>
         jobs[k].luck.auditId != jobs[m].luck.auditId
  }

  lemma NewKeysRest(db: Rows, now: real, jobs: seq<Job>)
    requires Resolved(db) && jobs != [] && !BadSettings(now, jobs[0]) && NewAuditKeys(db, jobs)
    ensures Succeeds(db, now, jobs[0]) <==> jobs[0].luck.Fine?
    ensures NewAuditKeys(Next(db, now, jobs[0]), jobs[1..])
  {
    var c := CutoffsOf(now, jobs[0].settings).value;
    PurgeIsExact(db, jobs[0].tenant, c);
    var d := Next(db, now, jobs[0]);
    assert jobs[0] in jobs;
    forall k | 0 <= k < |jobs[1..]| && jobs[1..][k].luck.Fine?
      ensures jobs[1..][k].luck.auditId !in d
    {
      assert jobs[1..][k] == jobs[k + 1] && jobs[k + 1] in jobs;
    }
  }

  /** With new audit keys a tenant is completed if and only if it is reached and its own
      transaction meets no trouble. */
  lemma {:induction false} CompletedIff(db: Rows, now: real, jobs: seq<Job>, m: nat)
    requires Resolved(db) && Distinct(jobs) && NewAuditKeys(db, jobs) && m < |jobs|
    ensures jobs[m].tenant in Sweep(db, now, jobs).done <==>
            jobs[m].luck.Fine? && forall k :: 0 <= k <= m ==> !BadSettings(now, jobs[k])
    decreases |jobs|
  {
    if !BadSettings(now, jobs[0]) {
      SweepUnfolds(db, now, jobs);
      NewKeysRest(db, now, jobs);
      var d, rest := Next(db, now, jobs[0]), jobs[1..];
      DoneAreTenants(d, now, rest, jobs[0].tenant);
      if m > 0 {
        NextDescends(db, now, jobs[0]);
        assert rest[m - 1] == jobs[m] && jobs[m] in rest;
        CompletedIff(d, now, rest, m - 1);
        assert forall k :: 1 <= k <= m ==> jobs[k] == rest[k - 1];
        assert forall k :: 0 <= k <= m - 1 ==> rest[k] == jobs[k + 1];
      }
    }
  }

  /** Such settings exist: a text that is no number, or more days than there have been. */
  lemma BadSettingsExist(now: real, t: Company, luck: Luck)
    requires 0.0 <= now < LAST_DAY
    ensures BadSettings(now, Job(t, Settings(Value(true, None), Missing, Missing), luck))
    ensures BadSettings(now, Job(t, Settings(Missing, Value(true, Some(3652059)), Missing), luck))
    ensures !BadSettings(now, Job(t, Settings(Value(false, None), Missing, Missing), luck)) <==> now >= 365.0
  {
  }

  // ---------- The whole database after a sweep ----------

  /** The audit row of a completed tenant. */
  ghost predicate Audited(after: Rows, jobs: seq<Job>, done: seq<Company>, i: nat) {
    exists j :: j in jobs && j.tenant in done && j.luck == Fine(i)
                && i in after && after[i] == AuditLog(j.tenant, "retention.purge")
  }

  lemma AuditsStay(db: Rows, now: real, jobs: seq<Job>, i: nat)
    requires Resolved(db) && Distinct(jobs) && i in db && db[i].AuditLog?
    ensures Kept(db, Sweep(db, now, jobs).db, i)
  {
    KeptOrDoomed(db, now, jobs, i);
  }

  /** Every completed tenant has its audit row. */
  lemma {:induction false} AuditsAreWritten(db: Rows, now: real, jobs: seq<Job>, j: Job)
    requires Resolved(db) && Distinct(jobs) && j in jobs && j.tenant in Sweep(db, now, jobs).done
    ensures j.luck.Fine? && Audited(Sweep(db, now, jobs).db, jobs, Sweep(db, now, jobs).done, j.luck.auditId)
    decreases |jobs|
  {
    var d := Next(db, now, jobs[0]);
    var rest := Sweep(d, now, jobs[1..]);
    SweepUnfolds(db, now, jobs);
    NextDescends(db, now, jobs[0]);
    DoneAreTenants(d, now, jobs[1..], jobs[0].tenant);
    if j == jobs[0] {
      PurgeTenantEffect(db, j.tenant, CutoffsOf(now, j.settings).value, j.luck);
      AuditsStay(d, now, jobs[1..], j.luck.auditId);
    } else {
      AuditsAreWritten(d, now, jobs[1..], j);
      AuditedLater(rest.db, jobs, rest.done, Sweep(db, now, jobs).done, j.luck.auditId);
    }
  }

  lemma AuditedLater(after: Rows, jobs: seq<Job>, done: seq<Company>, all: seq<Company>, i: nat)
    requires jobs != [] && Audited(after, jobs[1..], done, i) && forall t :: t in done ==> t in all
    ensures Audited(after, jobs, all, i)
  {
    var j :| j in jobs[1..] && j.tenant in done && j.luck == Fine(i) && i in after && after[i] == Audit(j.tenant);
    assert j in jobs;
  }

  /** Nothing but those audit rows is new. */
  lemma {:induction false} NothingElseIsNew(db: Rows, now: real, jobs: seq<Job>, i: nat)
    requires Resolved(db) && Distinct(jobs) && i in Sweep(db, now, jobs).db
    ensures (i in db && Kept(db, Sweep(db, now, jobs).db, i))
            || Audited(Sweep(db, now, jobs).db, jobs, Sweep(db, now, jobs).done, i)
    decreases |jobs|
  {
    if jobs != [] && !BadSettings(now, jobs[0]) {
      var d := Next(db, now, jobs[0]);
      var rest := Sweep(d, now, jobs[1..]);
      SweepUnfolds(db, now, jobs);
      NextDescends(db, now, jobs[0]);
      NothingElseIsNew(d, now, jobs[1..], i);
      if Audited(rest.db, jobs[1..], rest.done, i) {
        AuditedLater(rest.db, jobs, rest.done, Sweep(db, now, jobs).done, i);
      } else if Succeeds(db, now, jobs[0]) {
        PurgeTenantEffect(db, jobs[0].tenant, CutoffsOf(now, jobs[0].settings).value, jobs[0].luck);
        assert jobs[0] in jobs;
      }
    }
  }

  /** The database after a sweep, row by row: the old rows that no completed tenant dooms,
      unchanged, and the audit rows of the completed tenants. */
  lemma SweepIsExact(db: Rows, now: real, jobs: seq<Job>, i: nat)
    requires Resolved(db) && Distinct(jobs)
    ensures var r := Sweep(db, now, jobs);
            && (i in r.db <==> (i in db && !Lost(db, now, jobs, r.done, db[i])) || Audited(r.db, jobs, r.done, i))
            && (i in db && !Lost(db, now, jobs, r.done, db[i]) ==> r.db[i] == db[i])
  {
    if i in db {
      KeptOrDoomed(db, now, jobs, i);
    }
    if i in Sweep(db, now, jobs).db {
      NothingElseIsNew(db, now, jobs, i);
    }
  }

  // ---------- What the documentation promises ----------

  lemma LostWithConversation(db: Rows, now: real, jobs: seq<Job>, done: seq<Company>, i: nat)
    requires Resolved(db) && i in db && (db[i].Message? || db[i].RoutingDecision?)
    ensures db[i].conversation in db
    ensures Lost(db, now, jobs, done, db[i]) <==> Lost(db, now, jobs, done, db[db[i].conversation])
  {
    assert Resolves(db, db[i]);
    forall j
      ensures DoomedBy(db, now, j, db[i]) <==> DoomedBy(db, now, j, db[db[i].conversation])
    {
    }
  }

  /** Whatever the settings: live contacts, audit logs, payments and all rows of tables the
      sweep does not know stay, and a message stays exactly as long as its conversation. */
  lemma WhatIsKept(db: Rows, now: real, jobs: seq<Job>, i: nat)
    requires Resolved(db) && Distinct(jobs) && i in db
    ensures var after := Sweep(db, now, jobs).db;
            && (db[i].Contact? && db[i].deletedAt.None? ==> Kept(db, after, i))
            && (db[i].AuditLog? || db[i].LandingPage? || db[i].Other? ==> Kept(db, after, i))
            && (db[i].Message? || db[i].RoutingDecision? ==>
                  && db[i].conversation in db
                  && (Kept(db, after, i) <==> Kept(db, after, db[i].conversation)))
  {
    KeptOrDoomed(db, now, jobs, i);
    if db[i].Message? || db[i].RoutingDecision? {
      LostWithConversation(db, now, jobs, Sweep(db, now, jobs).done, i);
      KeptOrDoomed(db, now, jobs, db[i].conversation);
    }
  }

  /** The days a settings value stands for: those it names, or the default when it is missing
      or falsy; none when it names no number. */
  ghost predicate AsksFor(j: Json, default: int, days: int) {
    if j == Missing || !j.truthy then days == default else j.asInt == Some(days)
  }

  /** More days have passed since than the setting allows. */
  ghost predicate Expired(now: real, since: Option<real>, j: Json, default: int) {
    since.Some? && exists days :: AsksFor(j, default, days) && now - since.value > days as real
  }

  lemma CutoffMeansDays(now: real, since: Option<real>, j: Json, default: int)
    requires Cutoff(now, Days(j, default)).Some?
    ensures since.Some? && since.value < Cutoff(now, Days(j, default)).value <==> Expired(now, since, j, default)
  {
    assert AsksFor(j, default, Days(j, default).value);
  }

  lemma CutoffsMeanDays(now: real, s: Settings, since: Option<real>)
    requires CutoffsOf(now, s).Some?
    ensures var c := CutoffsOf(now, s).value;
            && (since.Some? && since.value < c.contact <==> Expired(now, since, s.contactDays, 365))
            && (since.Some? && since.value < c.conversation <==> Expired(now, since, s.conversationDays, 365))
            && (since.Some? && since.value < c.ai <==> Expired(now, since, s.aiDays, 90))
  {
    CutoffMeansDays(now, since, s.contactDays, 365);
    CutoffMeansDays(now, since, s.conversationDays, 365);
    CutoffMeansDays(now, since, s.aiDays, 90);
  }

  lemma {:induction false} OneJobEach(jobs: seq<Job>, j: Job, k: Job)
    requires Distinct(jobs) && j in jobs && k in jobs && j.tenant == k.tenant
    ensures j == k
    decreases |jobs|
  {
    if j in jobs[1..] && k in jobs[1..] {
      OneJobEach(jobs[1..], j, k);
    }
  }

  /** The row's own tenant dooms it for its own age. */
  ghost predicate TooOld(now: real, j: Job, r: Row) {
    match r
    case Contact(_, deletedAt) => Expired(now, deletedAt, j.settings.contactDays, 365)
    case Conversation(_, _, status, last) => status == "closed" && Expired(now, last, j.settings.conversationDays, 365)
    case AiContext(_, _, updatedAt) => Expired(now, Some(updatedAt), j.settings.aiDays, 90)
    case _ => false
  }

  lemma DoomedWithParentOrOld(db: Rows, now: real, j: Job, i: nat)
    requires Resolved(db) && i in db && CutoffsOf(now, j.settings).Some?
    ensures Parent(db[i]).Some? ==> Parent(db[i]).value in db
    ensures DoomedBy(db, now, j, db[i]) <==>
            (Parent(db[i]).Some? && DoomedBy(db, now, j, db[Parent(db[i]).value]))
            || (db[i].company == j.tenant && TooOld(now, j, db[i]))
  {
    var r := db[i];
    assert Resolves(db, r);
    if r.Contact? {
      CutoffsMeanDays(now, j.settings, r.deletedAt);
    } else if r.Conversation? {
      CutoffsMeanDays(now, j.settings, r.lastMessageAt);
    } else if r.AiContext? {
      CutoffsMeanDays(now, j.settings, Some(r.updatedAt));
    }
  }

  /** The advertised rules, row by row: a row goes if and only if the row it hangs on goes,
      or its own tenant is completed and finds it too old: a contact deleted more than the
      tenant's days ago, a closed conversation silent for longer than its days, an AI
      context older than its days. */
  lemma RetentionRules(db: Rows, now: real, jobs: seq<Job>, j: Job, i: nat)
    requires Resolved(db) && Distinct(jobs) && j in jobs && i in db && db[i].company == j.tenant
    ensures Parent(db[i]).Some? ==> Parent(db[i]).value in db
    ensures var r := Sweep(db, now, jobs);
            Kept(db, r.db, i) <==>
            (Parent(db[i]).Some? ==> Kept(db, r.db, Parent(db[i]).value))
            && !(j.tenant in r.done && TooOld(now, j, db[i]))
  {
    var r := Sweep(db, now, jobs);
    assert Resolves(db, db[i]);
    KeptOrDoomed(db, now, jobs, i);
    if Parent(db[i]).Some? {
      KeptOrDoomed(db, now, jobs, Parent(db[i]).value);
    }
    if j.tenant in r.done {
      DoneHasCutoffs(db, now, jobs, j);
    }
    forall k | k in jobs && k.tenant in r.done
      ensures CutoffsOf(now, k.settings).Some?
      ensures DoomedBy(db, now, k, db[i]) <==>
              (Parent(db[i]).Some? && DoomedBy(db, now, k, db[Parent(db[i]).value]))
              || (db[i].company == k.tenant && TooOld(now, k, db[i]))
      ensures k.tenant == j.tenant ==> k == j
    {
      DoneHasCutoffs(db, now, jobs, k);
      DoomedWithParentOrOld(db, now, k, i);
      if k.tenant == j.tenant {
        OneJobEach(jobs, j, k);
      }
    }
  }

  lemma {:induction false} DoneHasCutoffs(db: Rows, now: real, jobs: seq<Job>, j: Job)
    requires Distinct(jobs) && j in jobs && j.tenant in Sweep(db, now, jobs).done
    ensures !BadSettings(now, j)
    decreases |jobs|
  {
    SweepUnfolds(db, now, jobs);
    if j != jobs[0] {
      DoneHasCutoffs(Next(db, now, jobs[0]), now, jobs[1..], j);
    }
  }

  // ---------- Tenants that are not completed ----------

  lemma LostWithParent(db: Rows, now: real, jobs: seq<Job>, done: seq<Company>, i: nat)
    requires Resolved(db) && i in db && db[i].company !in done
    ensures Parent(db[i]).Some? ==> Parent(db[i]).value in db
    ensures Lost(db, now, jobs, done, db[i]) <==>
            Parent(db[i]).Some? && Lost(db, now, jobs, done, db[Parent(db[i]).value])
  {
    assert Resolves(db, db[i]);
    forall k | k in jobs && k.tenant in done
      ensures DoomedBy(db, now, k, db[i]) <==>
              Parent(db[i]).Some? && DoomedBy(db, now, k, db[Parent(db[i]).value])
    {
      if CutoffsOf(now, k.settings).Some? {
        ForeignDoom(db, k.tenant, CutoffsOf(now, k.settings).value, i);
      }
    }
  }

  /** A tenant that failed or was not reached keeps all its rows if and only if none of
      them hangs on a row that a completed tenant dooms. */
  lemma OthersAreUntouched(db: Rows, now: real, jobs: seq<Job>, t: Company)
    requires Resolved(db) && Distinct(jobs) && t !in Sweep(db, now, jobs).done
    ensures var r := Sweep(db, now, jobs);
            Own(r.db, t) == Own(db, t) <==>
            forall i :: i in db && db[i].company == t && Parent(db[i]).Some? && Parent(db[i]).value in db ==>
              !Lost(db, now, jobs, r.done, db[Parent(db[i]).value])
  {
    var r := Sweep(db, now, jobs);
    forall i | i in db && db[i].company == t
      ensures Parent(db[i]).Some? ==> Parent(db[i]).value in db
      ensures Kept(db, r.db, i) <==>
              !(Parent(db[i]).Some? && Lost(db, now, jobs, r.done, db[Parent(db[i]).value]))
      ensures Own(r.db, t) == Own(db, t) ==> Kept(db, r.db, i)
    {
      KeptOrDoomed(db, now, jobs, i);
      LostWithParent(db, now, jobs, r.done, i);
      assert i in Own(db, t);
      assert Own(r.db, t) == Own(db, t) ==> i in Own(r.db, t) && Own(r.db, t)[i] == Own(db, t)[i];
    }
    forall i | i in r.db && r.db[i].company == t
      ensures i in db && Kept(db, r.db, i)
    {
      NothingElseIsNew(db, now, jobs, i);
    }
    assert (forall i :: i in db && db[i].company == t ==> Kept(db, r.db, i)) ==> Own(r.db, t) == Own(db, t);
  }

  /** Where foreign keys stay inside companies, a row is lost if and only if its own tenant
      is completed and dooms it. */
  lemma TenantsAreSeparate(db: Rows, now: real, jobs: seq<Job>, i: nat)
    requires Resolved(db) && SameCompany(db) && Distinct(jobs) && i in db
    ensures var r := Sweep(db, now, jobs);
            Kept(db, r.db, i) <==>
            !(db[i].company in r.done &&
              exists j :: j in jobs && j.tenant == db[i].company && DoomedBy(db, now, j, db[i]))
  {
    var r := Sweep(db, now, jobs);
    KeptOrDoomed(db, now, jobs, i);
    forall j | j in jobs && DoomedBy(db, now, j, db[i])
      ensures j.tenant == db[i].company
    {
      OwnDoom(db, j.tenant, CutoffsOf(now, j.settings).value, i);
    }
  }

  // ---------- A second sweep ----------

  lemma CompletedIsClean(db: Rows, now: real, jobs: seq<Job>, j: Job, i: nat)
    requires Resolved(db) && Distinct(jobs) && j in jobs && j.tenant in Sweep(db, now, jobs).done
    requires i in Sweep(db, now, jobs).db
    ensures !DoomedBy(Sweep(db, now, jobs).db, now, j, Sweep(db, now, jobs).db[i])
  {
    var d := Sweep(db, now, jobs).db;
    SweepDescends(db, now, jobs);
    if i in db && d[i] == db[i] && CutoffsOf(now, j.settings).Some? {
      KeptOrDoomed(db, now, jobs, i);
      DoomIsStable(db, d, j.tenant, CutoffsOf(now, j.settings).value, i);
    }
  }

  ghost predicate SameSettings(jobs: seq<Job>, again: seq<Job>) {
    |jobs| == |again| && forall k :: 0 <= k < |jobs| ==>
      again[k].tenant == jobs[k].tenant && again[k].settings == jobs[k].settings
  }

  /** A second sweep at the same time under the same settings takes exactly what tenants
      doom that the first one did not complete: nothing at all when it completed all. */
  lemma SecondSweepIsIdle(db: Rows, now: real, jobs: seq<Job>, again: seq<Job>, i: nat)
    requires Resolved(db) && Distinct(jobs) && Distinct(again) && SameSettings(jobs, again)
    requires i in Sweep(db, now, jobs).db
    ensures var r := Sweep(db, now, jobs);
            var r2 := Sweep(r.db, now, again);
            Kept(r.db, r2.db, i) <==>
            !exists j :: j in again && j.tenant in r2.done && j.tenant !in r.done && DoomedBy(r.db, now, j, r.db[i])
    ensures var r := Sweep(db, now, jobs);
            !r.raised && r.failed == [] ==> Kept(r.db, Sweep(r.db, now, again).db, i)
  {
    var r := Sweep(db, now, jobs);
    SweepDescends(db, now, jobs);
    KeptOrDoomed(r.db, now, again, i);
    forall j | j in again
      ensures j.tenant in r.done ==> !DoomedBy(r.db, now, j, r.db[i])
      ensures !r.raised && r.failed == [] ==> j.tenant in r.done
    {
      var k :| 0 <= k < |again| && again[k] == j;
      RaisesIffBadSettings(db, now, jobs);
      LoggedIffSettingsGood(db, now, jobs, k);
      if j.tenant in r.done {
        CompletedIsClean(db, now, jobs, jobs[k], i);
      }
    }
  }

  /** Where foreign keys stay inside companies, it takes nothing more from a tenant the
      first one completed. */
  lemma CompletedTenantsRest(db: Rows, now: real, jobs: seq<Job>, again: seq<Job>, i: nat)
    requires Resolved(db) && SameCompany(db) && Distinct(jobs) && Distinct(again) && SameSettings(jobs, again)
    requires var r := Sweep(db, now, jobs); i in r.db && r.db[i].company in r.done
    ensures Kept(Sweep(db, now, jobs).db, Sweep(Sweep(db, now, jobs).db, now, again).db, i)
  {
    var r := Sweep(db, now, jobs);
    SweepDescends(db, now, jobs);
    SecondSweepIsIdle(db, now, jobs, again, i);
    assert SameCompany(r.db);
    forall j | j in again && DoomedBy(r.db, now, j, r.db[i])
      ensures j.tenant == r.db[i].company
    {
      OwnDoom(r.db, j.tenant, CutoffsOf(now, j.settings).value, i);
    }
  }

  // ---------- The task ----------

  /** Deletes with the cascades of the schema. */
  method DeleteCascading(session: Session, f: Filter)
    requires session.open
    modifies session`work
    ensures session.work == DeleteCascade(old(session.work), Reached(old(session.work), session.setting, f))
  {
    session.work := DeleteCascade(session.work, Reached(session.work, session.setting, f));
  }

  /** The body of one tenant's transaction; `false` when it raised. */
  method PurgeInside(session: Session, t: Company, c: Cutoffs, luck: Luck) returns (ok: bool)
    requires session.open && session.setting == Tenant(t)
    modifies session`work
    ensures ok <==> PurgeTenant(old(session.work), t, c, luck).Some?
    ensures ok ==> session.work == PurgeTenant(old(session.work), t, c, luck).value
  {
    var s := session.setting;
    if luck == Trouble(0) {
      return false;
    }
    DeleteCascading(session, OldContacts(c));
    if luck == Trouble(1) {
      return false;
    }
    ghost var d1 := session.work;
    var found := session.Run(Select((i, r) => OldConversation(c, r)));
    var ids := found.rows.Keys;
    assert ids == SelectConversations(d1, s, c);
    if ids != {} {
      var messages := session.Run(Delete(MessagesOf(ids)));
      if luck == Trouble(2) {
        return false;
      }
      DeleteCascading(session, ConversationsIn(ids));
    } else {
      NothingToDelete(d1, s);
    }
    if luck == Trouble(3) {
      return false;
    }
    var contexts := session.Run(Delete(OldAiContexts(c)));
    if luck.Trouble? {
      return false;
    }
    var inserted := session.Run(Insert(luck.auditId, Audit(t)));
    ok := !IsError(inserted);
  }

  lemma NothingToDelete(db: Rows, s: Setting)
    ensures DeleteConversations(DeleteMessages(db, s, {}), s, {}) == db
  {
  }

  /** One tenant: `async with tenant_session(...)` inside `try`. */
  method PurgeOne(session: Session, t: Company, c: Cutoffs, luck: Luck) returns (ok: bool)
    requires !session.open
    modifies session
    ensures !session.open && !session.setting.Tenant?
    ensures ok <==> PurgeTenant(old(session.stored), t, c, luck).Some?
    ensures session.stored == if ok then PurgeTenant(old(session.stored), t, c, luck).value else old(session.stored)
  {
    session.Begin(t);
    ok := PurgeInside(session, t, c, luck);
    if ok {
      session.Commit();
    } else {
      session.Rollback();
    }
  }

  function After(done: seq<Company>, failed: seq<Company>, r: Outcome): Outcome {
    r.(done := done + r.done, failed := failed + r.failed)
  }

  /** One turn of the loop, on the outcome of the jobs from the `i`-th on. */
  lemma SweepTurn(db: Rows, now: real, jobs: seq<Job>, i: nat, done: seq<Company>, failed: seq<Company>)
    requires i < |jobs| && CutoffsOf(now, jobs[i].settings).Some?
    ensures var t := jobs[i].tenant;
            var d := PurgeTenant(db, t, CutoffsOf(now, jobs[i].settings).value, jobs[i].luck);
            After(done, failed, Sweep(db, now, jobs[i..])) ==
            if d.Some? then After(done + [t], failed, Sweep(d.value, now, jobs[i + 1..]))
            else After(done, failed + [t], Sweep(db, now, jobs[i + 1..]))
  {
    var t := jobs[i].tenant;
    assert jobs[i..][0] == jobs[i] && jobs[i..][1..] == jobs[i + 1..];
    var d := PurgeTenant(db, t, CutoffsOf(now, jobs[i].settings).value, jobs[i].luck);
    var r := Sweep(if d.Some? then d.value else db, now, jobs[i + 1..]);
    assert done + ([t] + r.done) == (done + [t]) + r.done;
    assert failed + ([t] + r.failed) == (failed + [t]) + r.failed;
  }

  /** `_purge_retention`: the totals of processed and failed tenants are the lengths of
      the two lists. */
  method PurgeRetention(session: Session, now: real, jobs: seq<Job>)
    returns (done: seq<Company>, failed: seq<Company>, raised: bool)
    requires !session.open
    modifies session
    ensures !session.open
    ensures Outcome(session.stored, done, failed, raised) == Sweep(old(session.stored), now, jobs)
  {
    done, failed, raised := [], [], false;
    for i := 0 to |jobs|
      invariant !session.open
      invariant After(done, failed, Sweep(session.stored, now, jobs[i..])) == Sweep(old(session.stored), now, jobs)
    {
      var t := jobs[i].tenant;
      var cutoffs := CutoffsOf(now, jobs[i].settings);
      if cutoffs.None? {
        raised := true;
        return;
      }
      SweepTurn(session.stored, now, jobs, i, done, failed);
      var ok := PurgeOne(session, t, cutoffs.value, jobs[i].luck);
      if ok {
        done := done + [t];
      } else {
        failed := failed + [t];
      }
    }
  }
}
