/** Row-level security: the policy catalogue the two migrations install, the
    per-transaction tenant setting, and what one tenant's session can see or change. */
module Tenancy {
  import opened Wrappers

  // ---------- Rows ----------

  type Company = nat

  /** The rows of the tenant tables. */
  datatype Row =
    | Contact(company: Company, deletedAt: Option<real>)
    | Conversation(company: Company, contact: nat, status: string, lastMessageAt: Option<real>)
    | Message(company: Company, conversation: nat, content: string)
    | AiContext(company: Company, conversation: nat, updatedAt: real)
    | RoutingDecision(company: Company, conversation: nat)
    | LandingPage(company: Company, status: string, content: string)
    | AuditLog(company: Company, action: string)
    | Other(table: string, company: Company, content: string)

  type Rows = map<nat, Row>

  function Table(r: Row): string {
    match r
    case Contact(_, _) => "contacts"
    case Conversation(_, _, _, _) => "conversations"
    case Message(_, _, _) => "messages"
    case AiContext(_, _, _) => "ai_conversation_contexts"
    case RoutingDecision(_, _) => "routing_decisions"
    case LandingPage(_, _, _) => "landing_pages"
    case AuditLog(_, _) => "audit_logs"
    case Other(table, _, _) => table
  }

  const TENANT_TABLES := [
    "ai_conversation_contexts", "api_keys", "audit_logs", "automation_logs",
    "automations", "campaigns", "channels", "chatbot_flows", "contacts",
    "conversations", "custom_fields", "deals", "glossary_terms", "invoices",
    "landing_pages", "message_templates", "messages", "payments", "pipelines",
    "product_categories", "products", "routing_decisions", "shipments",
    "shipping_providers", "subscriptions", "survey_responses", "surveys",
    "tags", "web_chat_widgets"]

  // ---------- Policies ----------

  /** `app.current_tenant`: never set, left empty by an expired SET LOCAL, or a tenant. */
  datatype Setting = NeverSet | Emptied | Tenant(id: Company)

  datatype Condition =
    | StrictTenant    // company_id = current_setting(...)::uuid
    | HardenedTenant  // company_id = NULLIF(current_setting(..., true), '')::uuid
    | IsPublished     // status = 'published'

  datatype Scope = ForAll | ForSelect | ForInsert

  datatype Policy = Policy(scope: Scope, using: Option<Condition>, check: Option<Condition>)

  /** tenant_isolation_policy, tenant_insert_policy, public_read_published */
  datatype PolicyName = TenantIsolation | TenantInsert | PublicReadPublished

  type Policies = map<PolicyName, Policy>

  /** Policies by table and name; a table without an entry has row security switched off. */
  type Catalogue = map<string, Policies>

  datatype Verdict = Granted | Refused | Raised

  function Eval(c: Condition, s: Setting, r: Row): Verdict {
    match c
    case StrictTenant => if !s.Tenant? then Raised else if s.id == r.company then Granted else Refused
    case HardenedTenant => if s.Tenant? && s.id == r.company then Granted else Refused
    case IsPublished => if r.LandingPage? && r.status == "published" then Granted else Refused
  }

  datatype Access = Read | Write | Add

  /** The condition a policy contributes to an access: USING for existing rows, WITH CHECK
      for new ones, where a policy for all commands without one falls back on USING. */
  function Contributes(p: Policy, a: Access): Option<Condition> {
    match a
    case Read => if p.scope == ForInsert then None else p.using
    case Write => if p.scope == ForAll then p.using else None
    case Add => if p.scope == ForSelect then None else if p.check.Some? then p.check else p.using
  }

  /** Some policy of the table gives this verdict on the row. */
  ghost predicate Says(ps: Policies, a: Access, s: Setting, r: Row, v: Verdict) {
    exists n :: n in ps && Contributes(ps[n], a).Some? && Eval(Contributes(ps[n], a).value, s, r) == v
  }

  /** Permissive policies are OR'ed; an error in one of them fails the statement. */
  ghost function Judge(cat: Catalogue, a: Access, s: Setting, r: Row): Verdict {
    if Table(r) !in cat then Granted
    else if Says(cat[Table(r)], a, s, r, Raised) then Raised
    else if Says(cat[Table(r)], a, s, r, Granted) then Granted else Refused
  }

  function TenantPolicies(hardened: bool): Policies {
    var c := Some(if hardened then HardenedTenant else StrictTenant);
    map[TenantIsolation := Policy(ForAll, c, None), TenantInsert := Policy(ForInsert, None, c)]
  }

  /** `enable_rls`: both tenant policies are dropped if present and created again. */
  function Enabled(cat: Catalogue, table: string, hardened: bool): Catalogue {
    cat[table := (if table in cat then cat[table] else map[]) + TenantPolicies(hardened)]
  }

  /** The loop shared by the upgrade (hardened) and the downgrade (strict). */
  method EnableAll(cat: Catalogue, tables: seq<string>, hardened: bool) returns (r: Catalogue)
    ensures forall t :: t in tables ==>
              t in r && r[t] == (if t in cat then cat[t] else map[]) + TenantPolicies(hardened)
    ensures forall t :: t !in tables ==> (t in r <==> t in cat) && (t in r ==> r[t] == cat[t])
  {
    r := cat;
    for i := 0 to |tables|
      invariant forall t :: t in tables[..i] ==>
                  t in r && r[t] == (if t in cat then cat[t] else map[]) + TenantPolicies(hardened)
      invariant forall t :: t !in tables[..i] ==> (t in r <==> t in cat) && (t in r ==> r[t] == cat[t])
    {
      var t := tables[i];
      var had := if t in r then r[t] else map[];
      assert had + TenantPolicies(hardened) == (if t in cat then cat[t] else map[]) + TenantPolicies(hardened);
      r := Enabled(r, t, hardened);
    }
    assert tables[..|tables|] == tables;
  }

  /** The second migration adds one SELECT-only policy on landing pages. */
  function WithPublicRead(cat: Catalogue): Catalogue {
    cat["landing_pages" := (if "landing_pages" in cat then cat["landing_pages"] else map[])
                           [PublicReadPublished := PUBLIC_READ]]
  }

  // ---------- What the installed policies mean ----------

  predicate IsPage(r: Row) {
    r.LandingPage? && r.status == "published"
  }

  predicate CanRead(s: Setting, r: Row) {
    s == Tenant(r.company) || IsPage(r)
  }

  predicate CanWrite(s: Setting, r: Row) {
    s == Tenant(r.company)
  }

  const PUBLIC_READ := Policy(ForSelect, Some(IsPublished), None)

  /** The policies of a tenant table once both migrations ran. */
  function HardenedPolicies(table: string): Policies {
    if table == "landing_pages" then TenantPolicies(true)[PublicReadPublished := PUBLIC_READ] else TenantPolicies(true)
  }

  ghost predicate Hardened(cat: Catalogue) {
    forall t :: t in TENANT_TABLES ==> t in cat && cat[t] == HardenedPolicies(t)
  }

  /** Both upgrades, from a database without policies, give the hardened catalogue. */
  method Migrate() returns (cat: Catalogue)
    ensures Hardened(cat)
  {
    cat := EnableAll(map[], TENANT_TABLES, true);
    assert map[] + TenantPolicies(true) == TenantPolicies(true);
    assert TENANT_TABLES[14] == "landing_pages";
    cat := WithPublicRead(cat);
  }

  lemma JudgeTenantOnly(s: Setting, r: Row, a: Access)
    ensures var ps := TenantPolicies(true);
            && !Says(ps, a, s, r, Raised)
            && (Says(ps, a, s, r, Granted) <==> CanWrite(s, r))
  {
    var ps := TenantPolicies(true);
    assert forall n :: n in ps && Contributes(ps[n], a).Some? ==> Contributes(ps[n], a).value == HardenedTenant;
    var n := if a == Add then TenantInsert else TenantIsolation;
    assert n in ps && Contributes(ps[n], a) == Some(HardenedTenant);
  }

  /** The public policy contributes to reading alone. */
  lemma PageConditions(ps: Policies, a: Access, n: PolicyName)
    requires ps == TenantPolicies(true)[PublicReadPublished := PUBLIC_READ] && n in ps
    ensures n == PublicReadPublished ==> Contributes(ps[n], a) == if a == Read then Some(IsPublished) else None
    ensures n != PublicReadPublished && Contributes(ps[n], a).Some? ==> Contributes(ps[n], a).value == HardenedTenant
    ensures n == (if a == Add then TenantInsert else TenantIsolation) ==> Contributes(ps[n], a) == Some(HardenedTenant)
  {
  }

  lemma JudgePages(s: Setting, r: Row, a: Access)
    ensures var ps := TenantPolicies(true)[PublicReadPublished := PUBLIC_READ];
            && !Says(ps, a, s, r, Raised)
            && (Says(ps, a, s, r, Granted) <==> CanWrite(s, r) || (a == Read && IsPage(r)))
  {
    var ps := TenantPolicies(true)[PublicReadPublished := PUBLIC_READ];
    forall n | n in ps && Contributes(ps[n], a).Some?
      ensures Eval(Contributes(ps[n], a).value, s, r) != Raised
      ensures Eval(Contributes(ps[n], a).value, s, r) == Granted ==> CanWrite(s, r) || (a == Read && IsPage(r))
    {
      PageConditions(ps, a, n);
    }
    PageConditions(ps, a, if a == Add then TenantInsert else TenantIsolation);
    PageConditions(ps, a, PublicReadPublished);
  }

  /** Under the hardened catalogue no access raises, reading takes the tenant or a
      published page, and writing takes the tenant. */
  lemma HardenedMeaning(cat: Catalogue, s: Setting, r: Row, a: Access)
    requires Hardened(cat) && Table(r) in TENANT_TABLES
    ensures Judge(cat, a, s, r) == if (if a == Read then CanRead(s, r) else CanWrite(s, r)) then Granted else Refused
  {
    JudgeTenantOnly(s, r, a);
    JudgePages(s, r, a);
  }

  /** The strict form raised on every row of a tenant table as soon as no tenant was set. */
  lemma StrictRaises(cat: Catalogue, s: Setting, r: Row, a: Access)
    requires Table(r) in cat && cat[Table(r)] == TenantPolicies(false) && !s.Tenant?
    ensures Judge(cat, a, s, r) == Raised
  {
    var ps := cat[Table(r)];
    var n := if a == Add then TenantInsert else TenantIsolation;
    assert n in ps && Contributes(ps[n], a) == Some(StrictTenant);
  }

  // ---------- Statements ----------

  type Filter = (nat, Row) -> bool

  datatype Command =
    | Select(filter: Filter)
    | Insert(id: nat, row: Row)
    | Update(filter: Filter, change: (nat, Row) -> Row)
    | Delete(filter: Filter)

  datatype Answer = Found(rows: Rows) | Affected(count: nat) | Denied | DuplicateKey

  predicate IsError(a: Answer) {
    a == Denied || a == DuplicateKey
  }

  /** The rows an UPDATE or DELETE reaches: its own filter, cut down by the policies. */
  function Reached(db: Rows, s: Setting, f: Filter): set<nat> {
    set i | i in db && CanWrite(s, db[i]) && f(i, db[i])
  }

  function Exec(db: Rows, s: Setting, c: Command): (Rows, Answer) {
    match c
    case Select(f) => (db, Found(map i | i in db && CanRead(s, db[i]) && f(i, db[i]) :: db[i]))
    case Insert(id, row) =>
      if !CanWrite(s, row) then (db, Denied) else if id in db then (db, DuplicateKey) else (db[id := row], Affected(1))
    case Update(f, change) =>
      var hit := Reached(db, s, f);
      if exists i :: i in hit && !CanWrite(s, change(i, db[i])) then (db, Denied)
      else (map i | i in db :: if i in hit then change(i, db[i]) else db[i], Affected(|hit|))
    case Delete(f) => (db - Reached(db, s, f), Affected(|Reached(db, s, f)|))
  }

  ghost predicate InTenantTables(db: Rows) {
    forall i :: i in db ==> Table(db[i]) in TENANT_TABLES
  }

  /** Statements do what the installed policies grant, row by row. */
  lemma ReadsFollowPolicies(cat: Catalogue, db: Rows, s: Setting, f: Filter)
    requires Hardened(cat) && InTenantTables(db)
    ensures Exec(db, s, Select(f)).0 == db
    ensures forall i :: i in Exec(db, s, Select(f)).1.rows <==>
                        i in db && Judge(cat, Read, s, db[i]) == Granted && f(i, db[i])
    ensures forall i :: i in Exec(db, s, Select(f)).1.rows ==> Exec(db, s, Select(f)).1.rows[i] == db[i]
  {
    forall i | i in db
      ensures Judge(cat, Read, s, db[i]) == Granted <==> CanRead(s, db[i])
    {
      HardenedMeaning(cat, s, db[i], Read);
    }
  }

  lemma InsertsFollowPolicies(cat: Catalogue, db: Rows, s: Setting, id: nat, row: Row)
    requires Hardened(cat) && Table(row) in TENANT_TABLES
    ensures var (db', a) := Exec(db, s, Insert(id, row));
            if Judge(cat, Add, s, row) != Granted then db' == db && a == Denied
            else if id in db then db' == db && a == DuplicateKey
            else db' == db[id := row] && a == Affected(1)
  {
    HardenedMeaning(cat, s, row, Add);
  }

  /** The rows an UPDATE or DELETE touches, in the words of the policies. */
  ghost function Touched(cat: Catalogue, db: Rows, s: Setting, f: Filter): set<nat> {
    set i | i in db && Judge(cat, Write, s, db[i]) == Granted && f(i, db[i])
  }

  lemma TouchedAreReached(cat: Catalogue, db: Rows, s: Setting, f: Filter)
    requires Hardened(cat) && InTenantTables(db)
    ensures Touched(cat, db, s, f) == Reached(db, s, f)
  {
    forall i | i in db
      ensures Judge(cat, Write, s, db[i]) == Granted <==> CanWrite(s, db[i])
    {
      HardenedMeaning(cat, s, db[i], Write);
    }
  }

  lemma UpdateMeans(db: Rows, s: Setting, f: Filter, change: (nat, Row) -> Row, hit: set<nat>)
    requires hit == Reached(db, s, f)
    ensures var (db', a) := Exec(db, s, Update(f, change));
            if exists i :: i in hit && !CanWrite(s, change(i, db[i])) then db' == db && a == Denied
            else
              && a == Affected(|hit|) && db'.Keys == db.Keys
              && forall i :: i in db ==> db'[i] == if i in hit then change(i, db[i]) else db[i]
  {
  }

  /** An UPDATE is denied exactly when it would turn a row it touches into one the policies
      do not let its session write; otherwise it changes the rows it touches. */
  lemma UpdatesFollowPolicies(cat: Catalogue, db: Rows, s: Setting, f: Filter, change: (nat, Row) -> Row, hit: set<nat>)
    requires Hardened(cat) && InTenantTables(db) && hit == Touched(cat, db, s, f)
    requires forall j :: j in db ==> Table(change(j, db[j])) == Table(db[j])
    ensures var (db', a) := Exec(db, s, Update(f, change));
            if exists i :: i in hit && Judge(cat, Write, s, change(i, db[i])) != Granted
            then db' == db && a == Denied
            else
              && a == Affected(|hit|) && db'.Keys == db.Keys
              && forall i :: i in db ==> db'[i] == if i in hit then change(i, db[i]) else db[i]
  {
    TouchedAreReached(cat, db, s, f);
    UpdateMeans(db, s, f, change, hit);
    forall i | i in db
      ensures Judge(cat, Write, s, change(i, db[i])) == Granted <==> CanWrite(s, change(i, db[i]))
    {
      HardenedMeaning(cat, s, change(i, db[i]), Write);
    }
  }

  lemma DeletesFollowPolicies(cat: Catalogue, db: Rows, s: Setting, f: Filter)
    requires Hardened(cat) && InTenantTables(db)
    ensures var (db', a) := Exec(db, s, Delete(f));
            var hit := Touched(cat, db, s, f);
            && a == Affected(|hit|) && db'.Keys == db.Keys - hit
            && forall i :: i in db' ==> db'[i] == db[i]
  {
    TouchedAreReached(cat, db, s, f);
  }

  /** A client: its next statement may depend on every answer so far. */
  type Client = seq<Answer> -> Command

  /** One transaction of `n` statements. The first error ends it; the caller rolls back. */
  function Play(db: Rows, s: Setting, p: Client, n: nat, log: seq<Answer>): (Rows, seq<Answer>)
    decreases n
  {
    if n == 0 then (db, log)
    else
      var (db', a) := Exec(db, s, p(log));
      if IsError(a) then (db, log + [a]) else Play(db', s, p, n - 1, log + [a])
  }

  /** What is left of a transaction: all of its changes, or none after an error. */
  function Committed(db: Rows, s: Setting, p: Client, n: nat): (Rows, seq<Answer>) {
    var (db', log) := Play(db, s, p, n, []);
    if log != [] && IsError(log[|log| - 1]) then (db, log) else (db', log)
  }

  /** `chain` are the databases between the statements that gave the answers `log`. */
  ghost predicate Ran(chain: seq<Rows>, s: Setting, p: Client, log: seq<Answer>) {
    |chain| == |log| + 1 &&
    forall k :: 0 <= k < |log| ==> (chain[k + 1], log[k]) == Exec(chain[k], s, p(log[..k]))
  }

  /** A transaction from `db` to `db'` that answers `log`: either all `n` statements ran
      without an error and what the last one left is stored, or the last statement that ran
      was the first error, and nothing is. */
  ghost predicate IsTransaction(db: Rows, s: Setting, p: Client, n: nat, db': Rows, log: seq<Answer>) {
    exists chain :: Ran(chain, s, p, log) && chain[0] == db && EndsWell(chain, n, db', log)
  }

  ghost predicate EndsWell(chain: seq<Rows>, n: nat, db': Rows, log: seq<Answer>)
    requires |chain| == |log| + 1
  {
    && (forall k :: 0 <= k < |log| - 1 ==> !IsError(log[k]))
    && if log != [] && IsError(log[|log| - 1]) then |log| <= n && db' == chain[0]
       else |log| == n && db' == chain[n]
  }

  lemma RanOn(chain: seq<Rows>, s: Setting, p: Client, log: seq<Answer>)
    requires Ran(chain, s, p, log)
    ensures var (db', a) := Exec(chain[|log|], s, p(log)); Ran(chain + [db'], s, p, log + [a])
  {
    var (db', a) := Exec(chain[|log|], s, p(log));
    forall k | 0 <= k < |log + [a]|
      ensures ((chain + [db'])[k + 1], (log + [a])[k]) == Exec((chain + [db'])[k], s, p((log + [a])[..k]))
    {
      assert (log + [a])[..k] == log[..k];
      assert k == |log| ==> log[..k] == log;
    }
  }

  lemma {:induction false} PlayRan(chain: seq<Rows>, s: Setting, p: Client, n: nat, log: seq<Answer>)
    returns (whole: seq<Rows>)
    requires Ran(chain, s, p, log) && forall k :: 0 <= k < |log| ==> !IsError(log[k])
    ensures var (db', log') := Play(chain[|log|], s, p, n, log);
            && Ran(whole, s, p, log') && chain <= whole && whole[|log'|] == db'
            && (forall k :: 0 <= k < |log'| - 1 ==> !IsError(log'[k]))
            && (if log' != [] && IsError(log'[|log'| - 1]) then |log'| <= |log| + n else |log'| == |log| + n)
    decreases n
  {
    if n == 0 {
      whole := chain;
    } else {
      var (db', a) := Exec(chain[|log|], s, p(log));
      RanOn(chain, s, p, log);
      if IsError(a) {
        whole := chain + [db'];
      } else {
        whole := PlayRan(chain + [db'], s, p, n - 1, log + [a]);
      }
    }
  }

  /** So the statements take effect in their order and together, or not at all. */
  lemma CommittedIsTransaction(db: Rows, s: Setting, p: Client, n: nat)
    ensures IsTransaction(db, s, p, n, Committed(db, s, p, n).0, Committed(db, s, p, n).1)
  {
    var chain := PlayRan([db], s, p, n, []);
    assert chain[0] == [db][0];
    assert EndsWell(chain, n, Committed(db, s, p, n).0, Committed(db, s, p, n).1);
  }

  // ---------- Non-interference ----------

  ghost function Own(db: Rows, t: Company): Rows {
    map i | i in db && db[i].company == t :: db[i]
  }

  ghost function Foreign(db: Rows, t: Company): Rows {
    map i | i in db && db[i].company != t :: db[i]
  }

  ghost function Pages(db: Rows): Rows {
    map i | i in db && IsPage(db[i]) :: db[i]
  }

  /** Two databases that differ only in what tenant `t` must not see. */
  ghost predicate Alike(t: Company, d: Rows, e: Rows) {
    Own(d, t) == Own(e, t) && Pages(d) == Pages(e)
  }

  /** No primary key the client invents collides with a foreign row. */
  ghost predicate NoCollisions(p: Client, foreign: set<nat>) {
    forall log :: p(log).Insert? ==> p(log).id !in foreign
  }

  lemma SelectIsAlike(t: Company, d: Rows, e: Rows, f: Filter)
    requires Alike(t, d, e)
    ensures Exec(d, Tenant(t), Select(f)).1 == Exec(e, Tenant(t), Select(f)).1
  {
    var s := Tenant(t);
    forall i
      ensures (i in d && CanRead(s, d[i])) <==> (i in e && CanRead(s, e[i]))
      ensures i in d && CanRead(s, d[i]) ==> d[i] == e[i]
    {
      assert (i in Own(d, t) <==> i in Own(e, t)) && (i in Pages(d) <==> i in Pages(e));
    }
    var x, y := Exec(d, s, Select(f)).1.rows, Exec(e, s, Select(f)).1.rows;
    assert x.Keys == y.Keys;
    assert x == y;
  }

  lemma ReachIsAlike(t: Company, d: Rows, e: Rows, f: Filter)
    requires Alike(t, d, e)
    ensures Reached(d, Tenant(t), f) == Reached(e, Tenant(t), f)
    ensures forall i :: i in Reached(d, Tenant(t), f) ==> d[i] == e[i] && d[i].company == t
  {
    forall i
      ensures i in Reached(d, Tenant(t), f) <==> i in Reached(e, Tenant(t), f)
      ensures i in Reached(d, Tenant(t), f) ==> d[i] == e[i] && d[i].company == t
    {
      assert i in Own(d, t) <==> i in Own(e, t);
      if i in Own(d, t) {
        assert Own(d, t)[i] == d[i] && Own(e, t)[i] == e[i];
      }
    }
  }

  lemma DeleteIsAlike(t: Company, d: Rows, e: Rows, f: Filter)
    requires Alike(t, d, e)
    ensures Exec(d, Tenant(t), Delete(f)).1 == Exec(e, Tenant(t), Delete(f)).1
    ensures Alike(t, Exec(d, Tenant(t), Delete(f)).0, Exec(e, Tenant(t), Delete(f)).0)
    ensures Foreign(Exec(d, Tenant(t), Delete(f)).0, t) == Foreign(d, t)
  {
    ReachIsAlike(t, d, e, f);
    var hit := Reached(d, Tenant(t), f);
    assert Own(d - hit, t) == Own(d, t) - hit && Own(e - hit, t) == Own(e, t) - hit;
    assert Pages(d - hit) == Pages(d) - hit && Pages(e - hit) == Pages(e) - hit;
  }

  lemma OwnAt(t: Company, d: Rows, e: Rows, i: nat)
    requires Alike(t, d, e)
    ensures (i in d && d[i].company == t) <==> (i in e && e[i].company == t)
    ensures i in d && d[i].company == t ==> d[i] == e[i]
    ensures (i in d && IsPage(d[i])) <==> (i in e && IsPage(e[i]))
    ensures i in d && IsPage(d[i]) ==> d[i] == e[i]
  {
    assert i in Own(d, t) <==> i in Own(e, t);
    assert i in Pages(d) <==> i in Pages(e);
    if i in Own(d, t) {
      assert Own(d, t)[i] == Own(e, t)[i];
    }
    if i in Pages(d) {
      assert Pages(d)[i] == Pages(e)[i];
    }
  }

  /** Writing the same values to the same own rows keeps two databases alike. */
  lemma OverlayIsAlike(t: Company, d: Rows, e: Rows, written: Rows)
    requires Alike(t, d, e)
    requires forall i :: i in written ==> written[i].company == t
    requires forall i :: i in written && i in d ==> d[i].company == t
    requires forall i :: i in written && i in e ==> e[i].company == t
    ensures Alike(t, d + written, e + written) && Foreign(d + written, t) == Foreign(d, t)
  {
    var d', e' := d + written, e + written;
    forall i
      ensures (i in Own(d', t) <==> i in Own(e', t)) && (i in Own(d', t) ==> Own(d', t)[i] == Own(e', t)[i])
      ensures (i in Pages(d') <==> i in Pages(e')) && (i in Pages(d') ==> Pages(d')[i] == Pages(e')[i])
    {
      OwnAt(t, d, e, i);
    }
    assert Own(d', t) == Own(e', t) && Pages(d') == Pages(e');
  }

  lemma UpdateIsOverlay(db: Rows, s: Setting, f: Filter, change: (nat, Row) -> Row)
    requires !Exec(db, s, Update(f, change)).1.Denied?
    ensures Exec(db, s, Update(f, change)).0 == db + map i | i in Reached(db, s, f) :: change(i, db[i])
  {
  }

  lemma UpdateIsAlike(t: Company, d: Rows, e: Rows, f: Filter, change: (nat, Row) -> Row)
    requires Alike(t, d, e)
    ensures var c := Update(f, change);
            && Exec(d, Tenant(t), c).1 == Exec(e, Tenant(t), c).1
            && Alike(t, Exec(d, Tenant(t), c).0, Exec(e, Tenant(t), c).0)
            && Foreign(Exec(d, Tenant(t), c).0, t) == Foreign(d, t)
  {
    ReachIsAlike(t, d, e, f);
    var hit := Reached(d, Tenant(t), f);
    var bad := exists i :: i in hit && !CanWrite(Tenant(t), change(i, d[i]));
    assert bad <==> exists i :: i in hit && !CanWrite(Tenant(t), change(i, e[i]));
    if !bad {
      var written := map i | i in hit :: change(i, d[i]);
      assert written == map i | i in hit :: change(i, e[i]);
      UpdateIsOverlay(d, Tenant(t), f, change);
      UpdateIsOverlay(e, Tenant(t), f, change);
      OverlayIsAlike(t, d, e, written);
    }
  }

  lemma InsertIsAlike(t: Company, d: Rows, e: Rows, id: nat, row: Row)
    requires Alike(t, d, e) && id !in Foreign(d, t) && id !in Foreign(e, t)
    ensures var c := Insert(id, row);
            && Exec(d, Tenant(t), c).1 == Exec(e, Tenant(t), c).1
            && Alike(t, Exec(d, Tenant(t), c).0, Exec(e, Tenant(t), c).0)
            && Foreign(Exec(d, Tenant(t), c).0, t) == Foreign(d, t)
  {
    OwnAt(t, d, e, id);
    if CanWrite(Tenant(t), row) && id !in d {
      OverlayIsAlike(t, d, e, map[id := row]);
      assert d + map[id := row] == d[id := row] && e + map[id := row] == e[id := row];
    }
  }

  lemma StepIsAlike(t: Company, d: Rows, e: Rows, c: Command)
    requires Alike(t, d, e)
    requires c.Insert? ==> c.id !in Foreign(d, t) && c.id !in Foreign(e, t)
    ensures Exec(d, Tenant(t), c).1 == Exec(e, Tenant(t), c).1
    ensures Alike(t, Exec(d, Tenant(t), c).0, Exec(e, Tenant(t), c).0)
    ensures Foreign(Exec(d, Tenant(t), c).0, t) == Foreign(d, t)
  {
    match c
    case Select(f) => SelectIsAlike(t, d, e, f);
    case Insert(id, row) => InsertIsAlike(t, d, e, id, row);
    case Update(f, change) => UpdateIsAlike(t, d, e, f, change);
    case Delete(f) => DeleteIsAlike(t, d, e, f);
  }

  lemma AlikeIsSymmetric(t: Company, d: Rows, e: Rows)
    requires Alike(t, d, e)
    ensures Alike(t, e, d)
  {
  }

  lemma {:induction false} PlayIsAlike(t: Company, d: Rows, e: Rows, p: Client, n: nat, log: seq<Answer>)
    requires Alike(t, d, e) && NoCollisions(p, Foreign(d, t).Keys + Foreign(e, t).Keys)
    ensures Play(d, Tenant(t), p, n, log).1 == Play(e, Tenant(t), p, n, log).1
    ensures Alike(t, Play(d, Tenant(t), p, n, log).0, Play(e, Tenant(t), p, n, log).0)
    ensures Foreign(Play(d, Tenant(t), p, n, log).0, t) == Foreign(d, t)
    decreases n
  {
    if n > 0 {
      StepIsAlike(t, d, e, p(log));
      AlikeIsSymmetric(t, d, e);
      StepIsAlike(t, e, d, p(log));
      var (d', a) := Exec(d, Tenant(t), p(log));
      var (e', b) := Exec(e, Tenant(t), p(log));
      if !IsError(a) {
        PlayIsAlike(t, d', e', p, n - 1, log + [a]);
      }
    }
  }

  /** Non-interference: whatever an adaptive client of tenant `t` does in a transaction,
      two databases alike for `t` give it the same answers and stay alike, and nobody
      else's rows are touched. */
  lemma NonInterference(t: Company, d: Rows, e: Rows, p: Client, n: nat)
    requires Alike(t, d, e) && NoCollisions(p, Foreign(d, t).Keys + Foreign(e, t).Keys)
    ensures Committed(d, Tenant(t), p, n).1 == Committed(e, Tenant(t), p, n).1
    ensures Alike(t, Committed(d, Tenant(t), p, n).0, Committed(e, Tenant(t), p, n).0)
    ensures Foreign(Committed(d, Tenant(t), p, n).0, t) == Foreign(d, t)
  {
    PlayIsAlike(t, d, e, p, n, []);
  }

  /** The assumption on keys is needed: a collision tells the client about a foreign row. */
  lemma CollisionsLeak()
    ensures var d, e: Rows := map[], map[7 := AuditLog(2, "x")];
            && Alike(1, d, e)
            && Exec(d, Tenant(1), Insert(7, AuditLog(1, "y"))).1 != Exec(e, Tenant(1), Insert(7, AuditLog(1, "y"))).1
  {
  }

  /** Without a tenant only published pages can be read, and nothing can be changed. */
  lemma WithoutTenant(db: Rows, s: Setting, c: Command)
    requires !s.Tenant?
    ensures Exec(db, s, c).0 == db
    ensures match c
            case Select(f) => Exec(db, s, c).1 == Found(map i | i in Pages(db) && f(i, db[i]) :: db[i])
            case Insert(_, _) => Exec(db, s, c).1 == Denied
            case Update(_, _) => Exec(db, s, c).1 == Affected(0)
            case Delete(_) => Exec(db, s, c).1 == Affected(0)
  {
  }

  // ---------- Sessions that go on after a commit ----------

  /** What the client of a long session does next: a statement, a commit, or naming its
      own tenant, as a service does again once it has committed. */
  datatype Move = Do(c: Command) | Save | Name

  /** A connection between two moves: the rows stored, the rows its transaction works on
      and the tenant setting. */
  datatype Conn = Conn(stored: Rows, work: Rows, setting: Setting)

  type LongClient = seq<Answer> -> Move

  /** One move. The end of a transaction, good or bad, takes the tenant setting with it. */
  function Advance(x: Conn, t: Company, m: Move): (Conn, Answer) {
    match m
    case Name => (x.(setting := Tenant(t)), Affected(0))
    case Save => (Conn(x.work, x.work, Emptied), Affected(0))
    case Do(c) =>
      var (work, a) := Exec(x.work, x.setting, c);
      if IsError(a) then (Conn(x.stored, x.stored, Emptied), a) else (x.(work := work), a)
  }

  function Converse(x: Conn, t: Company, p: LongClient, n: nat, log: seq<Answer>): (Conn, seq<Answer>)
    decreases n
  {
    if n == 0 then (x, log)
    else
      var (x', a) := Advance(x, t, p(log));
      Converse(x', t, p, n - 1, log + [a])
  }

  /** Two connections whose client, of tenant `t`, must not be able to tell them apart. */
  ghost predicate Twins(t: Company, x: Conn, y: Conn) {
    && Alike(t, x.stored, y.stored) && Alike(t, x.work, y.work)
    && x.setting == y.setting && (x.setting.Tenant? ==> x.setting == Tenant(t))
  }

  /** Nobody else's rows differ from `others`, neither stored nor in the transaction. */
  ghost predicate Untouched(t: Company, x: Conn, others: Rows) {
    Foreign(x.stored, t) == others && Foreign(x.work, t) == others
  }

  /** A commit ends the tenant setting: until the tenant is named again the next statement
      sees pages alone and changes nothing. */
  lemma CommitForgetsTheTenant(x: Conn, t: Company, c: Command)
    ensures var (y, a) := Advance(Advance(x, t, Save).0, t, Do(c));
            && y.stored == y.work == x.work && !y.setting.Tenant?
            && match c
               case Select(f) => a == Found(map i | i in Pages(x.work) && f(i, x.work[i]) :: x.work[i])
               case Insert(_, _) => a == Denied
               case Update(_, _) => a == Affected(0)
               case Delete(_) => a == Affected(0)
  {
    WithoutTenant(x.work, Emptied, c);
  }

  lemma BlindStep(d: Rows, e: Rows, s: Setting, c: Command)
    requires !s.Tenant? && Pages(d) == Pages(e)
    ensures Exec(d, s, c).0 == d && Exec(e, s, c).0 == e && Exec(d, s, c).1 == Exec(e, s, c).1
  {
    WithoutTenant(d, s, c);
    WithoutTenant(e, s, c);
  }

  lemma MoveIsAlike(t: Company, x: Conn, y: Conn, m: Move, others: Rows)
    requires Twins(t, x, y) && Untouched(t, x, others)
    requires m.Do? && m.c.Insert? ==> m.c.id !in others && m.c.id !in Foreign(y.work, t)
    ensures Advance(x, t, m).1 == Advance(y, t, m).1
    ensures Twins(t, Advance(x, t, m).0, Advance(y, t, m).0)
    ensures Untouched(t, Advance(x, t, m).0, others)
  {
    if m.Do? {
      if x.setting.Tenant? {
        StepIsAlike(t, x.work, y.work, m.c);
      } else {
        BlindStep(x.work, y.work, x.setting, m.c);
      }
    }
  }

  lemma TwinsAreSymmetric(t: Company, x: Conn, y: Conn)
    requires Twins(t, x, y)
    ensures Twins(t, y, x)
  {
  }

  /** Non-interference over a whole session: a client that commits as often as it likes,
      runs statements with its tenant named or not and meets errors on the way gets the
      same answers from twins, leaves them twins, and touches nobody else's rows. */
  lemma {:induction false} LongSessionsAreAlike(t: Company, x: Conn, y: Conn, p: LongClient, n: nat,
      log: seq<Answer>, others: Rows, others': Rows)
    requires Twins(t, x, y) && Untouched(t, x, others) && Untouched(t, y, others')
    requires forall l :: p(l).Do? && p(l).c.Insert? ==> p(l).c.id !in others && p(l).c.id !in others'
    ensures Converse(x, t, p, n, log).1 == Converse(y, t, p, n, log).1
    ensures Twins(t, Converse(x, t, p, n, log).0, Converse(y, t, p, n, log).0)
    ensures Untouched(t, Converse(x, t, p, n, log).0, others)
    decreases n
  {
    if n > 0 {
      var m := p(log);
      MoveIsAlike(t, x, y, m, others);
      TwinsAreSymmetric(t, x, y);
      MoveIsAlike(t, y, x, m, others');
      var (x', a) := Advance(x, t, m);
      LongSessionsAreAlike(t, x', Advance(y, t, m).0, p, n - 1, log + [a], others, others');
    }
  }

  /** Forgetting to name the tenant is harmless: such a session sees pages alone, whatever
      else the two databases hold, and stores nothing. */
  lemma {:induction false} NamelessSessionsSeePages(t: Company, x: Conn, y: Conn, p: LongClient, n: nat,
      log: seq<Answer>)
    requires !x.setting.Tenant? && !y.setting.Tenant? && forall l :: p(l) != Name
    requires x.work == x.stored && y.work == y.stored && Pages(x.stored) == Pages(y.stored)
    ensures Converse(x, t, p, n, log).1 == Converse(y, t, p, n, log).1
    ensures Converse(x, t, p, n, log).0.stored == x.stored
    decreases n
  {
    if n > 0 {
      var m := p(log);
      if m.Do? {
        BlindStep(x.work, y.work, x.setting, m.c);
        WithoutTenant(y.work, y.setting, m.c);
        WithoutTenant(y.work, x.setting, m.c);
      }
      var (x', a) := Advance(x, t, m);
      NamelessSessionsSeePages(t, x', Advance(y, t, m).0, p, n - 1, log + [a]);
    }
  }

  /** The client of a long session that names its tenant, plays `n` statements of `p` and
      commits. */
  ghost function Wrapped(p: Client, n: nat): LongClient {
    (log: seq<Answer>) => if log == [] then Name else if |log| <= n then Do(p(log[1..])) else Save
  }

  lemma {:induction false} NamelessStandsStill(x: Conn, t: Company, p: Client, n: nat, log: seq<Answer>)
    requires log != [] && |log| <= n + 1 && !x.setting.Tenant? && x.work == x.stored
    ensures Converse(x, t, Wrapped(p, n), n + 2 - |log|, log).0.stored == x.stored
    decreases n + 2 - |log|
  {
    var m := Wrapped(p, n)(log);
    var (x', a) := Advance(x, t, m);
    if m.Do? {
      WithoutTenant(x.work, x.setting, m.c);
      NamelessStandsStill(x', t, p, n, log + [a]);
    } else {
      assert Converse(x', t, Wrapped(p, n), 0, log + [a]).0 == x';
    }
  }

  lemma {:induction false} WrappedPlays(x: Conn, t: Company, p: Client, n: nat, first: Answer, log: seq<Answer>)
    requires |log| <= n && x.setting == Tenant(t)
    ensures var (db', log') := Play(x.work, Tenant(t), p, n - |log|, log);
            Converse(x, t, Wrapped(p, n), n + 1 - |log|, [first] + log).0.stored
            == if |log'| > |log| && IsError(log'[|log'| - 1]) then x.stored else db'
    decreases n - |log|
  {
    var m := Wrapped(p, n)([first] + log);
    assert ([first] + log)[1..] == log;
    var (x', a) := Advance(x, t, m);
    assert ([first] + log) + [a] == [first] + (log + [a]);
    PlayGrows(x.work, Tenant(t), p, n - |log|, log);
    if |log| == n {
      assert Converse(x', t, Wrapped(p, n), 0, [first] + log + [a]).0 == x';
    } else if IsError(a) {
      NamelessStandsStill(x', t, p, n, [first] + (log + [a]));
    } else {
      PlayGrows(x'.work, Tenant(t), p, n - |log| - 1, log + [a]);
      WrappedPlays(x', t, p, n, first, log + [a]);
    }
  }

  lemma {:induction false} PlayGrows(db: Rows, s: Setting, p: Client, n: nat, log: seq<Answer>)
    ensures log <= Play(db, s, p, n, log).1
    ensures n > 0 ==> |Play(db, s, p, n, log).1| > |log|
    decreases n
  {
    if n > 0 {
      var (db', a) := Exec(db, s, p(log));
      if !IsError(a) {
        PlayGrows(db', s, p, n - 1, log + [a]);
      }
    }
  }

  /** What such a session stores is what a transaction of the client stores: its commit
      keeps what the statements worked on, unless one of them ended in an error. */
  lemma SavingCommits(db: Rows, t: Company, p: Client, n: nat)
    ensures Converse(Conn(db, db, NeverSet), t, Wrapped(p, n), n + 2, []).0.stored == Committed(db, Tenant(t), p, n).0
  {
    var x := Conn(db, db, NeverSet);
    var (x', a) := Advance(x, t, Name);
    assert Wrapped(p, n)([]) == Name && [] + [a] == [a] + [];
    assert Converse(x, t, Wrapped(p, n), n + 2, []) == Converse(x', t, Wrapped(p, n), n + 1, [a] + []);
    WrappedPlays(x', t, p, n, a, []);
  }

  // ---------- Sessions ----------

  /** One database connection: `SET LOCAL` lasts until the transaction ends, and then
      leaves the setting empty. */
  class Session {
    var stored: Rows
    var work: Rows
    var setting: Setting
    var open: bool

    constructor (stored: Rows)
      ensures this.stored == stored && setting == NeverSet && !open
    {
      this.stored, work, setting, open := stored, stored, NeverSet, false;
    }

    /** `session.begin()` followed by `set_tenant_context`. */
    method Begin(t: Company)
      requires !open
      modifies this
      ensures open && setting == Tenant(t) && work == stored == old(stored)
    {
      work, open, setting := stored, true, Tenant(t);
    }

    method Run(c: Command) returns (a: Answer)
      requires open
      modifies this`work
      ensures (work, a) == Exec(old(work), setting, c)
    {
      match c
      case Select(f) =>
        a := Found(map i | i in work && CanRead(setting, work[i]) && f(i, work[i]) :: work[i]);
      case Insert(id, row) =>
        if !CanWrite(setting, row) {
          a := Denied;
        } else if id in work {
          a := DuplicateKey;
        } else {
          work, a := work[id := row], Affected(1);
        }
      case Update(f, change) =>
        var hit := Reached(work, setting, f);
        if exists i :: i in hit && !CanWrite(setting, change(i, work[i])) {
          a := Denied;
        } else {
          work, a := map i | i in work :: if i in hit then change(i, work[i]) else work[i], Affected(|hit|);
        }
      case Delete(f) =>
        var hit := Reached(work, setting, f);
        work, a := work - hit, Affected(|hit|);
    }

    method Commit()
      requires open
      modifies this
      ensures !open && stored == old(work) && !setting.Tenant?
    {
      stored, open, setting := work, false, Emptied;
    }

    method Rollback()
      requires open
      modifies this
      ensures !open && stored == old(stored) && !setting.Tenant?
    {
      work, open, setting := stored, false, Emptied;
    }

    /** `async with tenant_session(t)`: all statements of a client, then commit or roll back. */
    method TenantSession(t: Company, p: Client, n: nat) returns (log: seq<Answer>)
      requires !open
      modifies this
      ensures !open && !setting.Tenant?
      ensures (stored, log) == Committed(old(stored), Tenant(t), p, n)
      ensures IsTransaction(old(stored), Tenant(t), p, n, stored, log)
    {
      CommittedIsTransaction(stored, Tenant(t), p, n);
      Begin(t);
      log := [];
      for k := 0 to n
        invariant open && setting == Tenant(t) && stored == old(stored)
        invariant Play(work, setting, p, n - k, log) == Play(stored, setting, p, n, [])
        invariant log == [] || !IsError(log[|log| - 1])
      {
        ghost var before := work;
        var a := Run(p(log));
        if IsError(a) {
          assert (work, a) == Exec(before, setting, p(log)) && work == before;
          log := log + [a];
          Rollback();
          return;
        }
        log := log + [a];
      }
      Commit();
    }
  }
}
