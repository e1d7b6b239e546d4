/** The routing engine: sticky agents first, then scoring or least-loaded fallback,
    never beyond an agent's capacity. Scores are exact reals rounded to two places. */
module Routing {
  import opened Wrappers

  datatype Skills = Skills(tags: set<string>, languages: set<string>)

  /** `onShift` says whether the present moment lies in today's working hours. */
  datatype Agent = Agent(id: string, capacity: int, active: bool, online: bool, onShift: bool, skills: Option<Skills>)

  datatype Status = Open | Pending | Closed | Snoozed

  datatype Conversation = Conversation(contact: string, agent: Option<string>, status: Status, created: int)

  /** One company's agents, in query order, and conversations. */
  datatype Db = Db(agents: seq<Agent>, convs: map<string, Conversation>)

  datatype Fallback = Scoring | RoundRobin | Team(team: Option<string>) | Queue

  datatype Policy = Policy(
    sticky: bool, fallback: Fallback, preferOnline: bool,
    skillsWeight: real, workloadWeight: real, onlineBonus: real)

  const DEFAULT_POLICY := Policy(true, Scoring, true, 30.0, 40.0, 10.0)

  datatype Decision = Decision(agent: Option<string>, previous: Option<string>, how: string, score: Option<real>)

  /** An eligible agent with the load read for it. */
  datatype Candidate = Candidate(agent: Agent, load: nat)

  predicate HasRoom(c: Candidate) {
    c.load < c.agent.capacity
  }

  // ---------- Loads ----------

  predicate Counts(c: Conversation, id: string) {
    c.agent == Some(id) && (c.status == Open || c.status == Pending)
  }

  function Assigned(convs: map<string, Conversation>, id: string): set<string> {
    set k | k in convs && Counts(convs[k], id)
  }

  function Load(convs: map<string, Conversation>, id: string): nat {
    |Assigned(convs, id)|
  }

  ghost function With(convs: map<string, Conversation>, id: string, status: Status): set<string> {
    set k | k in convs && convs[k].agent == Some(id) && convs[k].status == status
  }

  /** An agent's load: the open conversations and the pending ones, no closed or snoozed. */
  lemma LoadIsOpenAndPending(convs: map<string, Conversation>, id: string)
    ensures Load(convs, id) == |With(convs, id, Open)| + |With(convs, id, Pending)|
  {
    assert Assigned(convs, id) == With(convs, id, Open) + With(convs, id, Pending);
    assert With(convs, id, Open) !! With(convs, id, Pending);
  }

  /** The positions below `n` of the active agents. */
  ghost function ActiveBelow(agents: seq<Agent>, n: nat): set<nat>
    requires n <= |agents|
  {
    set i | 0 <= i < n && agents[i].active
  }

  function Eligible(agents: seq<Agent>): (r: seq<Agent>)
    ensures forall a :: a in r <==> a in agents && a.active
  {
    if agents == [] then []
    else if agents[0].active then [agents[0]] + Eligible(agents[1..]) else Eligible(agents[1..])
  }

  lemma ActiveNext(agents: seq<Agent>, n: nat)
    requires n < |agents|
    ensures |ActiveBelow(agents, n + 1)| == (if agents[0].active then 1 else 0) + |ActiveBelow(agents[1..], n)|
  {
    var rest := ActiveBelow(agents[1..], n);
    var moved := set i | i in rest :: i + 1;
    assert ActiveBelow(agents, n + 1) == (if agents[0].active then {0} else {}) + moved by {
      forall i | i in ActiveBelow(agents, n + 1) && i > 0
        ensures i in moved
      {
        assert i - 1 in rest;
      }
    }
    ShiftedSize(rest, moved);
  }

  lemma {:induction false} ShiftedSize(s: set<nat>, t: set<nat>)
    requires t == set i | i in s :: i + 1
    ensures |t| == |s|
    decreases |s|
  {
    if s != {} {
      var x :| x in s;
      assert x + 1 in t;
      forall y | y in t && y != x + 1
        ensures exists i :: i in s - {x} && i + 1 == y
      {
        var i :| i in s && i + 1 == y;
        assert i in s - {x};
      }
      assert t - {x + 1} == set i | i in s - {x} :: i + 1;
      ShiftedSize(s - {x}, t - {x + 1});
    }
  }

  /** The eligible agents are the active ones in query order, each in its place. */
  lemma {:induction false} EligibleKeepsOrder(agents: seq<Agent>, i: nat)
    requires i < |agents|
    ensures |Eligible(agents)| == |ActiveBelow(agents, |agents|)|
    ensures agents[i].active ==>
              |ActiveBelow(agents, i)| < |Eligible(agents)| && Eligible(agents)[|ActiveBelow(agents, i)|] == agents[i]
  {
    var n := |agents| - 1;
    ActiveNext(agents, n);
    if n > 0 {
      EligibleKeepsOrder(agents[1..], if i > 0 then i - 1 else 0);
    } else {
      assert ActiveBelow(agents[1..], 0) == {};
    }
    if i > 0 {
      ActiveNext(agents, i - 1);
    } else {
      assert ActiveBelow(agents, 0) == {};
    }
  }

  function Candidates(db: Db): (r: seq<Candidate>)
    ensures |r| == |Eligible(db.agents)|
    ensures forall i :: 0 <= i < |r| ==>
              r[i] == Candidate(Eligible(db.agents)[i], Load(db.convs, Eligible(db.agents)[i].id))
  {
    var e := Eligible(db.agents);
    seq(|e|, i requires 0 <= i < |e| => Candidate(e[i], Load(db.convs, e[i].id)))
  }

  function Find(agents: seq<Agent>, id: string): (r: Option<Agent>)
    ensures r.Some? ==> r.value in agents && r.value.id == id && r.value.active
    ensures r.None? ==> forall a :: a in agents && a.id == id ==> !a.active
  {
    if agents == [] then None
    else if agents[0].id == id && agents[0].active then Some(agents[0]) else Find(agents[1..], id)
  }

  // ---------- Least-loaded fallback ----------

  function LeastPick(cs: seq<Candidate>): (r: Option<nat>)
    ensures r.Some? ==> r.value < |cs|
  {
    if cs == [] then None
    else
      var k := |cs| - 1;
      var best := LeastPick(cs[..k]);
      if HasRoom(cs[k]) && (best.None? || cs[k].load < cs[best.value].load) then Some(k) else best
  }

  /** Nobody is picked exactly when everybody is full; otherwise it is the first of the
      least loaded agents that have room. */
  lemma {:induction false} LeastPickIsLeast(cs: seq<Candidate>)
    ensures LeastPick(cs).None? <==> forall c :: c in cs ==> !HasRoom(c)
    ensures var r := LeastPick(cs);
            r.Some? ==> HasRoom(cs[r.value]) && forall j :: 0 <= j < |cs| && HasRoom(cs[j]) ==>
              cs[r.value].load <= cs[j].load && (j < r.value ==> cs[r.value].load < cs[j].load)
  {
    if cs != [] {
      var k := |cs| - 1;
      LeastPickIsLeast(cs[..k]);
      assert cs == cs[..k] + [cs[k]];
      forall j | 0 <= j < k
        ensures cs[..k][j] == cs[j] && cs[j] in cs[..k]
      {
      }
    }
  }

  /** `_round_robin_fallback` */
  method RoundRobinFallback(db: Db) returns (r: Option<string>)
    ensures var cs, p := Candidates(db), LeastPick(Candidates(db));
            r == if p.Some? then Some(cs[p.value].agent.id) else None
  {
    var agents := Eligible(db.agents);
    if agents == [] {
      return None;
    }
    ghost var cs := Candidates(db);
    var minLoad: Option<nat>, best: Option<nat> := None, None;
    for i := 0 to |agents|
      invariant best == LeastPick(cs[..i])
      invariant minLoad == if best.Some? then Some(cs[best.value].load) else None
    {
      assert cs[..i + 1][..i] == cs[..i];
      var load := Load(db.convs, agents[i].id);
      if load < agents[i].capacity && (minLoad.None? || load < minLoad.value) {
        minLoad := Some(load);
        best := Some(i);
      }
    }
    assert cs[..|agents|] == cs;
    r := if best.Some? then Some(agents[best.value].id) else None;
  }

  // ---------- Scores ----------

  function SetOf(s: seq<string>): set<string> {
    set x | x in s
  }

  /** Workload part of the score: all of the weight for an idle agent. */
  function WorkloadPart(p: Policy, c: Candidate): real {
    (1.0 - c.load as real / (if c.agent.capacity > 1 then c.agent.capacity else 1) as real) * p.workloadWeight
  }

  function Share(m: nat, n: nat, w: real): real
    requires n > 0
  {
    (m as real / n as real) * w
  }

  /** Skills part: the preferred skills are counted once each in the numerator, with
      their duplicates in the denominator. */
  function SkillsPart(p: Policy, c: Candidate, preferred: seq<string>): real {
    if preferred != [] && c.agent.skills.Some?
    then Share(|SetOf(preferred) * c.agent.skills.value.tags|, |preferred|, p.skillsWeight) else 0.0
  }

  /** The exact score of an agent, before rounding. `language` is "" when none is asked for. */
  function Exact(p: Policy, c: Candidate, preferred: seq<string>, language: string): real {
    var lang :=
      if language != "" && c.agent.skills.Some? && language in c.agent.skills.value.languages then 20.0 else 0.0;
    var bonus := if c.agent.online && p.preferOnline then p.onlineBonus else 0.0;
    WorkloadPart(p, c) + SkillsPart(p, c, preferred) + lang + bonus
  }

  /** Rounding to the nearest integer, halves to the even one. */
  function RoundHalfEven(y: real): int {
    var f := y.Floor;
    var d := y - f as real;
    if d < 0.5 then f else if d > 0.5 then f + 1 else if f % 2 == 0 then f else f + 1
  }

  function Round2(x: real): real {
    RoundHalfEven(x * 100.0) as real / 100.0
  }

  function Score(p: Policy, c: Candidate, preferred: seq<string>, language: string): real {
    Round2(Exact(p, c, preferred, language))
  }

  lemma RoundingIsClose(x: real)
    ensures -0.005 <= Round2(x) - x <= 0.005
  {
  }

  /** Rounded scores are whole hundredths, and of two equally near ones the even. */
  lemma RoundingGivesHundredths(x: real)
    ensures Round2(x) * 100.0 == RoundHalfEven(x * 100.0) as real
    ensures x * 100.0 - (x * 100.0).Floor as real == 0.5 ==> RoundHalfEven(x * 100.0) % 2 == 0
  {
  }

  lemma HalfEvenIsMonotone(a: real, b: real)
    requires a <= b
    ensures RoundHalfEven(a) <= RoundHalfEven(b)
  {
  }

  lemma RoundingIsMonotone(x: real, y: real)
    requires x <= y
    ensures Round2(x) <= Round2(y)
  {
    HalfEvenIsMonotone(x * 100.0, y * 100.0);
  }

  lemma {:induction false} DistinctAtMostLength(s: seq<string>)
    ensures |SetOf(s)| <= |s|
  {
    if s != [] {
      DistinctAtMostLength(s[1..]);
      assert SetOf(s) == SetOf(s[1..]) + {s[0]};
    }
  }

  lemma Fraction(m: nat, n: nat, w: real)
    requires m <= n && 0 < n && 0.0 <= w
    ensures 0.0 <= m as real / n as real <= 1.0
    ensures 0.0 <= (m as real / n as real) * w <= w
    ensures 0.0 <= (1.0 - m as real / n as real) * w <= w
  {
  }

  predicate Sane(p: Policy) {
    0.0 <= p.skillsWeight && 0.0 <= p.workloadWeight && 0.0 <= p.onlineBonus
  }

  function MaxScore(p: Policy): real {
    p.workloadWeight + p.skillsWeight + p.onlineBonus + 20.0
  }

  lemma SkillsPartInRange(p: Policy, c: Candidate, preferred: seq<string>)
    requires Sane(p)
    ensures 0.0 <= SkillsPart(p, c, preferred) <= p.skillsWeight
  {
    if preferred != [] && c.agent.skills.Some? {
      var wanted, tags := SetOf(preferred), c.agent.skills.value.tags;
      DistinctAtMostLength(preferred);
      assert wanted == wanted * tags + (wanted - tags);
      Fraction(|wanted * tags|, |preferred|, p.skillsWeight);
    }
  }

  /** Scores lie between 0 and the sum of the weights plus 20, duplicates among the
      preferred skills or not. */
  lemma ScoreInRange(p: Policy, c: Candidate, preferred: seq<string>, language: string)
    requires Sane(p) && HasRoom(c)
    ensures 0.0 <= Exact(p, c, preferred, language) <= MaxScore(p)
    ensures 0.0 <= Score(p, c, preferred, language) <= Round2(MaxScore(p))
  {
    Fraction(c.load, c.agent.capacity, p.workloadWeight);
    assert 0.0 <= WorkloadPart(p, c) <= p.workloadWeight;
    SkillsPartInRange(p, c, preferred);
    var e := Exact(p, c, preferred, language);
    RoundingIsMonotone(0.0, e);
    RoundingIsMonotone(e, MaxScore(p));
    assert RoundHalfEven(0.0 * 100.0) == 0;
  }

  /** With the default weights no score beats the 100 recorded for a sticky assignment. */
  lemma DefaultScoreAtMostSticky(c: Candidate, preferred: seq<string>, language: string)
    requires HasRoom(c)
    ensures Score(DEFAULT_POLICY, c, preferred, language) <= 100.0
  {
    ScoreInRange(DEFAULT_POLICY, c, preferred, language);
    assert MaxScore(DEFAULT_POLICY) * 100.0 == 10000.0;
    assert RoundHalfEven(10000.0) == 10000;
  }

  // ---------- Which way the score points ----------

  function Tags(c: Candidate): set<string> {
    if c.agent.skills.Some? then c.agent.skills.value.tags else {}
  }

  /** How many of the preferred skills the agent has. */
  function Wanted(c: Candidate, preferred: seq<string>): nat {
    |SetOf(preferred) * Tags(c)|
  }

  predicate Speaks(c: Candidate, language: string) {
    language != "" && c.agent.skills.Some? && language in c.agent.skills.value.languages
  }

  predicate Favoured(p: Policy, c: Candidate) {
    p.preferOnline && c.agent.online
  }

  lemma LoadShare(p: Policy, c: Candidate)
    requires c.agent.capacity >= 1
    ensures WorkloadPart(p, c) == p.workloadWeight - Share(c.load, c.agent.capacity, p.workloadWeight)
  {
    FromOne(c.load as real / c.agent.capacity as real, p.workloadWeight);
  }

  /** Each conversation costs an agent the same share of the workload weight. */
  lemma EachConversationCosts(p: Policy, c: Candidate, preferred: seq<string>, language: string)
    requires c.agent.capacity >= 1
    ensures Exact(p, c.(load := c.load + 1), preferred, language)
            == Exact(p, c, preferred, language) - p.workloadWeight / c.agent.capacity as real
  {
    var d := c.(load := c.load + 1);
    LoadShare(p, c);
    LoadShare(p, d);
    Shares(c.load, c.agent.capacity, p.workloadWeight);
    LoadsTell(p, c, d, preferred, language);
  }

  /** Of two agents alike but for their loads the less loaded one has the larger score. */
  lemma LessLoadScoresMore(p: Policy, c: Candidate, d: Candidate, preferred: seq<string>, language: string)
    requires c.agent.capacity == d.agent.capacity >= 1 && p.workloadWeight > 0.0
    requires c.agent.skills == d.agent.skills && c.agent.online == d.agent.online
    ensures c.load < d.load <==> Exact(p, c, preferred, language) > Exact(p, d, preferred, language)
  {
    LoadShare(p, c);
    LoadShare(p, d);
    if c.load <= d.load {
      ShareSteps(d.load, c.load, c.agent.capacity, p.workloadWeight);
    } else {
      ShareSteps(c.load, d.load, c.agent.capacity, p.workloadWeight);
    }
    LoadsTell(p, c, d, preferred, language);
  }

  lemma LoadsTell(p: Policy, c: Candidate, d: Candidate, preferred: seq<string>, language: string)
    requires c.agent.skills == d.agent.skills && c.agent.online == d.agent.online
    ensures Exact(p, c, preferred, language) - Exact(p, d, preferred, language)
            == WorkloadPart(p, c) - WorkloadPart(p, d)
  {
  }

  /** Where nothing is asked for, an idle agent has the whole workload weight, a full one
      nothing of it, and being online earns the bonus. */
  lemma BareScore(p: Policy, a: Agent)
    requires a.capacity >= 1
    ensures var bonus := if p.preferOnline && a.online then p.onlineBonus else 0.0;
            && Exact(p, Candidate(a, 0), [], "") == p.workloadWeight + bonus
            && Exact(p, Candidate(a, a.capacity), [], "") == bonus
  {
  }

  /** `c2` is `c` with one more skill. */
  predicate LearnsTag(c: Candidate, c2: Candidate, tag: string) {
    && c.agent.skills.Some? && tag !in c.agent.skills.value.tags
    && c2 == c.(agent := c.agent.(skills := Some(c.agent.skills.value.(tags := c.agent.skills.value.tags + {tag}))))
  }

  lemma OneMoreWanted(c: Candidate, c2: Candidate, tag: string, preferred: seq<string>)
    requires LearnsTag(c, c2, tag)
    ensures Wanted(c2, preferred) == Wanted(c, preferred) + if tag in preferred then 1 else 0
  {
    assert SetOf(preferred) * Tags(c2) == SetOf(preferred) * Tags(c) + if tag in preferred then {tag} else {};
  }

  lemma OneMoreShare(p: Policy, c: Candidate, c2: Candidate, tag: string, preferred: seq<string>)
    requires LearnsTag(c, c2, tag)
    ensures SkillsPart(p, c2, preferred)
            == SkillsPart(p, c, preferred) + if tag in preferred then p.skillsWeight / |preferred| as real else 0.0
  {
    if preferred != [] {
      OneMoreWanted(c, c2, tag, preferred);
      SkillsByCount(p, c, preferred);
      SkillsByCount(p, c2, preferred);
      Shares(Wanted(c, preferred), |preferred|, p.skillsWeight);
    }
  }

  /** One more skill earns its share of the skills weight if it is asked for, else nothing. */
  lemma OneMoreTag(p: Policy, c: Candidate, c2: Candidate, tag: string, preferred: seq<string>, language: string)
    requires LearnsTag(c, c2, tag)
    ensures Exact(p, c2, preferred, language) == Exact(p, c, preferred, language)
              + if tag in preferred then p.skillsWeight / |preferred| as real else 0.0
  {
    OneMoreShare(p, c, c2, tag, preferred);
    SkillsTell(p, c, c2, preferred, language, SkillsPart(p, c2, preferred) - SkillsPart(p, c, preferred));
  }

  lemma SkillsTell(p: Policy, c: Candidate, c2: Candidate, preferred: seq<string>, language: string, gap: real)
    requires c2 == c.(agent := c.agent.(skills := c2.agent.skills))
    requires Speaks(c2, language) == Speaks(c, language)
    requires SkillsPart(p, c2, preferred) == SkillsPart(p, c, preferred) + gap
    ensures Exact(p, c2, preferred, language) == Exact(p, c, preferred, language) + gap
  {
    assert WorkloadPart(p, c2) == WorkloadPart(p, c);
  }

  lemma Shares(m: nat, n: nat, w: real)
    requires n > 0
    ensures Share(m + 1, n, w) == Share(m, n, w) + w / n as real
  {
    var k := n as real;
    assert (m + 1) as real / k == m as real / k + 1.0 / k;
    assert (1.0 / k) * w == w / k;
  }

  /** `c2` is `c` with one more language. */
  predicate LearnsLanguage(c: Candidate, c2: Candidate, spoken: string) {
    && c.agent.skills.Some? && spoken !in c.agent.skills.value.languages
    && c2 == c.(agent := c.agent.(skills :=
                  Some(c.agent.skills.value.(languages := c.agent.skills.value.languages + {spoken}))))
  }

  lemma SameParts(p: Policy, c: Candidate, c2: Candidate, preferred: seq<string>)
    requires c2.load == c.load && c2.agent.capacity == c.agent.capacity
    requires c.agent.skills.Some? && c2.agent.skills.Some?
    requires c2.agent.skills.value.tags == c.agent.skills.value.tags
    ensures WorkloadPart(p, c2) == WorkloadPart(p, c) && SkillsPart(p, c2, preferred) == SkillsPart(p, c, preferred)
  {
  }

  /** One more language earns 20 if it is the one asked for, else nothing. */
  lemma OneMoreLanguage(p: Policy, c: Candidate, c2: Candidate, spoken: string, preferred: seq<string>,
                        language: string)
    requires LearnsLanguage(c, c2, spoken)
    ensures Exact(p, c2, preferred, language) == Exact(p, c, preferred, language)
              + if language != "" && spoken == language then 20.0 else 0.0
  {
    SameParts(p, c, c2, preferred);
    ExactIsSum(p, c, preferred, language);
    ExactIsSum(p, c2, preferred, language);
  }

  /** An agent without a skills record scores as one with an empty record. */
  lemma NoSkillsRecord(p: Policy, c: Candidate, preferred: seq<string>, language: string)
    requires c.agent.skills.None?
    ensures Exact(p, c, preferred, language)
            == Exact(p, c.(agent := c.agent.(skills := Some(Skills({}, {})))), preferred, language)
  {
    if preferred != [] {
      assert SetOf(preferred) * {} == {};
    }
  }

  /** Being online earns the bonus if the policy prefers it, else nothing. */
  lemma GoingOnline(p: Policy, c: Candidate, preferred: seq<string>, language: string)
    requires !c.agent.online
    ensures Exact(p, c.(agent := c.agent.(online := true)), preferred, language)
            == Exact(p, c, preferred, language) + if p.preferOnline then p.onlineBonus else 0.0
  {
  }

  /** What the default weights come to: 40 for being idle, 10 for being online, 30 for all of
      the skills and 20 for the language, 100 in all. */
  lemma DefaultWeights(a: Agent, preferred: seq<string>, language: string)
    requires a.capacity >= 1 && preferred != [] && language != "" && a.skills.Some? && a.online
    requires SetOf(preferred) <= a.skills.value.tags && |SetOf(preferred)| == |preferred|
    requires language in a.skills.value.languages
    ensures Exact(DEFAULT_POLICY, Candidate(a.(online := false), 0), [], "") == 40.0
    ensures Exact(DEFAULT_POLICY, Candidate(a, 0), [], "") == 50.0
    ensures Exact(DEFAULT_POLICY, Candidate(a, 0), preferred, "") == 80.0
    ensures Exact(DEFAULT_POLICY, Candidate(a, 0), preferred, language) == 100.0
  {
    BareScore(DEFAULT_POLICY, a);
    BareScore(DEFAULT_POLICY, a.(online := false));
    assert SetOf(preferred) * a.skills.value.tags == SetOf(preferred);
    WholeShare(|preferred|, 30.0);
    LoadShare(DEFAULT_POLICY, Candidate(a, 0));
    assert Share(0, a.capacity, 40.0) == 0.0;
    assert SkillsPart(DEFAULT_POLICY, Candidate(a, 0), preferred) == 30.0;
  }

  lemma WholeShare(n: nat, w: real)
    requires n > 0
    ensures Share(n, n, w) == w
  {
    assert n as real / n as real == 1.0;
  }

  /** `c` is at least as good as `d` in all four respects. */
  predicate AsGood(p: Policy, c: Candidate, d: Candidate, preferred: seq<string>, language: string) {
    && c.agent.capacity == d.agent.capacity && c.load <= d.load
    && Wanted(d, preferred) <= Wanted(c, preferred)
    && (Speaks(d, language) ==> Speaks(c, language))
    && (Favoured(p, d) ==> Favoured(p, c))
  }

  /** And in one of them it is ahead, where a step of it is worth more than rounding hides. */
  predicate ClearlyAhead(p: Policy, c: Candidate, d: Candidate, preferred: seq<string>, language: string) {
    || (c.load < d.load && p.workloadWeight > 0.01 * c.agent.capacity as real)
    || (Wanted(c, preferred) > Wanted(d, preferred) && p.skillsWeight > 0.01 * |preferred| as real)
    || (Speaks(c, language) && !Speaks(d, language))
    || (Favoured(p, c) && !Favoured(p, d) && p.onlineBonus > 0.01)
  }

  /** One `n`-th of `w` more for every step from `k` to `m`. */
  lemma {:induction false} ShareSteps(m: nat, k: nat, n: nat, w: real)
    requires k <= m && 0 < n && 0.0 <= w
    ensures Share(m, n, w) >= Share(k, n, w)
    ensures k < m && w > 0.0 ==> Share(m, n, w) > Share(k, n, w)
    ensures k < m && w > 0.01 * n as real ==> Share(m, n, w) > Share(k, n, w) + 0.01
    decreases m
  {
    if k < m {
      ShareSteps(m - 1, k, n, w);
      Shares(m - 1, n, w);
      OneShare(n as real, w);
    }
  }

  lemma OneShare(r: real, w: real)
    requires 0.0 < r && 0.0 <= w
    ensures w / r >= 0.0 && (w > 0.0 ==> w / r > 0.0) && (w > 0.01 * r ==> w / r > 0.01)
  {
  }

  lemma WorkloadAhead(p: Policy, c: Candidate, d: Candidate)
    requires Sane(p) && c.agent.capacity == d.agent.capacity >= 1 && c.load <= d.load
    ensures WorkloadPart(p, c) >= WorkloadPart(p, d)
    ensures c.load < d.load && p.workloadWeight > 0.01 * c.agent.capacity as real ==>
              WorkloadPart(p, c) > WorkloadPart(p, d) + 0.01
  {
    var n, w := c.agent.capacity, p.workloadWeight;
    ShareSteps(d.load, c.load, n, w);
    LoadShare(p, c);
    LoadShare(p, d);
  }

  lemma FromOne(x: real, w: real)
    ensures (1.0 - x) * w == w - x * w
  {
  }

  lemma SkillsByCount(p: Policy, c: Candidate, preferred: seq<string>)
    requires preferred != []
    ensures SkillsPart(p, c, preferred) == Share(Wanted(c, preferred), |preferred|, p.skillsWeight)
  {
    if c.agent.skills.None? {
      assert SetOf(preferred) * {} == {};
    }
  }

  lemma NothingWanted(c: Candidate)
    ensures Wanted(c, []) == 0
  {
    assert SetOf([]) * Tags(c) == {};
  }

  lemma SkillsAhead(p: Policy, c: Candidate, d: Candidate, preferred: seq<string>)
    requires Sane(p) && Wanted(d, preferred) <= Wanted(c, preferred)
    ensures SkillsPart(p, c, preferred) >= SkillsPart(p, d, preferred)
    ensures Wanted(c, preferred) > Wanted(d, preferred) && p.skillsWeight > 0.01 * |preferred| as real ==>
              SkillsPart(p, c, preferred) > SkillsPart(p, d, preferred) + 0.01
  {
    if preferred == [] {
      NothingWanted(c);
      NothingWanted(d);
    } else {
      SkillsByCount(p, c, preferred);
      SkillsByCount(p, d, preferred);
      ShareSteps(Wanted(c, preferred), Wanted(d, preferred), |preferred|, p.skillsWeight);
    }
  }

  lemma ExactIsSum(p: Policy, c: Candidate, preferred: seq<string>, language: string)
    ensures Exact(p, c, preferred, language)
            == WorkloadPart(p, c) + SkillsPart(p, c, preferred) + (if Speaks(c, language) then 20.0 else 0.0)
               + if Favoured(p, c) then p.onlineBonus else 0.0
  {
  }

  lemma AheadMeansMore(p: Policy, c: Candidate, d: Candidate, preferred: seq<string>, language: string)
    requires Sane(p) && c.agent.capacity >= 1
    requires AsGood(p, c, d, preferred, language) && ClearlyAhead(p, c, d, preferred, language)
    ensures Exact(p, c, preferred, language) > Exact(p, d, preferred, language) + 0.01
  {
    WorkloadAhead(p, c, d);
    SkillsAhead(p, c, d, preferred);
    ExactIsSum(p, c, preferred, language);
    ExactIsSum(p, d, preferred, language);
  }

  // ---------- Scoring fallback ----------

  datatype Scored = Scored(index: nat, score: real)

  /** Python's stable sort by descending score. */
  function SortDesc(s: seq<Scored>): seq<Scored> {
    if s == [] then [] else Insert(SortDesc(s[..|s| - 1]), s[|s| - 1])
  }

  function Insert(s: seq<Scored>, x: Scored): seq<Scored> {
    if s == [] || s[0].score < x.score then [x] + s else [s[0]] + Insert(s[1..], x)
  }

  /** The first of the best: all that is read off the sorted list. */
  function First(s: seq<Scored>): (r: Option<Scored>)
    ensures r.None? <==> s == []
  {
    if s == [] then None
    else
      var best, x := First(s[..|s| - 1]), s[|s| - 1];
      if best.None? || best.value.score < x.score then Some(x) else best
  }

  lemma {:induction false} SortHeadIsFirst(s: seq<Scored>)
    ensures s != [] ==> SortDesc(s) != [] && First(s) == Some(SortDesc(s)[0])
  {
    if |s| > 1 {
      SortHeadIsFirst(s[..|s| - 1]);
    }
  }

  function Rating(p: Policy, preferred: seq<string>, language: string): Candidate -> real {
    (c: Candidate) => Score(p, c, preferred, language)
  }

  /** The scored candidates: those with room, in query order. */
  function ScoredOf(cs: seq<Candidate>, rate: Candidate -> real): seq<Scored> {
    if cs == [] then []
    else
      var k := |cs| - 1;
      ScoredOf(cs[..k], rate) + if HasRoom(cs[k]) then [Scored(k, rate(cs[k]))] else []
  }

  function BestPick(cs: seq<Candidate>, rate: Candidate -> real): Option<Scored> {
    First(ScoredOf(cs, rate))
  }

  /** Nobody is picked exactly when everybody is full; otherwise it is the first of the
      best rounded scores among the agents that have room. */
  ghost predicate IsBest(cs: seq<Candidate>, rate: Candidate -> real, r: Option<Scored>) {
    && (r.None? <==> forall c :: c in cs ==> !HasRoom(c))
    && (r.Some? ==>
          && r.value.index < |cs| && HasRoom(cs[r.value.index]) && r.value.score == rate(cs[r.value.index])
          && forall j :: 0 <= j < |cs| && HasRoom(cs[j]) ==>
               rate(cs[j]) <= r.value.score && (j < r.value.index ==> rate(cs[j]) < r.value.score))
  }

  lemma {:induction false} BestPickIsBest(cs: seq<Candidate>, rate: Candidate -> real)
    ensures IsBest(cs, rate, BestPick(cs, rate))
  {
    if cs != [] {
      var k := |cs| - 1;
      BestPickIsBest(cs[..k], rate);
      assert cs == cs[..k] + [cs[k]];
      var before := ScoredOf(cs[..k], rate);
      if HasRoom(cs[k]) {
        assert (before + [Scored(k, rate(cs[k]))])[..|before|] == before;
      } else {
        assert ScoredOf(cs, rate) == before;
      }
      BestGrows(cs[..k], cs[k], rate, First(before), BestPick(cs, rate));
    }
  }

  lemma BestGrows(cs: seq<Candidate>, c: Candidate, rate: Candidate -> real, r: Option<Scored>, r': Option<Scored>)
    requires IsBest(cs, rate, r)
    requires r' == if HasRoom(c) && (r.None? || r.value.score < rate(c)) then Some(Scored(|cs|, rate(c))) else r
    ensures IsBest(cs + [c], rate, r')
  {
  }

  /** Rounding can hide at most a hundredth: no agent with room is better than the chosen
      one by more than 0.01 before rounding. */
  lemma ChosenIsNearlyBest(p: Policy, cs: seq<Candidate>, preferred: seq<string>, language: string, j: nat)
    requires j < |cs| && HasRoom(cs[j])
    ensures var r := BestPick(cs, Rating(p, preferred, language));
            r.Some? && r.value.index < |cs| &&
            Exact(p, cs[j], preferred, language) - 0.01 <= Exact(p, cs[r.value.index], preferred, language)
  {
    BestPickIsBest(cs, Rating(p, preferred, language));
    assert cs[j] in cs;
    var r := BestPick(cs, Rating(p, preferred, language)).value;
    RoundingIsClose(Exact(p, cs[j], preferred, language));
    RoundingIsClose(Exact(p, cs[r.index], preferred, language));
  }

  /** `_scoring_fallback` */
  method ScoringFallback(p: Policy, db: Db, preferred: seq<string>, language: string)
    returns (id: Option<string>, score: Option<real>)
    ensures var cs, r := Candidates(db), BestPick(Candidates(db), Rating(p, preferred, language));
            if r.Some? && r.value.index < |cs|
            then id == Some(cs[r.value.index].agent.id) && score == Some(r.value.score)
            else id == None && score == None
  {
    var agents := Eligible(db.agents);
    if agents == [] {
      return None, None;
    }
    ghost var cs := Candidates(db);
    var scored: seq<Scored> := [];
    for i := 0 to |agents|
      invariant scored == ScoredOf(cs[..i], Rating(p, preferred, language))
    {
      assert cs[..i + 1][..i] == cs[..i];
      var load := Load(db.convs, agents[i].id);
      if load >= agents[i].capacity {
        continue;
      }
      scored := scored + [Scored(i, Score(p, Candidate(agents[i], load), preferred, language))];
    }
    assert cs[..|agents|] == cs;
    if scored == [] {
      return None, None;
    }
    SortHeadIsFirst(scored);
    BestPickIsBest(cs, Rating(p, preferred, language));
    var best := SortDesc(scored)[0];
    id, score := Some(agents[best.index].id), Some(best.score);
  }

  // ---------- assign_conversation ----------

  /** The sticky agent is used only when active, on shift and below capacity. */
  predicate StickyOk(p: Policy, db: Db, previous: Option<string>) {
    p.sticky && previous.Some? &&
    var a := Find(db.agents, previous.value);
    a.Some? && a.value.onShift && Load(db.convs, previous.value) < a.value.capacity
  }

  function Assign(p: Policy, db: Db, previous: Option<string>, preferred: seq<string>, language: string): Decision {
    var prev := if p.sticky then previous else None;
    if StickyOk(p, db, previous) then Decision(previous, prev, "relationship", Some(100.0))
    else Fallen(p, Candidates(db), prev, preferred, language)
  }

  /** The fallback strategy, on the eligible agents and the loads read for them. */
  function Fallen(p: Policy, cs: seq<Candidate>, prev: Option<string>, preferred: seq<string>, language: string):
      Decision
  {
    match p.fallback
    case Scoring =>
      var r := BestPick(cs, Rating(p, preferred, language));
      if r.Some? && r.value.index < |cs|
      then Decision(Some(cs[r.value.index].agent.id), prev, "scoring", Some(r.value.score))
      else Decision(None, prev, "none", None)
    case RoundRobin => LeastDecision(cs, prev, "round_robin")
    case Team(team) => if team.Some? then LeastDecision(cs, prev, "team") else Decision(None, prev, "none", None)
    case Queue => Decision(None, prev, "queue", None)
  }

  function LeastDecision(cs: seq<Candidate>, prev: Option<string>, how: string): Decision {
    var i := LeastPick(cs);
    if i.Some? then Decision(Some(cs[i.value].agent.id), prev, how, None) else Decision(None, prev, "none", None)
  }

  class RoutingEngine {
    const policy: Policy
    var decisions: seq<Decision>

    constructor (policy: Policy)
      ensures this.policy == policy && decisions == []
    {
      this.policy := policy;
      decisions := [];
    }

    /** Chooses an agent and records the decision; the caller does the assignment.
        `previous` is the agent of the contact's latest assigned conversation. */
    method AssignConversation(db: Db, previous: Option<string>, preferred: seq<string>, language: string)
      returns (r: Option<string>)
      modifies this
      ensures decisions == old(decisions) + [Assign(policy, db, previous, preferred, language)]
      ensures r == Assign(policy, db, previous, preferred, language).agent
    {
      var how, prev, score := "none", None, None;
      r := None;
      if policy.sticky {
        prev := previous;
        if prev.Some? {
          var agent := Find(db.agents, prev.value);
          if agent.Some? && agent.value.onShift {
            if Load(db.convs, prev.value) < agent.value.capacity {
              r, how, score := prev, "relationship", Some(100.0);
            }
          }
        }
      }
      if r.None? {
        match policy.fallback
        case Scoring =>
          r, score := ScoringFallback(policy, db, preferred, language);
          if r.Some? {
            how := "scoring";
          }
        case RoundRobin =>
          r := RoundRobinFallback(db);
          if r.Some? {
            how := "round_robin";
          }
        case Team(team) =>
          if team.Some? {
            r := RoundRobinFallback(db);
            if r.Some? {
              how := "team";
            }
          }
        case Queue =>
          how := "queue";
      }
      decisions := decisions + [Decision(r, prev, how, score)];
    }
  }

  /** An active agent of the company below its capacity. */
  ghost predicate Available(db: Db, id: string) {
    exists a :: a in db.agents && a.active && a.id == id && Load(db.convs, id) < a.capacity
  }

  lemma CandidateAt(db: Db, i: nat)
    requires i < |Candidates(db)|
    ensures var c := Candidates(db)[i];
            c.agent in db.agents && c.agent.active && c.load == Load(db.convs, c.agent.id)
    ensures HasRoom(Candidates(db)[i]) ==> Available(db, Candidates(db)[i].agent.id)
  {
  }

  lemma LeastHadRoom(cs: seq<Candidate>, prev: Option<string>, how: string)
    ensures var r := LeastDecision(cs, prev, how).agent;
            r.Some? ==> exists i :: 0 <= i < |cs| && HasRoom(cs[i]) && r == Some(cs[i].agent.id)
  {
    LeastPickIsLeast(cs);
  }

  lemma BestHadRoom(cs: seq<Candidate>, rate: Candidate -> real)
    ensures BestPick(cs, rate).Some? ==>
              BestPick(cs, rate).value.index < |cs| && HasRoom(cs[BestPick(cs, rate).value.index])
  {
    BestPickIsBest(cs, rate);
  }

  lemma FallenHadRoom(p: Policy, cs: seq<Candidate>, prev: Option<string>, preferred: seq<string>, language: string)
    ensures var r := Fallen(p, cs, prev, preferred, language).agent;
            r.Some? ==> exists i :: 0 <= i < |cs| && HasRoom(cs[i]) && r == Some(cs[i].agent.id)
  {
    match p.fallback
    case Scoring => BestHadRoom(cs, Rating(p, preferred, language));
    case RoundRobin => LeastHadRoom(cs, prev, "round_robin");
    case Team(_) => LeastHadRoom(cs, prev, "team");
    case Queue =>
  }

  /** Whoever is chosen, by whichever strategy, is active and has room. */
  lemma ChosenHasRoom(p: Policy, db: Db, previous: Option<string>, preferred: seq<string>, language: string)
    ensures var r := Assign(p, db, previous, preferred, language).agent;
            r.Some? ==> Available(db, r.value)
  {
    var cs, prev := Candidates(db), if p.sticky then previous else None;
    var r := Fallen(p, cs, prev, preferred, language).agent;
    FallenHadRoom(p, cs, prev, preferred, language);
    if r.Some? {
      var i :| 0 <= i < |cs| && HasRoom(cs[i]) && r == Some(cs[i].agent.id);
      CandidateAt(db, i);
    }
  }

  lemma EveryActiveIsCandidate(db: Db, a: Agent)
    requires a in db.agents && a.active
    ensures Candidate(a, Load(db.convs, a.id)) in Candidates(db)
  {
  }

  /** Under the scoring or round_robin fallback the engine gives up exactly when every
      active agent is full. */
  lemma NobodyIffAllFull(p: Policy, db: Db, previous: Option<string>, preferred: seq<string>, language: string)
    requires p.fallback == Scoring || p.fallback == RoundRobin
    ensures Assign(p, db, previous, preferred, language).agent.None?
            <==> forall a :: a in db.agents && a.active ==> Load(db.convs, a.id) >= a.capacity
  {
    var cs := Candidates(db);
    BestPickIsBest(cs, Rating(p, preferred, language));
    LeastPickIsLeast(cs);
    ChosenHasRoom(p, db, previous, preferred, language);
    if Assign(p, db, previous, preferred, language).agent.None? {
      forall a | a in db.agents && a.active
        ensures Load(db.convs, a.id) >= a.capacity
      {
        EveryActiveIsCandidate(db, a);
      }
    }
  }

  // ---------- What a decision says ----------

  /** The agent a returning contact had last, on shift and with room. */
  ghost predicate CanStick(p: Policy, db: Db, previous: Option<string>) {
    p.sticky && exists a :: a in db.agents && a.active && a.onShift && previous == Some(a.id)
                            && Load(db.convs, a.id) < a.capacity
  }

  lemma StickyIsExact(p: Policy, db: Db, previous: Option<string>)
    requires UniqueIds(db)
    ensures StickyOk(p, db, previous) <==> CanStick(p, db, previous)
  {
    if p.sticky && previous.Some? {
      var found := Find(db.agents, previous.value);
      if StickyOk(p, db, previous) {
        assert found.value in db.agents;
      }
      if CanStick(p, db, previous) {
        var a :| a in db.agents && a.active && a.onShift && previous == Some(a.id)
                 && Load(db.convs, a.id) < a.capacity;
        assert found.Some? && found.value in db.agents;
      }
    }
  }

  /** A sticky assignment is made exactly when it can be, before any fallback, with score
      100; the queue and a team that is not set assign nobody. The previous agent is on
      record whenever the policy looks for one. */
  lemma StickyComesFirst(p: Policy, db: Db, previous: Option<string>, preferred: seq<string>, language: string)
    requires UniqueIds(db)
    ensures var d := Assign(p, db, previous, preferred, language);
            && d.previous == (if p.sticky then previous else None)
            && (d.how == "relationship" <==> CanStick(p, db, previous))
            && (CanStick(p, db, previous) ==> d.agent == previous && d.score == Some(100.0))
            && (!CanStick(p, db, previous) && p.fallback == Queue ==>
                  d.agent.None? && d.score.None? && d.how == "queue")
            && (!CanStick(p, db, previous) && p.fallback == Team(None) ==>
                  d.agent.None? && d.score.None? && d.how == "none")
  {
    StickyIsExact(p, db, previous);
  }

  /** `a` is active and has room. */
  ghost predicate Takes(db: Db, a: Agent) {
    a in db.agents && a.active && Load(db.convs, a.id) < a.capacity
  }

  lemma TakersAreCandidates(db: Db)
    ensures forall c :: c in Candidates(db) && HasRoom(c) ==> Takes(db, c.agent) && c.load == Load(db.convs, c.agent.id)
    ensures forall a :: Takes(db, a) ==> Candidate(a, Load(db.convs, a.id)) in Candidates(db)
  {
    forall a | Takes(db, a)
      ensures Candidate(a, Load(db.convs, a.id)) in Candidates(db)
    {
      EveryActiveIsCandidate(db, a);
    }
    forall c | c in Candidates(db) && HasRoom(c)
      ensures Takes(db, c.agent) && c.load == Load(db.convs, c.agent.id)
    {
      var i :| 0 <= i < |Candidates(db)| && Candidates(db)[i] == c;
      CandidateAt(db, i);
    }
  }

  ghost predicate LeastLoaded(db: Db, a: Agent) {
    Takes(db, a) && forall b :: Takes(db, b) ==> Load(db.convs, a.id) <= Load(db.convs, b.id)
  }

  lemma LeastTakes(db: Db, cs: seq<Candidate>)
    requires cs == Candidates(db)
    ensures var r := LeastPick(cs);
            if r.None? then forall a :: !Takes(db, a) else LeastLoaded(db, cs[r.value].agent)
  {
    TakersAreCandidates(db);
    LeastPickIsLeast(cs);
    var r := LeastPick(cs);
    if r.Some? {
      assert cs[r.value] in cs;
    }
  }

  /** Round robin, for a team too, assigns a least loaded agent that has room. */
  lemma RoundRobinDecides(p: Policy, db: Db, previous: Option<string>, preferred: seq<string>, language: string)
    requires UniqueIds(db) && !CanStick(p, db, previous)
    requires p.fallback.RoundRobin? || (p.fallback.Team? && p.fallback.team.Some?)
    ensures var d := Assign(p, db, previous, preferred, language);
            && d.score.None?
            && (d.agent.None? ==> d.how == "none" && forall a :: !Takes(db, a))
            && (d.agent.Some? ==>
                  && d.how == (if p.fallback.RoundRobin? then "round_robin" else "team")
                  && exists a :: LeastLoaded(db, a) && d.agent == Some(a.id))
  {
    StickyIsExact(p, db, previous);
    LeastTakes(db, Candidates(db));
  }

  /** Scoring assigns an agent that has room and no lower score than any other that has. */
  lemma ScoringDecides(p: Policy, db: Db, previous: Option<string>, preferred: seq<string>, language: string)
    requires UniqueIds(db) && !CanStick(p, db, previous) && p.fallback.Scoring?
    ensures var d := Assign(p, db, previous, preferred, language);
            && (d.agent.None? ==> d.how == "none" && d.score.None? && forall a :: !Takes(db, a))
            && (d.agent.Some? ==>
                  && d.how == "scoring" && d.score.Some?
                  && exists a :: ScoresBest(p, db, preferred, language, a, d.score.value) && d.agent == Some(a.id))
  {
    StickyIsExact(p, db, previous);
    TakersAreCandidates(db);
    var cs := Candidates(db);
    BestPickIsBest(cs, Rating(p, preferred, language));
    var r := BestPick(cs, Rating(p, preferred, language));
    if r.Some? {
      assert cs[r.value.index] in cs;
      var a := cs[r.value.index].agent;
      assert ScoresBest(p, db, preferred, language, a, r.value.score) by {
        assert forall b :: Takes(db, b) ==> Candidate(b, Load(db.convs, b.id)) in cs;
      }
    }
  }

  ghost predicate ScoresBest(p: Policy, db: Db, preferred: seq<string>, language: string, a: Agent, score: real) {
    && Takes(db, a) && score == Score(p, Candidate(a, Load(db.convs, a.id)), preferred, language)
    && forall b :: Takes(db, b) ==> Score(p, Candidate(b, Load(db.convs, b.id)), preferred, language) <= score
  }

  /** So no agent that has room, is as good as the chosen one in every respect and clearly
      ahead in one is passed over for it. */
  lemma BetterIsNotPassedOver(p: Policy, db: Db, previous: Option<string>, preferred: seq<string>, language: string,
                              b: Agent)
    requires UniqueIds(db) && !CanStick(p, db, previous) && p.fallback.Scoring? && Sane(p) && Takes(db, b)
    ensures var d := Assign(p, db, previous, preferred, language).agent;
            && d.Some?
            && forall a :: a in db.agents && d == Some(a.id) ==>
                 var ca, cb := Candidate(a, Load(db.convs, a.id)), Candidate(b, Load(db.convs, b.id));
                 !(AsGood(p, cb, ca, preferred, language) && ClearlyAhead(p, cb, ca, preferred, language))
  {
    var d := Assign(p, db, previous, preferred, language);
    ScoringDecides(p, db, previous, preferred, language);
    forall a | a in db.agents && d.agent == Some(a.id)
      ensures var ca, cb := Candidate(a, Load(db.convs, a.id)), Candidate(b, Load(db.convs, b.id));
              !(AsGood(p, cb, ca, preferred, language) && ClearlyAhead(p, cb, ca, preferred, language))
    {
      NotAhead(p, db, preferred, language, a, b, d.score.value);
    }
  }

  lemma NotAhead(p: Policy, db: Db, preferred: seq<string>, language: string, a: Agent, b: Agent, score: real)
    requires Sane(p) && ScoresBest(p, db, preferred, language, a, score) && Takes(db, b)
    ensures var ca, cb := Candidate(a, Load(db.convs, a.id)), Candidate(b, Load(db.convs, b.id));
            !(AsGood(p, cb, ca, preferred, language) && ClearlyAhead(p, cb, ca, preferred, language))
  {
    var ca, cb := Candidate(a, Load(db.convs, a.id)), Candidate(b, Load(db.convs, b.id));
    if AsGood(p, cb, ca, preferred, language) && ClearlyAhead(p, cb, ca, preferred, language) {
      AheadMeansMore(p, cb, ca, preferred, language);
      RoundingIsClose(Exact(p, ca, preferred, language));
      RoundingIsClose(Exact(p, cb, preferred, language));
    }
  }

  // ---------- Runs: arrivals, re-routings, closures ----------

  datatype Event =
    | Arrive(key: string, contact: string, created: int)  // a new open conversation, routed at once
    | Reroute(key: string)                                // an existing one routed again
    | Close(key: string)

  /** One routing request carries its own policy, history and wishes. */
  datatype Request = Request(
    event: Event, policy: Policy, previous: Option<string>, preferred: seq<string>, language: string)

  function Choice(db: Db, r: Request): Option<string> {
    Assign(r.policy, db, r.previous, r.preferred, r.language).agent
  }

  function Put(db: Db, key: string, c: Conversation): Db {
    db.(convs := db.convs[key := c])
  }

  function Routed(db: Db, key: string, r: Request): Db
    requires key in db.convs
  {
    var a := Choice(db, r);
    if a.Some? then Put(db, key, db.convs[key].(agent := a)) else db
  }

  function Next(db: Db, r: Request): Db {
    match r.event
    case Arrive(key, contact, created) =>
      if key in db.convs then db
      else Routed(Put(db, key, Conversation(contact, None, Open, created)), key, r)
    case Reroute(key) => if key in db.convs then Routed(db, key, r) else db
    case Close(key) => if key in db.convs then Put(db, key, db.convs[key].(status := Closed)) else db
  }

  function Run(db: Db, rs: seq<Request>): Db {
    if rs == [] then db else Next(Run(db, rs[..|rs| - 1]), rs[|rs| - 1])
  }

  ghost predicate UniqueIds(db: Db) {
    forall a, b :: a in db.agents && b in db.agents && a.id == b.id ==> a == b
  }

  ghost predicate WithinCapacity(db: Db) {
    forall a :: a in db.agents ==> Load(db.convs, a.id) <= a.capacity
  }

  /** Writing one conversation moves each agent's load by at most that conversation. */
  lemma LoadAfterPut(db: Db, key: string, c: Conversation, id: string)
    ensures var before := if key in db.convs && Counts(db.convs[key], id) then 1 else 0;
            var after := if Counts(c, id) then 1 else 0;
            Load(Put(db, key, c).convs, id) == Load(db.convs, id) - before + after
  {
    AgreeElsewhere(Assigned(db.convs, id), Assigned(Put(db, key, c).convs, id), key);
  }

  lemma AgreeElsewhere<T>(s: set<T>, t: set<T>, x: T)
    requires forall y :: y != x ==> (y in s <==> y in t)
    ensures |s| - (if x in s then 1 else 0) == |t| - (if x in t then 1 else 0)
  {
    assert s - {x} == t - {x};
    assert |s - {x}| == |s| - (if x in s then 1 else 0);
    assert |t - {x}| == |t| - (if x in t then 1 else 0);
  }

  /** A new conversation is stored with the agent chosen for it, whose load grows by one. */
  lemma ArrivalIsStored(db: Db, r: Request, id: string)
    requires r.event.Arrive? && r.event.key !in db.convs
    ensures var key, db' := r.event.key, Next(db, r);
            var a := Choice(Put(db, key, Conversation(r.event.contact, None, Open, r.event.created)), r);
            && db'.agents == db.agents && db'.convs.Keys == db.convs.Keys + {key}
            && db'.convs[key] == Conversation(r.event.contact, a, Open, r.event.created)
            && (forall k :: k in db.convs ==> db'.convs[k] == db.convs[k])
            && Load(db'.convs, id) == Load(db.convs, id) + if a == Some(id) then 1 else 0
  {
    var key := r.event.key;
    var c := Conversation(r.event.contact, None, Open, r.event.created);
    var db1 := Put(db, key, c);
    LoadAfterPut(db, key, c, id);
    LoadAfterPut(db1, key, c.(agent := Choice(db1, r)), id);
  }

  /** Routing an existing conversation again moves it to the agent chosen, if there is one,
      and nothing else of it; closing it takes it off its agent. */
  lemma LaterStepsMoveOne(db: Db, r: Request, id: string)
    requires (r.event.Reroute? || r.event.Close?) && r.event.key in db.convs
    ensures var key, db', c := r.event.key, Next(db, r), db.convs[r.event.key];
            var moved := r.event.Reroute? && Choice(db, r).Some?;
            && db'.agents == db.agents && db'.convs.Keys == db.convs.Keys
            && db'.convs[key] == (if moved then c.(agent := Choice(db, r))
                                  else if r.event.Close? then c.(status := Closed) else c)
            && (forall k :: k in db.convs && k != key ==> db'.convs[k] == db.convs[k])
            && (r.event.Close? ==> Load(db'.convs, id) == Load(db.convs, id) - if Counts(c, id) then 1 else 0)
  {
    if r.event.Close? {
      LoadAfterPut(db, r.event.key, db.convs[r.event.key].(status := Closed), id);
    }
  }

  lemma RoutedKeepsCapacity(db: Db, key: string, r: Request)
    requires UniqueIds(db) && WithinCapacity(db) && key in db.convs
    ensures WithinCapacity(Routed(db, key, r))
  {
    ChosenHasRoom(r.policy, db, r.previous, r.preferred, r.language);
    var choice := Choice(db, r);
    if choice.Some? {
      var c := db.convs[key].(agent := choice);
      forall a | a in db.agents
        ensures Load(Put(db, key, c).convs, a.id) <= a.capacity
      {
        LoadAfterPut(db, key, c, a.id);
      }
    }
  }

  lemma NextKeepsCapacity(db: Db, r: Request)
    requires UniqueIds(db) && WithinCapacity(db)
    ensures WithinCapacity(Next(db, r)) && Next(db, r).agents == db.agents
  {
    match r.event
    case Arrive(key, contact, created) =>
      var added := Conversation(contact, None, Open, created);
      forall a | a in db.agents
        ensures Load(Put(db, key, added).convs, a.id) <= a.capacity
      {
        LoadAfterPut(db, key, added, a.id);
      }
      if key !in db.convs {
        RoutedKeepsCapacity(Put(db, key, added), key, r);
      }
    case Reroute(key) =>
      if key in db.convs {
        RoutedKeepsCapacity(db, key, r);
      }
    case Close(key) =>
      if key in db.convs {
        forall a | a in db.agents
          ensures Load(Next(db, r).convs, a.id) <= a.capacity
        {
          LoadAfterPut(db, key, db.convs[key].(status := Closed), a.id);
        }
      }
  }

  /** Over any run of engine-routed arrivals, re-routings and closures, under any mix of
      policies, no agent ever holds more open and pending conversations than allowed. */
  lemma {:induction false} RunKeepsCapacity(db: Db, rs: seq<Request>)
    requires UniqueIds(db) && WithinCapacity(db)
    ensures WithinCapacity(Run(db, rs)) && Run(db, rs).agents == db.agents
  {
    if rs != [] {
      RunKeepsCapacity(db, rs[..|rs| - 1]);
      NextKeepsCapacity(Run(db, rs[..|rs| - 1]), rs[|rs| - 1]);
    }
  }

  // ---------- Overlapping routings ----------

  /** A routing under way: its request, and the loads it has read so far, each at its own
      moment: the one of the sticky agent, and those of the eligible agents. */
  datatype Flight = Flight(key: string, r: Request, sticky: Option<nat>, seen: map<string, nat>)

  datatype Traffic = Traffic(db: Db, inflight: map<nat, Flight>, next: nat)

  datatype Move =
    | Begin(r: Request)            // a routing begins; a closure is complete at once
    | LookSticky(n: nat)           // the load of the sticky agent is read
    | Look(n: nat, agent: string)  // the load of one eligible agent is read
    | Store(n: nat)                // the agent is chosen and the assignment visible to all

  /** The agent of the contact's latest conversation, where the sticky branch looks at it. */
  function StickyAgent(agents: seq<Agent>, r: Request): Option<Agent> {
    if r.policy.sticky && r.previous.Some? then
      var a := Find(agents, r.previous.value);
      if a.Some? && a.value.onShift then a else None
    else None
  }

  /** The eligible agents with the loads read for them; nobody is chosen unseen. */
  function SeenCandidates(agents: seq<Agent>, seen: map<string, nat>): (cs: seq<Candidate>)
    ensures |cs| == |Eligible(agents)|
    ensures forall i :: 0 <= i < |cs| ==>
              && cs[i].agent == Eligible(agents)[i]
              && (HasRoom(cs[i]) ==> cs[i].agent.id in seen && seen[cs[i].agent.id] < cs[i].agent.capacity)
              && (cs[i].agent.id in seen ==> cs[i].load == seen[cs[i].agent.id])
  {
    var e := Eligible(agents);
    seq(|e|, i requires 0 <= i < |e| =>
      Candidate(e[i], if e[i].id in seen then seen[e[i].id] else if e[i].capacity > 0 then e[i].capacity else 0))
  }

  function Decided(agents: seq<Agent>, f: Flight): Option<string> {
    var a := StickyAgent(agents, f.r);
    if a.Some? && f.sticky.Some? && f.sticky.value < a.value.capacity then f.r.previous
    else Fallen(f.r.policy, SeenCandidates(agents, f.seen), None, f.r.preferred, f.r.language).agent
  }

  predicate NeedsLoads(p: Policy) {
    p.fallback == Scoring || p.fallback == RoundRobin || (p.fallback.Team? && p.fallback.team.Some?)
  }

  /** All loads the decision depends on have been read. */
  ghost predicate Informed(agents: seq<Agent>, f: Flight) {
    var a := StickyAgent(agents, f.r);
    && (a.Some? ==> f.sticky.Some?)
    && ((a.Some? && f.sticky.value < a.value.capacity)
        || (NeedsLoads(f.r.policy) ==> forall e :: e in agents && e.active ==> e.id in f.seen))
  }

  ghost predicate LegalMove(t: Traffic, m: Move) {
    match m
    case Begin(r) => true
    case LookSticky(n) => n in t.inflight && t.inflight[n].r.previous.Some?
    case Look(n, _) => n in t.inflight
    case Store(n) => n in t.inflight && Informed(t.db.agents, t.inflight[n])
  }

  /** What others see of a request while its own assignment is still open. */
  function Visible(db: Db, r: Request): Db {
    match r.event
    case Arrive(key, contact, created) =>
      if key in db.convs then db else Put(db, key, Conversation(contact, None, Open, created))
    case Reroute(key) => db
    case Close(key) => Next(db, r)
  }

  /** The conversation a request routes, if any. */
  function RoutedKey(db: Db, r: Request): Option<string> {
    match r.event
    case Arrive(key, _, _) => if key in db.convs then None else Some(key)
    case Reroute(key) => if key in db.convs then Some(key) else None
    case Close(_) => None
  }

  function Stored(db: Db, f: Flight): Db {
    var choice := Decided(db.agents, f);
    if choice.Some? && f.key in db.convs then Put(db, f.key, db.convs[f.key].(agent := choice)) else db
  }

  function MoveStep(t: Traffic, m: Move): Traffic
    requires LegalMove(t, m)
  {
    match m
    case Begin(r) =>
      var db, key := Visible(t.db, r), RoutedKey(t.db, r);
      if key.None? then t.(db := db)
      else Traffic(db, t.inflight[t.next := Flight(key.value, r, None, map[])], t.next + 1)
    case LookSticky(n) =>
      var f := t.inflight[n];
      t.(inflight := t.inflight[n := f.(sticky := Some(Load(t.db.convs, f.r.previous.value)))])
    case Look(n, agent) =>
      var f := t.inflight[n];
      t.(inflight := t.inflight[n := f.(seen := f.seen[agent := Load(t.db.convs, agent)])])
    case Store(n) => t.(db := Stored(t.db, t.inflight[n]), inflight := t.inflight - {n})
  }

  ghost predicate LegalMoves(t: Traffic, ms: seq<Move>)
    decreases |ms|
  {
    ms == [] || (LegalMove(t, ms[0]) && LegalMoves(MoveStep(t, ms[0]), ms[1..]))
  }

  ghost function AfterMoves(t: Traffic, ms: seq<Move>): Traffic
    requires LegalMoves(t, ms)
    decreases |ms|
  {
    if ms == [] then t else AfterMoves(MoveStep(t, ms[0]), ms[1..])
  }

  /** At most `k` routings ever overlap. */
  ghost predicate AtMostOverlap(t: Traffic, ms: seq<Move>, k: nat)
    requires LegalMoves(t, ms)
    decreases |ms|
  {
    |t.inflight| <= k && (ms == [] || AtMostOverlap(MoveStep(t, ms[0]), ms[1..], k))
  }

  /** The routing has read a load that leaves `a` room. */
  ghost predicate SawRoom(f: Flight, a: Agent) {
    || (f.sticky.Some? && f.r.previous == Some(a.id) && f.sticky.value < a.capacity)
    || (a.id in f.seen && f.seen[a.id] < a.capacity)
  }

  /** The routings that may still choose `a`. */
  ghost function Coming(t: Traffic, a: Agent): set<nat> {
    set n | n in t.inflight && SawRoom(t.inflight[n], a)
  }

  /** No agent's load, routings that may still choose it included, passes the capacity by
      `k` or more. */
  ghost predicate Within(t: Traffic, k: nat) {
    && (forall n :: n in t.inflight ==> n < t.next)
    && forall a :: a in t.db.agents ==> Load(t.db.convs, a.id) + |Coming(t, a)| <= a.capacity + k - 1
  }

  /** Whoever is chosen had room when the routing read its load. */
  lemma DecidedSawRoom(agents: seq<Agent>, f: Flight)
    ensures Decided(agents, f).Some? ==>
              exists a :: a in agents && a.active && Decided(agents, f) == Some(a.id) && SawRoom(f, a)
  {
    var s := StickyAgent(agents, f.r);
    if s.Some? && f.sticky.Some? && f.sticky.value < s.value.capacity {
      assert s.value in agents && SawRoom(f, s.value);
    } else {
      var cs := SeenCandidates(agents, f.seen);
      FallenHadRoom(f.r.policy, cs, None, f.r.preferred, f.r.language);
      if Decided(agents, f).Some? {
        var i :| 0 <= i < |cs| && HasRoom(cs[i]) && Decided(agents, f) == Some(cs[i].agent.id);
        assert cs[i].agent in agents && SawRoom(f, cs[i].agent);
      }
    }
  }

  lemma VisibleLoads(db: Db, r: Request, id: string)
    ensures Visible(db, r).agents == db.agents && Load(Visible(db, r).convs, id) <= Load(db.convs, id)
  {
    match r.event
    case Arrive(key, contact, created) => LoadAfterPut(db, key, Conversation(contact, None, Open, created), id);
    case Reroute(key) =>
    case Close(key) => if key in db.convs { LoadAfterPut(db, key, db.convs[key].(status := Closed), id); }
  }

  lemma BeginKeepsWithin(t: Traffic, r: Request, k: nat)
    requires Within(t, k)
    ensures Within(MoveStep(t, Begin(r)), k) && MoveStep(t, Begin(r)).db.agents == t.db.agents
  {
    var t' := MoveStep(t, Begin(r));
    VisibleLoads(t.db, r, "");
    forall a | a in t'.db.agents
      ensures Load(t'.db.convs, a.id) + |Coming(t', a)| <= a.capacity + k - 1
    {
      VisibleLoads(t.db, r, a.id);
      assert Coming(t', a) == Coming(t, a);
    }
  }

  /** Reading a load that leaves room joins those that may choose the agent; there are at
      most `k` of them, and the load is below the capacity. */
  lemma LookKeepsWithin(t: Traffic, n: nat, f: Flight, id: string, k: nat)
    requires Within(t, k) && n in t.inflight && |t.inflight| <= k
    requires forall a :: SawRoom(f, a) && !SawRoom(t.inflight[n], a) ==> a.id == id && Load(t.db.convs, id) < a.capacity
    ensures Within(t.(inflight := t.inflight[n := f]), k)
  {
    var t' := t.(inflight := t.inflight[n := f]);
    assert t'.inflight.Keys == t.inflight.Keys;
    forall a | a in t.db.agents
      ensures Load(t.db.convs, a.id) + |Coming(t', a)| <= a.capacity + k - 1
    {
      if SawRoom(f, a) && !SawRoom(t.inflight[n], a) {
        SubsetSize(Coming(t', a), t'.inflight.Keys);
      } else {
        assert Coming(t', a) <= Coming(t, a);
        SubsetSize(Coming(t', a), Coming(t, a));
      }
    }
  }

  lemma StoreKeepsWithin(t: Traffic, n: nat, k: nat)
    requires UniqueIds(t.db) && Within(t, k) && LegalMove(t, Store(n))
    ensures Within(MoveStep(t, Store(n)), k) && MoveStep(t, Store(n)).db.agents == t.db.agents
  {
    var t', f := MoveStep(t, Store(n)), t.inflight[n];
    var choice := Decided(t.db.agents, f);
    DecidedSawRoom(t.db.agents, f);
    forall a | a in t'.db.agents
      ensures Load(t'.db.convs, a.id) + |Coming(t', a)| <= a.capacity + k - 1
    {
      if choice.Some? && f.key in t.db.convs {
        LoadAfterPut(t.db, f.key, t.db.convs[f.key].(agent := choice), a.id);
      }
      assert Coming(t', a) == Coming(t, a) - {n};
      assert choice == Some(a.id) ==> n in Coming(t, a);
    }
  }

  lemma MoveKeepsWithin(t: Traffic, m: Move, k: nat)
    requires UniqueIds(t.db) && Within(t, k) && LegalMove(t, m) && |t.inflight| <= k
    ensures Within(MoveStep(t, m), k) && MoveStep(t, m).db.agents == t.db.agents
    ensures UniqueIds(MoveStep(t, m).db)
  {
    match m
    case Begin(r) => BeginKeepsWithin(t, r, k);
    case LookSticky(n) =>
      var f := t.inflight[n];
      var id := f.r.previous.value;
      LookKeepsWithin(t, n, f.(sticky := Some(Load(t.db.convs, id))), id, k);
    case Look(n, id) =>
      var f := t.inflight[n];
      LookKeepsWithin(t, n, f.(seen := f.seen[id := Load(t.db.convs, id)]), id, k);
    case Store(n) => StoreKeepsWithin(t, n, k);
  }

  lemma OverlapFirst(t: Traffic, ms: seq<Move>, k: nat)
    requires LegalMoves(t, ms) && AtMostOverlap(t, ms, k) && ms != []
    ensures LegalMove(t, ms[0]) && |t.inflight| <= k
    ensures LegalMoves(MoveStep(t, ms[0]), ms[1..]) && AtMostOverlap(MoveStep(t, ms[0]), ms[1..], k)
    ensures AfterMoves(t, ms) == AfterMoves(MoveStep(t, ms[0]), ms[1..])
  {
  }

  lemma {:induction false} OverlapKeepsWithin(t: Traffic, ms: seq<Move>, k: nat)
    requires UniqueIds(t.db) && Within(t, k) && LegalMoves(t, ms) && AtMostOverlap(t, ms, k)
    ensures AfterMoves(t, ms).db.agents == t.db.agents && Within(AfterMoves(t, ms), k)
    decreases |ms|
  {
    if ms != [] {
      OverlapFirst(t, ms, k);
      MoveKeepsWithin(t, ms[0], k);
      OverlapKeepsWithin(MoveStep(t, ms[0]), ms[1..], k);
    }
  }

  lemma QuietIsWithin(db: Db, k: nat)
    requires WithinCapacity(db) && 1 <= k
    ensures Within(Traffic(db, map[], 0), k)
  {
    forall a | a in db.agents
      ensures Load(db.convs, a.id) + |Coming(Traffic(db, map[], 0), a)| <= a.capacity + k - 1
    {
      assert Coming(Traffic(db, map[], 0), a) == {};
    }
  }

  /** Loads are read one agent at a time, and before the choice is stored. With at most `k`
      routings overlapping, no agent ever holds more than its capacity and k - 1
      conversations besides; without overlap the capacity itself. */
  lemma OverlapBound(db: Db, ms: seq<Move>, k: nat, a: Agent)
    requires UniqueIds(db) && WithinCapacity(db) && 1 <= k && a in db.agents
    requires LegalMoves(Traffic(db, map[], 0), ms) && AtMostOverlap(Traffic(db, map[], 0), ms, k)
    ensures Load(AfterMoves(Traffic(db, map[], 0), ms).db.convs, a.id) <= a.capacity + k - 1
  {
    QuietIsWithin(db, k);
    OverlapKeepsWithin(Traffic(db, map[], 0), ms, k);
  }

  /** A routing that overlaps with no other does what `Next` says: between its beginning and
      its end nobody else reads or stores. */
  lemma AloneIsNext(db: Db, r: Request, f: Flight)
    requires RoutedKey(db, r) == Some(f.key) && f.r == r
    requires var d := Visible(db, r);
             && (forall e :: e in d.agents && e.active ==> e.id in f.seen && f.seen[e.id] == Load(d.convs, e.id))
             && (r.previous.Some? ==> f.sticky == Some(Load(d.convs, r.previous.value)))
    ensures Stored(Visible(db, r), f) == Next(db, r)
  {
    ReadAtOnce(Visible(db, r), f);
  }

  /** And a request that routes nothing is over at once. */
  lemma NothingToRoute(db: Db, r: Request)
    requires RoutedKey(db, r).None?
    ensures Visible(db, r) == Next(db, r)
  {
  }

  /** A routing whose loads are all read at once decides as `AssignConversation` does. */
  lemma ReadAtOnce(db: Db, f: Flight)
    requires forall e :: e in db.agents && e.active ==> e.id in f.seen && f.seen[e.id] == Load(db.convs, e.id)
    requires f.r.previous.Some? ==> f.sticky == Some(Load(db.convs, f.r.previous.value))
    ensures Decided(db.agents, f) == Choice(db, f.r)
  {
    var cs, ds := SeenCandidates(db.agents, f.seen), Candidates(db);
    forall i | 0 <= i < |cs|
      ensures cs[i] == ds[i]
    {
      assert Eligible(db.agents)[i] in db.agents && Eligible(db.agents)[i].active;
    }
    assert cs == ds;
    var p, prev := f.r.policy, if f.r.policy.sticky then f.r.previous else None;
    FallenIgnoresHistory(p, cs, prev, None, f.r.preferred, f.r.language);
  }

  lemma FallenIgnoresHistory(p: Policy, cs: seq<Candidate>, prev: Option<string>, other: Option<string>,
                             preferred: seq<string>, language: string)
    ensures Fallen(p, cs, prev, preferred, language).agent == Fallen(p, cs, other, preferred, language).agent
  {
  }

  /** A plain arrival under `key`, without wishes or history. */
  function Plain(key: string): Request {
    Request(Arrive(key, "", 0), Policy(false, RoundRobin, false, 0.0, 0.0, 0.0), None, [], "")
  }

  const WAITING := Conversation("", None, Open, 0)

  ghost predicate NewKeys(db: Db, keys: seq<string>) {
    && (forall i :: 0 <= i < |keys| ==> keys[i] !in db.convs)
    && forall i, j :: 0 <= i < j < |keys| ==> keys[i] != keys[j]
  }

  function Looked(a: Agent, key: string, load: nat): Flight {
    Flight(key, Plain(key), None, map[a.id := load])
  }

  /** Arrivals that have all seen `load` and stored nothing yet, one for each of `keys`. */
  ghost predicate AllWaiting(t: Traffic, a: Agent, keys: seq<string>, load: nat) {
    && (forall i :: 0 <= i < |keys| ==> keys[i] in t.db.convs && t.db.convs[keys[i]] == WAITING)
    && (forall n :: n in t.inflight <==> 0 <= n < |keys|)
    && (forall n :: n in t.inflight && 0 <= n < |keys| ==> t.inflight[n] == Looked(a, keys[n], load))
    && (forall i, j :: 0 <= i < j < |keys| ==> keys[i] != keys[j])
    && |t.inflight| == |keys|
  }

  /** `a`, alone in its company, holds `load` conversations and was seen with room for all
      of `keys`. */
  ghost predicate Ready(t: Traffic, a: Agent, keys: seq<string>, load: nat) {
    && t.db.agents == [a] && a.active && Load(t.db.convs, a.id) == load < a.capacity
    && AllWaiting(t, a, keys, load) && t.next == |keys|
  }

  lemma BeginPlain(t: Traffic, a: Agent, key: string)
    requires key !in t.db.convs
    ensures var t' := MoveStep(t, Begin(Plain(key)));
            && t' == Traffic(Put(t.db, key, WAITING), t.inflight[t.next := Flight(key, Plain(key), None, map[])],
                             t.next + 1)
            && Load(t'.db.convs, a.id) == Load(t.db.convs, a.id)
  {
    LoadAfterPut(t.db, key, WAITING, a.id);
  }

  lemma LookPlain(t: Traffic, a: Agent, key: string, n: nat)
    requires n in t.inflight && t.inflight[n] == Flight(key, Plain(key), None, map[])
    ensures MoveStep(t, Look(n, a.id)) == t.(inflight := t.inflight[n := Looked(a, key, Load(t.db.convs, a.id))])
  {
  }

  lemma FlightWaits(t: Traffic, a: Agent, keys: seq<string>, key: string, load: nat)
    requires AllWaiting(t, a, keys, load) && t.next == |keys| && key !in t.db.convs
    ensures AllWaiting(Traffic(Put(t.db, key, WAITING), t.inflight[t.next := Looked(a, key, load)], t.next + 1),
                       a, keys + [key], load)
  {
  }

  lemma MoveThenMoves(t: Traffic, m: Move, rest: seq<Move>, k: nat)
    requires LegalMove(t, m) && LegalMoves(MoveStep(t, m), rest) && AtMostOverlap(MoveStep(t, m), rest, k)
    requires |t.inflight| <= k
    ensures LegalMoves(t, [m] + rest) && AtMostOverlap(t, [m] + rest, k)
    ensures AfterMoves(t, [m] + rest) == AfterMoves(MoveStep(t, m), rest)
  {
    assert ([m] + rest)[0] == m && ([m] + rest)[1..] == rest;
  }

  lemma NewKeysRest(db: Db, keys: seq<string>)
    requires keys != [] && NewKeys(db, keys)
    ensures keys[0] !in db.convs && NewKeys(Put(db, keys[0], WAITING), keys[1..])
  {
  }

  lemma BeginAndLook(t: Traffic, a: Agent, key: string) returns (m1: Move, m2: Move, t1: Traffic, t2: Traffic)
    requires key !in t.db.convs && t.next !in t.inflight && t.db.agents == [a] && a.active
    ensures LegalMove(t, m1) && t1 == MoveStep(t, m1) && LegalMove(t1, m2) && t2 == MoveStep(t1, m2)
    ensures |t1.inflight| == |t.inflight| + 1
    ensures t2 == Traffic(Put(t.db, key, WAITING),
                          t.inflight[t.next := Looked(a, key, Load(t.db.convs, a.id))], t.next + 1)
    ensures Load(t2.db.convs, a.id) == Load(t.db.convs, a.id)
  {
    m1, m2 := Begin(Plain(key)), Look(t.next, a.id);
    BeginPlain(t, a, key);
    t1 := MoveStep(t, m1);
    LookPlain(t1, a, key, t.next);
    t2 := MoveStep(t1, m2);
  }

  /** The next arrival begins and looks; `t2` is where that leads. */
  lemma LookNext(t: Traffic, a: Agent, keys: seq<string>, more: seq<string>, load: nat)
    returns (m1: Move, m2: Move, t1: Traffic, t2: Traffic)
    requires Ready(t, a, keys, load) && NewKeys(t.db, more) && more != []
    ensures LegalMove(t, m1) && t1 == MoveStep(t, m1) && LegalMove(t1, m2) && t2 == MoveStep(t1, m2)
    ensures |t.inflight| == |keys| && |t1.inflight| == |keys| + 1
    ensures Ready(t2, a, keys + [more[0]], load) && NewKeys(t2.db, more[1..])
  {
    NewKeysRest(t.db, more);
    FlightWaits(t, a, keys, more[0], load);
    m1, m2, t1, t2 := BeginAndLook(t, a, more[0]);
  }

  lemma PlainDecides(a: Agent, key: string, load: nat)
    requires a.active && load < a.capacity
    ensures Decided([a], Looked(a, key, load)) == Some(a.id) && Informed([a], Looked(a, key, load))
  {
    var cs := SeenCandidates([a], map[a.id := load]);
    assert Eligible([a]) == [a];
    assert cs == [Candidate(a, load)];
    LeastPickIsLeast(cs);
    assert cs[0] in cs;
  }

  lemma StoredPlain(db: Db, a: Agent, key: string, load: nat)
    requires db.agents == [a] && a.active && load < a.capacity && key in db.convs && db.convs[key] == WAITING
    ensures Stored(db, Looked(a, key, load)) == Put(db, key, WAITING.(agent := Some(a.id)))
    ensures Load(Put(db, key, WAITING.(agent := Some(a.id))).convs, a.id) == Load(db.convs, a.id) + 1
  {
    PlainDecides(a, key, load);
    LoadAfterPut(db, key, WAITING.(agent := Some(a.id)), a.id);
  }

  lemma OthersWait(convs: map<string, Conversation>, keys: seq<string>, c: Conversation)
    requires keys != []
    requires forall i :: 0 <= i < |keys| ==> keys[i] in convs && convs[keys[i]] == WAITING
    requires forall i, j :: 0 <= i < j < |keys| ==> keys[i] != keys[j]
    ensures var n := |keys| - 1;
            forall i :: 0 <= i < n ==> keys[i] in convs[keys[n] := c] && convs[keys[n] := c][keys[i]] == WAITING
  {
  }

  lemma FlightsLeft(inflight: map<nat, Flight>, n: nat)
    requires (forall i :: i in inflight <==> 0 <= i <= n) && |inflight| == n + 1
    ensures forall i :: i in inflight - {n} <==> 0 <= i < n
    ensures |inflight - {n}| == n
  {
    assert (inflight - {n}).Keys == inflight.Keys - {n};
  }

  lemma FlightLeaves(t: Traffic, a: Agent, keys: seq<string>, load: nat, c: Conversation)
    requires AllWaiting(t, a, keys, load) && keys != []
    ensures var n := |keys| - 1;
            AllWaiting(t.(db := Put(t.db, keys[n], c), inflight := t.inflight - {n}), a, keys[..n], load)
  {
    var n := |keys| - 1;
    OthersWait(t.db.convs, keys, c);
    FlightsLeft(t.inflight, n);
    assert forall i :: 0 <= i < n ==> keys[..n][i] == keys[i];
  }

  lemma LastIsStored(t: Traffic, a: Agent, keys: seq<string>, load: nat) returns (m: Move, t': Traffic)
    requires AllWaiting(t, a, keys, load) && keys != [] && t.db.agents == [a] && a.active && load < a.capacity
    ensures LegalMove(t, m) && t' == MoveStep(t, m) && |t.inflight| == |keys| && t'.db.agents == [a]
    ensures AllWaiting(t', a, keys[..|keys| - 1], load)
    ensures Load(t'.db.convs, a.id) == Load(t.db.convs, a.id) + 1
  {
    var n := |keys| - 1;
    var c := WAITING.(agent := Some(a.id));
    PlainDecides(a, keys[n], load);
    StoredPlain(t.db, a, keys[n], load);
    FlightLeaves(t, a, keys, load, c);
    m, t' := Store(n), t.(db := Put(t.db, keys[n], c), inflight := t.inflight - {n});
  }

  lemma {:induction false} StoreThemAll(t: Traffic, a: Agent, keys: seq<string>, load: nat, k: nat)
    returns (ms: seq<Move>)
    requires AllWaiting(t, a, keys, load) && t.db.agents == [a] && a.active && load < a.capacity && |keys| <= k
    ensures LegalMoves(t, ms) && AtMostOverlap(t, ms, k)
    ensures Load(AfterMoves(t, ms).db.convs, a.id) == Load(t.db.convs, a.id) + |keys|
    decreases |keys|
  {
    if keys == [] {
      ms := [];
    } else {
      var m, t' := LastIsStored(t, a, keys, load);
      var rest := StoreThemAll(t', a, keys[..|keys| - 1], load, k);
      MoveThenMoves(t, m, rest, k);
      ms := [m] + rest;
    }
  }

  lemma {:induction false} LookThenStore(t: Traffic, a: Agent, keys: seq<string>, more: seq<string>, load: nat, k: nat)
    returns (ms: seq<Move>)
    requires Ready(t, a, keys, load) && NewKeys(t.db, more) && k == |keys| + |more|
    ensures LegalMoves(t, ms) && AtMostOverlap(t, ms, k)
    ensures Load(AfterMoves(t, ms).db.convs, a.id) == load + k
    decreases |more|
  {
    if more == [] {
      ms := StoreThemAll(t, a, keys, load, k);
    } else {
      var m1, m2, t1, t2 := LookNext(t, a, keys, more, load);
      var rest := LookThenStore(t2, a, keys + [more[0]], more[1..], load, k);
      MoveThenMoves(t1, m2, rest, k);
      MoveThenMoves(t, m1, [m2] + rest, k);
      ms := [m1] + ([m2] + rest);
    }
  }

  /** The bound is exact: an agent with one place left gets as many conversations as there
      are overlapping routings. */
  lemma OverlapBoundIsReached(db: Db, a: Agent, keys: seq<string>) returns (ms: seq<Move>)
    requires db.agents == [a] && a.active && Load(db.convs, a.id) == a.capacity - 1 && NewKeys(db, keys)
    ensures LegalMoves(Traffic(db, map[], 0), ms) && AtMostOverlap(Traffic(db, map[], 0), ms, |keys|)
    ensures Load(AfterMoves(Traffic(db, map[], 0), ms).db.convs, a.id) == a.capacity + |keys| - 1
  {
    ms := LookThenStore(Traffic(db, map[], 0), a, [], keys, a.capacity - 1, |keys|);
  }

  // ---------- Balance of the least-loaded fallback ----------

  ghost predicate NotFull(db: Db, a: Agent) {
    a in db.agents && a.active && Load(db.convs, a.id) < a.capacity
  }

  /** Any two active agents that still have room differ by at most `g` conversations. */
  ghost predicate GapWithin(db: Db, g: int) {
    forall a, b :: NotFull(db, a) && NotFull(db, b) ==> Load(db.convs, a.id) - Load(db.convs, b.id) <= g
  }

  /** An arrival routed by the least-loaded strategy alone. */
  predicate PlainArrival(r: Request) {
    r.event.Arrive? && !r.policy.sticky && r.policy.fallback == RoundRobin
  }

  lemma LeastIsChosen(db: Db, r: Request)
    requires PlainArrival(r)
    ensures Choice(db, r).Some? ==>
              forall b :: NotFull(db, b) ==> Load(db.convs, Choice(db, r).value) <= Load(db.convs, b.id)
  {
    var cs := Candidates(db);
    LeastPickIsLeast(cs);
    var i := LeastPick(cs);
    if i.Some? {
      CandidateAt(db, i.value);
      forall b | NotFull(db, b)
        ensures cs[i.value].load <= Load(db.convs, b.id)
      {
        EveryActiveIsCandidate(db, b);
        var j :| 0 <= j < |cs| && cs[j] == Candidate(b, Load(db.convs, b.id));
      }
    }
  }

  lemma ArrivalLoads(db: Db, r: Request, id: string)
    requires r.event.Arrive? && r.event.key !in db.convs
    ensures var added := Put(db, r.event.key, Conversation(r.event.contact, None, Open, r.event.created));
            && Load(added.convs, id) == Load(db.convs, id)
            && Load(Next(db, r).convs, id) == Load(db.convs, id) + if Choice(added, r) == Some(id) then 1 else 0
  {
    var key := r.event.key;
    var c := Conversation(r.event.contact, None, Open, r.event.created);
    LoadAfterPut(db, key, c, id);
    var added := Put(db, key, c);
    LoadAfterPut(added, key, c.(agent := Choice(added, r)), id);
  }

  lemma ArrivalKeepsBalance(db: Db, r: Request, g: int)
    requires UniqueIds(db) && PlainArrival(r) && GapWithin(db, g) && 1 <= g
    ensures GapWithin(Next(db, r), g) && Next(db, r).agents == db.agents
  {
    if r.event.key !in db.convs {
      var added := Put(db, r.event.key, Conversation(r.event.contact, None, Open, r.event.created));
      LeastIsChosen(added, r);
      forall a, b | NotFull(Next(db, r), a) && NotFull(Next(db, r), b)
        ensures Load(Next(db, r).convs, a.id) - Load(Next(db, r).convs, b.id) <= g
      {
        ArrivalLoads(db, r, a.id);
        ArrivalLoads(db, r, b.id);
        assert NotFull(db, a) && NotFull(db, b) && NotFull(added, b);
      }
    }
  }

  /** Whatever the capacities, a run of arrivals never widens the gap between agents that
      still have room beyond the larger of the initial gap and one. */
  lemma {:induction false} BalanceOverRuns(db: Db, rs: seq<Request>, g: int)
    requires UniqueIds(db) && GapWithin(db, g) && forall r :: r in rs ==> PlainArrival(r)
    ensures GapWithin(Run(db, rs), if g > 1 then g else 1) && Run(db, rs).agents == db.agents
  {
    if rs != [] {
      BalanceOverRuns(db, rs[..|rs| - 1], g);
      assert rs[|rs| - 1] in rs;
      ArrivalKeepsBalance(Run(db, rs[..|rs| - 1]), rs[|rs| - 1], if g > 1 then g else 1);
    }
  }
}
