/** Chatbot flow execution: a worklist traversal of a user-drawn graph that may have
    cycles, self-loops, duplicate edges, repeated node ids and dangling targets. */
module Chatbot {
  import opened Wrappers

  datatype Node = Node(id: string, kind: string, data: string)

  /** An edge of the drawing; either end may be missing and then reads as "". */
  datatype Edge = Edge(source: Option<string>, target: Option<string>)

  datatype Graph = Graph(nodes: seq<Node>, edges: seq<Edge>)

  /** What one node does: given the ids executed before it, maybe one outbound response. */
  type Handler<!R> = (seq<string>, Node) -> Option<R>

  function End(e: Option<string>): string {
    if e.Some? then e.value else ""
  }

  /** Node by id; of two nodes with one id the later one is kept. */
  function NodeMap(nodes: seq<Node>): (m: map<string, Node>)
    ensures forall id :: id in m ==> m[id] in nodes && m[id].id == id
    ensures forall n :: n in nodes ==> n.id in m
  {
    if nodes == [] then map[]
    else
      var k := |nodes| - 1;
      NodeMap(nodes[..k])[nodes[k].id := nodes[k]]
  }

  lemma NodeMapGrows(nodes: seq<Node>, n: Node, all: seq<Node>)
    requires all == nodes + [n]
    ensures NodeMap(all) == NodeMap(nodes)[n.id := n]
  {
    assert all[..|all| - 1] == nodes && all[|all| - 1] == n;
  }

  /** The node kept under an id is the last one drawn with it. */
  lemma {:induction false} LaterNodesWin(nodes: seq<Node>, n: Node, after: seq<Node>, all: seq<Node>)
    requires all == nodes + [n] + after && forall i :: 0 <= i < |after| ==> after[i].id != n.id
    ensures n.id in NodeMap(all) && NodeMap(all)[n.id] == n
    decreases |after|
  {
    if after == [] {
      NodeMapGrows(nodes, n, all);
    } else {
      var k := |after| - 1;
      var rest := nodes + [n] + after[..k];
      NodeMapGrows(rest, after[k], all);
      LaterNodesWin(nodes, n, after[..k], rest);
    }
  }

  /** Targets of the edges leaving `src`, in drawing order, duplicates included. */
  function Targets(edges: seq<Edge>, src: string): seq<string> {
    if edges == [] then []
    else
      var k := |edges| - 1;
      Targets(edges[..k], src) + if End(edges[k].source) == src then [End(edges[k].target)] else []
  }

  /** The positions below `n` of the edges leaving `src`. */
  ghost function Leaving(edges: seq<Edge>, src: string, n: nat): set<nat>
    requires n <= |edges|
  {
    set i | 0 <= i < n && End(edges[i].source) == src
  }

  lemma LeavingGrows(edges: seq<Edge>, src: string, n: nat)
    requires n < |edges|
    ensures |Leaving(edges, src, n + 1)| == |Leaving(edges, src, n)| + if End(edges[n].source) == src then 1 else 0
  {
    assert Leaving(edges, src, n + 1) == Leaving(edges, src, n) + if End(edges[n].source) == src then {n} else {};
  }

  lemma LeavingOfPrefix(edges: seq<Edge>, src: string, k: nat, n: nat)
    requires n <= k <= |edges|
    ensures Leaving(edges[..k], src, n) == Leaving(edges, src, n)
  {
    assert forall i :: 0 <= i < n ==> edges[..k][i] == edges[i];
  }

  lemma {:induction false} AsManyTargets(edges: seq<Edge>, src: string)
    ensures |Targets(edges, src)| == |Leaving(edges, src, |edges|)|
  {
    if edges != [] {
      var n := |edges| - 1;
      AsManyTargets(edges[..n], src);
      LeavingGrows(edges, src, n);
      LeavingOfPrefix(edges, src, n, n);
    }
  }

  /** Every edge leaving `src` gives one target, as many places from the first as edges
      leaving `src` were drawn before it, and there are no others. */
  lemma {:induction false} TargetsFollowTheDrawing(edges: seq<Edge>, src: string, i: nat)
    requires i < |edges| && End(edges[i].source) == src
    ensures |Targets(edges, src)| == |Leaving(edges, src, |edges|)|
    ensures |Leaving(edges, src, i)| < |Targets(edges, src)|
    ensures Targets(edges, src)[|Leaving(edges, src, i)|] == End(edges[i].target)
  {
    var n := |edges| - 1;
    AsManyTargets(edges, src);
    AsManyTargets(edges[..n], src);
    LeavingOfPrefix(edges, src, n, i);
    if i < n {
      TargetsFollowTheDrawing(edges[..n], src, i);
    }
  }

  // ---------- Which nodes, and in which order ----------

  /** A graph as the traversal sees it: where it starts, which ids exist, which ids follow. */
  datatype Adj = Adj(start: string, ids: set<string>, next: string -> seq<string>)

  function AdjOf(g: Graph): Adj
    requires g.nodes != []
  {
    Adj(g.nodes[0].id, NodeMap(g.nodes).Keys, id => Targets(g.edges, id))
  }

  /** `id` can be reached from the start in `n` edges, each leaving an existing node. */
  ghost predicate HasPath(a: Adj, id: string, n: nat)
    decreases n
  {
    if n == 0 then id == a.start
    else exists u :: u in a.ids && HasPath(a, u, n - 1) && id in a.next(u)
  }

  ghost predicate IsNode(g: Graph, id: string) {
    exists u :: u in g.nodes && u.id == id
  }

  ghost predicate Drawn(g: Graph, from: string, to: string) {
    exists e :: e in g.edges && Reads(e.source, from) && Reads(e.target, to)
  }

  /** A missing end of an edge is as good as an empty one. */
  ghost predicate Reads(end: Option<string>, id: string) {
    end == Some(id) || (end.None? && id == "")
  }

  /** The same on the drawing itself: from its first node, along edges that leave nodes. */
  ghost predicate Walk(g: Graph, id: string, n: nat)
    requires g.nodes != []
    decreases n
  {
    if n == 0 then id == g.nodes[0].id
    else exists u :: IsNode(g, u) && Walk(g, u, n - 1) && Drawn(g, u, id)
  }

  ghost predicate CanWalk(g: Graph, id: string)
    requires g.nodes != []
  {
    exists n: nat :: Walk(g, id, n)
  }

  lemma {:induction false} TargetsAreEnds(edges: seq<Edge>, src: string, id: string)
    ensures id in Targets(edges, src) <==> exists e :: e in edges && Reads(e.source, src) && Reads(e.target, id)
  {
    if edges != [] {
      var k := |edges| - 1;
      TargetsAreEnds(edges[..k], src, id);
      assert edges == edges[..k] + [edges[k]];
    }
  }

  lemma AdjIsDrawn(g: Graph, u: string, id: string)
    requires g.nodes != []
    ensures u in AdjOf(g).ids <==> IsNode(g, u)
    ensures id in AdjOf(g).next(u) <==> Drawn(g, u, id)
  {
    TargetsAreEnds(g.edges, u, id);
    if u in NodeMap(g.nodes) {
      assert NodeMap(g.nodes)[u] in g.nodes;
    }
  }

  lemma {:induction false} PathsAreWalks(g: Graph, a: Adj, id: string, n: nat)
    requires g.nodes != [] && a == AdjOf(g)
    ensures HasPath(a, id, n) <==> Walk(g, id, n)
    decreases n
  {
    if n > 0 {
      forall u
        ensures u in a.ids && HasPath(a, u, n - 1) && id in a.next(u) <==>
                IsNode(g, u) && Walk(g, u, n - 1) && Drawn(g, u, id)
      {
        PathsAreWalks(g, a, u, n - 1);
        AdjIsDrawn(g, u, id);
      }
    }
  }

  ghost predicate Reachable(a: Adj, id: string) {
    exists n: nat :: HasPath(a, id, n)
  }

  /** `x` is no farther from the start than `y`. */
  ghost predicate NoFarther(a: Adj, x: string, y: string) {
    forall n: nat :: HasPath(a, y, n) ==> exists m: nat :: m <= n && HasPath(a, x, m)
  }

  ghost predicate Distinct(s: seq<string>) {
    forall i, j :: 0 <= i < j < |s| ==> s[i] != s[j]
  }

  /** The first occurrences in `s` of ids that exist. */
  function Firsts(ids: set<string>, s: seq<string>): seq<string> {
    if s == [] then []
    else
      var k := |s| - 1;
      var r := Firsts(ids, s[..k]);
      if s[k] in ids && s[k] !in r then r + [s[k]] else r
  }

  lemma {:induction false} FirstsAreFirst(ids: set<string>, s: seq<string>)
    ensures Distinct(Firsts(ids, s))
    ensures forall x :: x in Firsts(ids, s) <==> x in s && x in ids
  {
    if s != [] {
      FirstsAreFirst(ids, s[..|s| - 1]);
      assert s == s[..|s| - 1] + [s[|s| - 1]];
    }
  }

  lemma {:induction false} FirstsExtend(ids: set<string>, s: seq<string>, t: seq<string>)
    ensures Firsts(ids, s) <= Firsts(ids, s + t)
  {
    if t == [] {
      assert s + t == s;
    } else {
      var k := |t| - 1;
      FirstsExtend(ids, s, t[..k]);
      assert (s + t)[..|s + t| - 1] == s + t[..k];
    }
  }

  lemma {:induction false} DistinctIsSmall(s: seq<string>, ids: set<string>)
    requires Distinct(s) && forall x :: x in s ==> x in ids
    ensures |s| <= |ids|
  {
    if s != [] {
      var k := |s| - 1;
      DistinctIsSmall(s[..k], ids - {s[k]});
    }
  }

  /** Everything ever put into the queue once the nodes of `done` were executed. */
  function Queued(a: Adj, done: seq<string>): seq<string> {
    if done == [] then [a.start]
    else Queued(a, done[..|done| - 1]) + a.next(done[|done| - 1])
  }

  /** The order of execution, with no queue and no visited set: after `done`, the next
      node is the first id queued so far that exists and was not executed yet. */
  function OrderAfter(a: Adj, done: seq<string>): seq<string>
    requires done <= Firsts(a.ids, Queued(a, done))
    decreases |a.ids| - |done|
  {
    var next := Firsts(a.ids, Queued(a, done));
    FirstsAreFirst(a.ids, Queued(a, done));
    DistinctIsSmall(next, a.ids);
    if |next| == |done| then done
    else
      var done' := done + [next[|done|]];
      assert done'[..|done|] == done;
      FirstsExtend(a.ids, Queued(a, done), a.next(next[|done|]));
      OrderAfter(a, done')
  }

  function Order(a: Adj): seq<string> {
    OrderAfter(a, [])
  }

  /** The responses of the executed nodes, in that order, at most one per node. */
  function Responses<R>(nodes: map<string, Node>, handle: Handler<R>, done: seq<string>): seq<R> {
    if done == [] then []
    else Responses(nodes, handle, done[..|done| - 1]) + Response(nodes, handle, done[..|done| - 1], done[|done| - 1])
  }

  function Response<R>(nodes: map<string, Node>, handle: Handler<R>, before: seq<string>, id: string): seq<R> {
    if id !in nodes then []
    else
      var r := handle(before, nodes[id]);
      if r.Some? then [r.value] else []
  }

  /** The positions below `n` of the executed nodes that answer something. */
  ghost function Answering<R>(nodes: map<string, Node>, handle: Handler<R>, done: seq<string>, n: nat): set<nat>
    requires n <= |done|
  {
    set i | 0 <= i < n && done[i] in nodes && handle(done[..i], nodes[done[i]]).Some?
  }

  lemma AnsweringGrows<R>(nodes: map<string, Node>, handle: Handler<R>, done: seq<string>, n: nat)
    requires n < |done|
    ensures |Answering(nodes, handle, done, n + 1)| == |Answering(nodes, handle, done, n)|
              + if n in Answering(nodes, handle, done, n + 1) then 1 else 0
  {
    assert Answering(nodes, handle, done, n + 1) == Answering(nodes, handle, done, n)
      + if n in Answering(nodes, handle, done, n + 1) then {n} else {};
  }

  lemma AnsweringOfPrefix<R>(nodes: map<string, Node>, handle: Handler<R>, done: seq<string>, k: nat, n: nat)
    requires n <= k <= |done|
    ensures Answering(nodes, handle, done[..k], n) == Answering(nodes, handle, done, n)
  {
    assert forall i :: 0 <= i < n ==> done[..k][i] == done[i] && done[..k][..i] == done[..i];
  }

  /** No response is lost, added or out of place: the answer of an executed node, given what
      was executed before it, stands where as many answers precede it as in the execution. */
  lemma {:induction false} ResponsesAreTheAnswers<R>(nodes: map<string, Node>, handle: Handler<R>, done: seq<string>)
    ensures |Responses(nodes, handle, done)| == |Answering(nodes, handle, done, |done|)|
    ensures forall i :: i in Answering(nodes, handle, done, |done|) ==>
              var r, k := Responses(nodes, handle, done), |Answering(nodes, handle, done, i)|;
              k < |r| && Some(r[k]) == handle(done[..i], nodes[done[i]])
  {
    if done == [] {
      assert Answering(nodes, handle, done, 0) == {};
    } else {
      var n := |done| - 1;
      ResponsesAreTheAnswers(nodes, handle, done[..n]);
      AnsweringGrows(nodes, handle, done, n);
      AnsweringOfPrefix(nodes, handle, done, n, n);
      forall i | i in Answering(nodes, handle, done, |done|)
        ensures var r, k := Responses(nodes, handle, done), |Answering(nodes, handle, done, i)|;
                k < |r| && Some(r[k]) == handle(done[..i], nodes[done[i]])
      {
        if i < n {
          AnsweringOfPrefix(nodes, handle, done, n, i);
          assert done[..n][..i] == done[..i] && i in Answering(nodes, handle, done[..n], n);
        }
      }
    }
  }

  lemma ResponsesGrow<R>(nodes: map<string, Node>, handle: Handler<R>, done: seq<string>, id: string)
    ensures Responses(nodes, handle, done + [id]) == Responses(nodes, handle, done) + Response(nodes, handle, done, id)
  {
  }

  // ---------- Why breadth-first order is distance order ----------

  /** The worklist between two rounds: what was popped, what is still queued, which ids
      were visited at which distance, and the distance of every queue entry. */
  datatype Work = Work(popped: seq<string>, queue: seq<string>, level: map<string, nat>, ql: seq<nat>)

  /** Queue entries are real paths, in distance order, spread over two levels at most. */
  ghost predicate QueueLevels(a: Adj, w: Work)
  {
    && |w.ql| == |w.queue|
    && (forall i :: 0 <= i < |w.queue| ==> HasPath(a, w.queue[i], w.ql[i]))
    && (forall i, j :: 0 <= i <= j < |w.ql| ==> w.ql[i] <= w.ql[j])
    && (|w.ql| > 0 ==> w.ql[|w.ql| - 1] <= w.ql[0] + 1)
  }

  /** The recorded level of a visited id is its distance, and the queue head is not nearer. */
  ghost predicate VisitedLevels(a: Adj, w: Work)
  {
    && (forall v :: v in w.level ==> HasPath(a, v, w.level[v]))
    && (forall v :: v in w.level && |w.ql| > 0 ==> w.level[v] <= w.ql[0])
    && (forall v, n: nat :: v in w.level && HasPath(a, v, n) ==> w.level[v] <= n)
  }

  /** `x` has been visited at distance at most `d`, or waits in the queue at most there. */
  ghost predicate Pending(w: Work, x: string, d: nat) {
    (x in w.level && w.level[x] <= d) || exists i :: 0 <= i < |w.queue| && i < |w.ql| && w.queue[i] == x && w.ql[i] <= d
  }

  /** No edge out of a visited node has been forgotten. */
  ghost predicate EdgesPending(a: Adj, w: Work)
  {
    && Pending(w, a.start, 0)
    && (forall v, x :: v in w.level && v in a.ids && x in a.next(v) ==> Pending(w, x, w.level[v] + 1))
  }

  ghost predicate Levels(a: Adj, w: Work)
  {
    QueueLevels(a, w) && VisitedLevels(a, w) && EdgesPending(a, w)
  }

  /** Nothing unvisited is nearer than the head of the queue. */
  lemma {:induction false} HeadIsNearest(a: Adj, w: Work, x: string, n: nat)
    requires QueueLevels(a, w) && EdgesPending(a, w) && HasPath(a, x, n)
    ensures (x in w.level && w.level[x] <= n) || (|w.ql| > 0 && w.ql[0] <= n)
    decreases n
  {
    if n == 0 {
      assert Pending(w, x, 0);
    } else {
      var u :| u in a.ids && HasPath(a, u, n - 1) && x in a.next(u);
      HeadIsNearest(a, w, u, n - 1);
      if u in w.level && w.level[u] <= n - 1 {
        assert Pending(w, x, w.level[u] + 1);
      }
    }
  }

  /** One round: the head leaves the queue, is visited at the latest now, and `more` is
      appended one level further on. */
  ghost function Round(w: Work, more: seq<string>): Work
    requires |w.ql| == |w.queue| > 0
  {
    Work(w.popped + [w.queue[0]], w.queue[1..] + more,
         if w.queue[0] in w.level then w.level else w.level[w.queue[0] := w.ql[0]],
         w.ql[1..] + seq(|more|, i => w.ql[0] + 1))
  }

  /** What a round appends: the targets of a node executed in it, otherwise nothing. */
  ghost function Appended(a: Adj, w: Work): seq<string>
    requires |w.queue| > 0
  {
    if w.queue[0] !in w.level && w.queue[0] in a.ids then a.next(w.queue[0]) else []
  }

  lemma RoundKeepsPending(w: Work, more: seq<string>, x: string, d: nat)
    requires |w.ql| == |w.queue| > 0 && Pending(w, x, d)
    requires w.queue[0] in w.level ==> w.level[w.queue[0]] <= w.ql[0]
    ensures Pending(Round(w, more), x, d)
  {
    var w' := Round(w, more);
    if !(x in w.level && w.level[x] <= d) {
      var i :| 0 <= i < |w.queue| && w.queue[i] == x && w.ql[i] <= d;
      if i > 0 {
        assert w'.queue[i - 1] == x && w'.ql[i - 1] == w.ql[i];
      }
    }
  }

  lemma RoundKeepsQueue(a: Adj, w: Work)
    requires QueueLevels(a, w) && |w.queue| > 0
    ensures QueueLevels(a, Round(w, Appended(a, w)))
  {
    var more := Appended(a, w);
    var w' := Round(w, more);
    forall i | 0 <= i < |w'.queue|
      ensures HasPath(a, w'.queue[i], w'.ql[i])
    {
      if i >= |w.queue| - 1 {
        assert w'.queue[i] == more[i - (|w.queue| - 1)];
        assert HasPath(a, w.queue[0], w.ql[0]) && w'.queue[i] in a.next(w.queue[0]);
        assert HasPath(a, w'.queue[i], w.ql[0] + 1);
      } else {
        assert w'.queue[i] == w.queue[i + 1] && w'.ql[i] == w.ql[i + 1];
      }
    }
  }

  lemma RoundKeepsVisited(a: Adj, w: Work)
    requires Levels(a, w) && |w.queue| > 0
    ensures VisitedLevels(a, Round(w, Appended(a, w)))
  {
    forall n: nat | HasPath(a, w.queue[0], n) && w.queue[0] !in w.level
      ensures w.ql[0] <= n
    {
      HeadIsNearest(a, w, w.queue[0], n);
    }
  }

  lemma RoundKeepsEdges(a: Adj, w: Work)
    requires Levels(a, w) && |w.queue| > 0
    ensures EdgesPending(a, Round(w, Appended(a, w)))
  {
    var more := Appended(a, w);
    var w' := Round(w, more);
    RoundKeepsPending(w, more, a.start, 0);
    forall v, x | v in w'.level && v in a.ids && x in a.next(v)
      ensures Pending(w', x, w'.level[v] + 1)
    {
      if v in w.level {
        RoundKeepsPending(w, more, x, w.level[v] + 1);
      } else {
        var j :| 0 <= j < |more| && more[j] == x;
        assert w'.queue[|w.queue| - 1 + j] == x && w'.ql[|w.queue| - 1 + j] == w.ql[0] + 1;
      }
    }
  }

  ghost predicate InOrder(a: Adj, done: seq<string>)
  {
    done <= Firsts(a.ids, Queued(a, done)) && OrderAfter(a, done) == Order(a)
  }

  /** The queue's history explains which nodes were executed, and in which order. */
  ghost predicate History(a: Adj, w: Work, executed: seq<string>)
  {
    && (forall x :: x in w.popped <==> x in w.level)
    && w.popped + w.queue == Queued(a, executed)
    && executed == Firsts(a.ids, w.popped)
    && InOrder(a, executed)
  }

  ghost predicate NearestFirst(level: map<string, nat>, executed: seq<string>) {
    && (forall x :: x in executed ==> x in level)
    && forall i, j :: 0 <= i < j < |executed| ==> level[executed[i]] <= level[executed[j]]
  }

  /** The full invariant of the worklist loop. */
  ghost predicate Inv(a: Adj, w: Work, executed: seq<string>)
  {
    Levels(a, w) && History(a, w, executed) && NearestFirst(w.level, executed)
  }

  /** The head of the queue, unvisited and existing, is what the order asks for next. */
  lemma ExecuteNext(a: Adj, done: seq<string>, x: string, popped: seq<string>, queue: seq<string>)
    requires popped + [x] + queue == Queued(a, done)
    requires done == Firsts(a.ids, popped) && x !in popped && x in a.ids
    requires InOrder(a, done)
    ensures Firsts(a.ids, popped + [x]) == done + [x] && InOrder(a, done + [x])
  {
    var p := popped + [x];
    assert p[..|popped|] == popped;
    FirstsAreFirst(a.ids, popped);
    FirstsExtend(a.ids, p, queue);
    assert (done + [x])[..|done|] == done;
    FirstsExtend(a.ids, Queued(a, done), a.next(x));
  }

  ghost function Executed(a: Adj, w: Work, executed: seq<string>): seq<string>
    requires |w.queue| > 0
  {
    if w.queue[0] !in w.level && w.queue[0] in a.ids then executed + [w.queue[0]] else executed
  }

  lemma RoundKeepsHistory(a: Adj, w: Work, executed: seq<string>)
    requires History(a, w, executed) && |w.ql| == |w.queue| > 0
    ensures History(a, Round(w, Appended(a, w)), Executed(a, w, executed))
  {
    var x := w.queue[0];
    if x !in w.level && x in a.ids {
      ExecuteKeepsHistory(a, w.popped, w.queue, executed);
    } else {
      SkipKeepsHistory(a, w.popped, w.queue, executed);
    }
  }

  /** The head is executed: its targets join the queue. */
  lemma ExecuteKeepsHistory(a: Adj, popped: seq<string>, queue: seq<string>, executed: seq<string>)
    requires queue != [] && queue[0] !in popped && queue[0] in a.ids && InOrder(a, executed)
    requires popped + queue == Queued(a, executed) && executed == Firsts(a.ids, popped)
    ensures var x := queue[0];
            && popped + [x] + (queue[1..] + a.next(x)) == Queued(a, executed + [x])
            && executed + [x] == Firsts(a.ids, popped + [x]) && InOrder(a, executed + [x])
  {
    var x := queue[0];
    assert popped + [x] + queue[1..] == popped + queue;
    ExecuteNext(a, executed, x, popped, queue[1..]);
    assert (executed + [x])[..|executed|] == executed;
    assert popped + [x] + (queue[1..] + a.next(x)) == popped + queue + a.next(x);
  }

  /** The head is dropped: it was visited before, or does not exist. */
  lemma SkipKeepsHistory(a: Adj, popped: seq<string>, queue: seq<string>, executed: seq<string>)
    requires queue != [] && (queue[0] in popped || queue[0] !in a.ids)
    requires popped + queue == Queued(a, executed) && executed == Firsts(a.ids, popped)
    ensures popped + [queue[0]] + (queue[1..] + []) == Queued(a, executed)
    ensures executed == Firsts(a.ids, popped + [queue[0]])
  {
    var p := popped + [queue[0]];
    assert p[..|popped|] == popped;
    FirstsAreFirst(a.ids, popped);
    assert p + (queue[1..] + []) == popped + queue;
  }

  lemma RoundKeepsNearest(a: Adj, w: Work, executed: seq<string>)
    requires |w.ql| == |w.queue| > 0 && VisitedLevels(a, w) && NearestFirst(w.level, executed)
    ensures NearestFirst(Round(w, Appended(a, w)).level, Executed(a, w, executed))
  {
  }

  /** A round keeps the invariant, whichever of the three branches it takes. */
  lemma RoundKeepsInv(a: Adj, w: Work, executed: seq<string>)
    requires Inv(a, w, executed) && |w.queue| > 0
    ensures Inv(a, Round(w, Appended(a, w)), Executed(a, w, executed))
  {
    RoundKeepsQueue(a, w);
    RoundKeepsVisited(a, w);
    RoundKeepsEdges(a, w);
    RoundKeepsHistory(a, w, executed);
    RoundKeepsNearest(a, w, executed);
  }

  lemma Started(a: Adj, w: Work)
    requires w == Work([], [a.start], map[], [0])
    ensures Inv(a, w, [])
  {
  }

  /** What the invariant says once the queue is empty. */
  lemma Finished(a: Adj, w: Work, executed: seq<string>)
    requires Inv(a, w, executed) && w.queue == []
    ensures executed == Order(a) && Distinct(executed)
    ensures forall id :: id in executed <==> id in a.ids && Reachable(a, id)
    ensures forall i, j :: 0 <= i < j < |executed| ==> NoFarther(a, executed[i], executed[j])
  {
    assert w.popped + w.queue == w.popped;
    FirstsAreFirst(a.ids, w.popped);
    forall id | id in a.ids && Reachable(a, id)
      ensures id in executed
    {
      var n: nat :| HasPath(a, id, n);
      HeadIsNearest(a, w, id, n);
      assert id in w.popped;
    }
    forall id | id in executed
      ensures id in a.ids && Reachable(a, id)
    {
      assert HasPath(a, id, w.level[id]);
    }
    forall i, j | 0 <= i < j < |executed|
      ensures NoFarther(a, executed[i], executed[j])
    {
      var x, y := executed[i], executed[j];
      forall n: nat | HasPath(a, y, n)
        ensures exists m: nat :: m <= n && HasPath(a, x, m)
      {
        assert w.level[x] <= w.level[y] <= n && HasPath(a, x, w.level[x]);
      }
    }
  }

  // ---------- The executor ----------

  function Lookup(m: map<string, seq<string>>, src: string): seq<string> {
    if src in m then m[src] else []
  }

  /** `edge_map`, filled edge by edge. */
  method BuildEdgeMap(edges: seq<Edge>) returns (m: map<string, seq<string>>)
    ensures forall src :: Lookup(m, src) == Targets(edges, src)
  {
    m := map[];
    for i := 0 to |edges|
      invariant forall src :: Lookup(m, src) == Targets(edges[..i], src)
    {
      ghost var before := m;
      var src, tgt := End(edges[i].source), End(edges[i].target);
      if src !in m {
        m := m[src := []];
      }
      m := m[src := m[src] + [tgt]];
      assert edges[..i + 1][..i] == edges[..i];
      forall v
        ensures Lookup(m, v) == Targets(edges[..i + 1], v)
      {
        assert Lookup(before, v) == Targets(edges[..i], v);
      }
    }
    assert edges[..|edges|] == edges;
  }

  ghost function Universe(g: Graph): set<string>
    requires g.nodes != []
  {
    {g.nodes[0].id} + set e | e in g.edges :: End(e.target)
  }

  lemma {:induction false} TargetsInUniverse(edges: seq<Edge>, src: string, w: string)
    requires w in Targets(edges, src)
    ensures exists e :: e in edges && End(e.target) == w
  {
    var k := |edges| - 1;
    if w in Targets(edges[..k], src) {
      TargetsInUniverse(edges[..k], src, w);
    } else {
      assert edges[k] in edges;
    }
  }

  lemma {:induction false} QueuedInUniverse(g: Graph, done: seq<string>, x: string)
    requires g.nodes != [] && x in Queued(AdjOf(g), done)
    ensures x in Universe(g)
  {
    if done != [] {
      var before, last := done[..|done| - 1], done[|done| - 1];
      if x in Queued(AdjOf(g), before) {
        QueuedInUniverse(g, before, x);
      } else {
        TargetsInUniverse(g.edges, last, x);
      }
    }
  }

  /** The next id to pop is a node of the drawing or the target of one of its edges. */
  lemma HeadInUniverse(g: Graph, w: Work, executed: seq<string>)
    requires g.nodes != [] && |w.queue| > 0 && w.popped + w.queue == Queued(AdjOf(g), executed)
    ensures w.queue[0] in Universe(g)
  {
    assert (w.popped + w.queue)[|w.popped|] == w.queue[0];
    QueuedInUniverse(g, executed, w.queue[0]);
  }

  lemma RoundShape(g: Graph, w: Work)
    requires g.nodes != [] && |w.ql| == |w.queue| > 0
    ensures var x, w' := w.queue[0], Round(w, Appended(AdjOf(g), w));
            && |w'.ql| == |w'.queue|
            && w'.level.Keys == w.level.Keys + {x}
            && w'.queue == w.queue[1..] + (if x !in w.level && x in NodeMap(g.nodes) then Targets(g.edges, x) else [])
  {
  }

  /** One round, branch by branch, in the terms of the loop. */
  lemma RoundSteps(g: Graph, w: Work, executed: seq<string>)
    requires g.nodes != [] && |w.ql| == |w.queue| > 0 && Inv(AdjOf(g), w, executed)
    ensures var x, w' := w.queue[0], Round(w, Appended(AdjOf(g), w));
            && x in Universe(g)
            && |w'.ql| == |w'.queue|
            && w'.level.Keys == w.level.Keys + {x}
            && w'.queue == w.queue[1..] + (if x !in w.level && x in NodeMap(g.nodes) then Targets(g.edges, x) else [])
            && Inv(AdjOf(g), w', if x !in w.level && x in NodeMap(g.nodes) then executed + [x] else executed)
  {
    RoundShape(g, w);
    RoundKeepsInv(AdjOf(g), w, executed);
    HeadInUniverse(g, w, executed);
  }

  /** `y` is no nearer to the first node than `x`, edge by edge of the drawing. */
  ghost predicate NearerOnDrawing(g: Graph, x: string, y: string)
    requires g.nodes != []
  {
    forall n: nat :: Walk(g, y, n) ==> exists m: nat :: m <= n && Walk(g, x, m)
  }

  lemma ReachableIsCanWalk(g: Graph, a: Adj, id: string)
    requires g.nodes != [] && a == AdjOf(g)
    ensures Reachable(a, id) <==> CanWalk(g, id)
    ensures id in a.ids <==> IsNode(g, id)
  {
    AdjIsDrawn(g, id, id);
    forall n: nat
      ensures HasPath(a, id, n) <==> Walk(g, id, n)
    {
      PathsAreWalks(g, a, id, n);
    }
  }

  lemma NearerIsNearerOnDrawing(g: Graph, a: Adj, x: string, y: string)
    requires g.nodes != [] && a == AdjOf(g) && NoFarther(a, x, y)
    ensures NearerOnDrawing(g, x, y)
  {
    forall n: nat | Walk(g, y, n)
      ensures exists m: nat :: m <= n && Walk(g, x, m)
    {
      PathsAreWalks(g, a, y, n);
      var m: nat :| m <= n && HasPath(a, x, m);
      PathsAreWalks(g, a, x, m);
    }
  }

  lemma OnTheDrawing(g: Graph, a: Adj, executed: seq<string>)
    requires g.nodes != [] && a == AdjOf(g)
    requires forall id :: id in executed <==> id in a.ids && Reachable(a, id)
    requires forall i, j :: 0 <= i < j < |executed| ==> NoFarther(a, executed[i], executed[j])
    ensures forall id :: id in executed <==> IsNode(g, id) && CanWalk(g, id)
    ensures forall i, j :: 0 <= i < j < |executed| ==> NearerOnDrawing(g, executed[i], executed[j])
  {
    forall id
      ensures id in executed <==> IsNode(g, id) && CanWalk(g, id)
    {
      ReachableIsCanWalk(g, a, id);
    }
    forall i, j | 0 <= i < j < |executed|
      ensures NearerOnDrawing(g, executed[i], executed[j])
    {
      NearerIsNearerOnDrawing(g, a, executed[i], executed[j]);
    }
  }

  /** The worklist loop. It ends on every graph; it executes exactly the existing nodes
      reachable through existing nodes, each once, nearest first, in queue order. */
  method Traverse<R>(g: Graph, handle: Handler<R>) returns (executed: seq<string>, responses: seq<R>)
    requires g.nodes != []
    ensures executed == Order(AdjOf(g))
    ensures Distinct(executed)
    ensures forall id :: id in executed <==> IsNode(g, id) && CanWalk(g, id)
    ensures forall i, j :: 0 <= i < j < |executed| ==> NearerOnDrawing(g, executed[i], executed[j])
    ensures responses == Responses(NodeMap(g.nodes), handle, executed)
  {
    ghost var w;
    executed, responses, w := RunQueue(g, handle);
    Finished(AdjOf(g), w, executed);
    OnTheDrawing(g, AdjOf(g), executed);
  }

  method RunQueue<R>(g: Graph, handle: Handler<R>) returns (executed: seq<string>, responses: seq<R>, ghost w: Work)
    requires g.nodes != []
    ensures Inv(AdjOf(g), w, executed) && w.queue == []
    ensures responses == Responses(NodeMap(g.nodes), handle, executed)
  {
    var edgeMap := BuildEdgeMap(g.edges);
    var visited: set<string> := {};
    var queue := [g.nodes[0].id];
    var nodeMap := NodeMap(g.nodes);
    executed, responses := [], [];
    w := Work([], queue, map[], [0]);
    Started(AdjOf(g), w);
    while queue != []
      invariant queue == w.queue && |w.ql| == |w.queue| && visited == w.level.Keys
      invariant Inv(AdjOf(g), w, executed)
      invariant responses == Responses(nodeMap, handle, executed)
      decreases Universe(g) - visited, |queue|
    {
      RoundSteps(g, w, executed);
      w := Round(w, Appended(AdjOf(g), w));
      var nodeId := queue[0];
      queue := queue[1..];
      if nodeId !in visited {
        visited := visited + {nodeId};
        if nodeId in nodeMap {
          ResponsesGrow(nodeMap, handle, executed, nodeId);
          var result := handle(executed, nodeMap[nodeId]);
          executed := executed + [nodeId];
          if result.Some? {
            responses := responses + [result.value];
          }
          queue := queue + Lookup(edgeMap, nodeId);
        }
      }
    }
  }

  class Flow {
    const graph: Graph
    var executionCount: nat

    constructor (graph: Graph)
      ensures this.graph == graph && executionCount == 0
    {
      this.graph := graph;
      executionCount := 0;
    }

    /** A flow without nodes is not even counted as executed. */
    method Execute<R>(handle: Handler<R>) returns (responses: seq<R>)
      modifies this
      ensures graph.nodes == [] ==> responses == [] && executionCount == old(executionCount)
      ensures graph.nodes != [] ==>
                && executionCount == old(executionCount) + 1
                && responses == Responses(NodeMap(graph.nodes), handle, Order(AdjOf(graph)))
    {
      if graph.nodes == [] {
        return [];
      }
      var executed;
      executed, responses := Traverse(graph, handle);
      executionCount := executionCount + 1;
    }
  }
}
