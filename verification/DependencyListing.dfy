/** The dependency graph read back from a preorder listing in which every line states its depth. */
module DependencyListing {
  import opened Wrappers

  type Id = string
  type Meta = string

  datatype Line = Line(depth: nat, id: Id, meta: Meta)

  /** What the loop carries from line to line. */
  datatype State = State(nodes: map<Id, Meta>, edges: set<(Id, Id)>, stack: seq<Id>)

  const EMPTY: State := State(map[], {}, [])

  datatype Fault = NoLines | Conflict(id: Id) | DepthJump(id: Id)

  /** One line of the listing. */
  function Take(s: State, l: Line): Result<State, Fault> {
    if l.id in s.nodes && s.nodes[l.id] != l.meta then Err(Conflict(l.id))
    else if l.depth > |s.stack| then Err(DepthJump(l.id))
    else
      var open := s.stack[..l.depth];
      var edges := if l.depth > 0 then s.edges + {(open[l.depth - 1], l.id)} else s.edges;
      Ok(State(s.nodes[l.id := l.meta], edges, open + [l.id]))
  }

  function Run(s: State, lines: seq<Line>): Result<State, Fault>
    decreases |lines|
  {
    if |lines| == 0 then Ok(s)
    else
      var next := Take(s, lines[0]);
      if next.Err? then next else Run(next.value, lines[1..])
  }

  lemma {:induction false} RunJoined(s: State, a: seq<Line>, b: seq<Line>)
    ensures Run(s, a + b) == (var r := Run(s, a); if r.Err? then r else Run(r.value, b))
    decreases |a|
  {
    if |a| == 0 {
      assert a + b == b;
    } else {
      assert (a + b)[1..] == a[1..] + b;
      var next := Take(s, a[0]);
      if next.Ok? {
        RunJoined(next.value, a[1..], b);
      }
    }
  }

  lemma {:induction false} RunOne(s: State, lines: seq<Line>, n: nat)
    requires n < |lines|
    ensures Run(s, lines[..n + 1]) == (var r := Run(s, lines[..n]); if r.Err? then r else Take(r.value, lines[n]))
  {
    assert lines[..n + 1] == lines[..n] + [lines[n]];
    RunJoined(s, lines[..n], [lines[n]]);
    assert [lines[n]][1..] == [];
  }

  // -------------------------------------------------- what a listing says itself

  /** A line is at most one level below the line before it; the first is at the top. */
  predicate NoJump(lines: seq<Line>) {
    forall i :: 0 <= i < |lines| ==> NoJumpAt(lines, i)
  }

  predicate NoJumpAt(lines: seq<Line>, i: int)
    requires 0 <= i < |lines|
  {
    lines[i].depth <= if i == 0 then 0 else lines[i - 1].depth + 1
  }

  predicate MetaAgrees(lines: seq<Line>) {
    forall i, j :: 0 <= i < j < |lines| && lines[i].id == lines[j].id ==> lines[i].meta == lines[j].meta
  }

  /** The nearest earlier line that is not as deep, one level up. */
  predicate ParentLine(lines: seq<Line>, j: int, i: int) {
    && 0 <= j < i < |lines|
    && lines[j].depth + 1 == lines[i].depth
    && forall k :: j < k < i ==> lines[k].depth >= lines[i].depth
  }

  ghost predicate SaysEdge(lines: seq<Line>, a: Id, b: Id) {
    exists j, i :: ParentLine(lines, j, i) && lines[j].id == a && lines[i].id == b
  }

  ghost predicate Reads(lines: seq<Line>, nodes: map<Id, Meta>, edges: set<(Id, Id)>) {
    ReadsNodes(lines, nodes) && forall a, b :: (a, b) in edges <==> SaysEdge(lines, a, b)
  }

  /** The nodes are those of the lines, with what the lines say of them. */
  ghost predicate ReadsNodes(lines: seq<Line>, nodes: map<Id, Meta>) {
    && (forall i :: 0 <= i < |lines| ==> lines[i].id in nodes && nodes[lines[i].id] == lines[i].meta)
    && (forall id :: id in nodes ==> exists i :: 0 <= i < |lines| && lines[i].id == id)
  }

  /** The stack holds, at each level, the last line that is still open there. */
  ghost predicate OpenLines(lines: seq<Line>, stack: seq<Id>, at: seq<nat>) {
    && |at| == |stack|
    && (forall d :: 0 <= d < |at| ==> OpenAt(lines, stack[d], d, at[d]))
    && |stack| == if |lines| == 0 then 0 else lines[|lines| - 1].depth + 1
  }

  predicate OpenAt(lines: seq<Line>, id: Id, d: nat, j: nat) {
    && j < |lines| && lines[j].depth == d && lines[j].id == id
    && forall k :: j < k < |lines| ==> lines[k].depth > d
  }

  lemma {:induction false} ParentOfLast(lines: seq<Line>, l: Line, stack: seq<Id>, at: seq<nat>, j: int)
    requires OpenLines(lines, stack, at) && l.depth <= |stack|
    ensures ParentLine(lines + [l], j, |lines|) <==> l.depth > 0 && j == at[l.depth - 1]
  {
    var more := lines + [l];
    if l.depth > 0 {
      var up := at[l.depth - 1];
      assert OpenAt(lines, stack[l.depth - 1], l.depth - 1, up);
      assert forall k :: up < k < |lines| ==> more[k] == lines[k];
      if ParentLine(more, j, |lines|) {
        assert more[j] == lines[j];
        assert more[up] == lines[up];
      }
    }
  }

  lemma {:induction false} EdgesMore(lines: seq<Line>, l: Line, stack: seq<Id>, at: seq<nat>, a: Id, b: Id)
    requires OpenLines(lines, stack, at) && l.depth <= |stack|
    ensures SaysEdge(lines + [l], a, b) <==>
              SaysEdge(lines, a, b) || (l.depth > 0 && a == stack[l.depth - 1] && b == l.id)
  {
    var more := lines + [l];
    if j, i :| ParentLine(more, j, i) && more[j].id == a && more[i].id == b {
      if i == |lines| {
        ParentOfLast(lines, l, stack, at, j);
        assert OpenAt(lines, stack[l.depth - 1], l.depth - 1, at[l.depth - 1]);
      } else {
        assert forall k :: 0 <= k < |lines| ==> more[k] == lines[k];
        assert ParentLine(lines, j, i);
      }
    }
    if j, i :| ParentLine(lines, j, i) && lines[j].id == a && lines[i].id == b {
      assert forall k :: 0 <= k < |lines| ==> more[k] == lines[k];
      assert ParentLine(more, j, i);
    }
    if l.depth > 0 && a == stack[l.depth - 1] && b == l.id {
      ParentOfLast(lines, l, stack, at, at[l.depth - 1]);
      assert OpenAt(lines, stack[l.depth - 1], l.depth - 1, at[l.depth - 1]);
      assert ParentLine(more, at[l.depth - 1], |lines|) && more[at[l.depth - 1]].id == a && more[|lines|].id == b;
    }
  }

  lemma {:induction false} OpenMore(lines: seq<Line>, l: Line, stack: seq<Id>, at: seq<nat>)
    requires OpenLines(lines, stack, at) && l.depth <= |stack|
    ensures OpenLines(lines + [l], stack[..l.depth] + [l.id], at[..l.depth] + [|lines|])
  {
  }

  /** The line does not jump, and says of its package what earlier lines said. */
  predicate Follows(lines: seq<Line>, l: Line) {
    && l.depth <= (if |lines| == 0 then 0 else lines[|lines| - 1].depth + 1)
    && forall i :: 0 <= i < |lines| && lines[i].id == l.id ==> lines[i].meta == l.meta
  }

  lemma {:induction false} TakeMeans(lines: seq<Line>, s: State, at: seq<nat>, l: Line)
    requires Reads(lines, s.nodes, s.edges) && OpenLines(lines, s.stack, at)
    ensures Take(s, l).Ok? <==> Follows(lines, l)
    ensures Take(s, l).Ok? ==> l.depth <= |at|
    ensures Take(s, l).Ok? ==> Reads(lines + [l], Take(s, l).value.nodes, Take(s, l).value.edges)
    ensures Take(s, l).Ok? ==> OpenLines(lines + [l], Take(s, l).value.stack, at[..l.depth] + [|lines|])
  {
    hide SaysEdge, OpenLines;
    OpenHeight(lines, s.stack, at);
    if Take(s, l).Ok? {
      OpenMore(lines, l, s.stack, at);
      forall a, b
        ensures SaysEdge(lines + [l], a, b) <==>
                  SaysEdge(lines, a, b) || (l.depth > 0 && a == s.stack[l.depth - 1] && b == l.id)
      {
        EdgesMore(lines, l, s.stack, at, a, b);
      }
      NodesMore(lines, s, l);
    }
  }

  lemma {:induction false} OpenHeight(lines: seq<Line>, stack: seq<Id>, at: seq<nat>)
    requires OpenLines(lines, stack, at)
    ensures |at| == |stack| == if |lines| == 0 then 0 else lines[|lines| - 1].depth + 1
  {
  }

  lemma {:induction false} NodesMore(lines: seq<Line>, s: State, l: Line)
    requires ReadsNodes(lines, s.nodes) && (l.id in s.nodes ==> s.nodes[l.id] == l.meta)
    ensures ReadsNodes(lines + [l], s.nodes[l.id := l.meta])
  {
    var more, nodes := lines + [l], s.nodes[l.id := l.meta];
    assert more[|lines|] == l;
    forall id | id in nodes
      ensures exists i :: 0 <= i < |more| && more[i].id == id
    {
      if id in s.nodes {
        var i :| 0 <= i < |lines| && lines[i].id == id;
        assert more[i].id == id;
      }
    }
  }

  predicate Consistent(lines: seq<Line>) {
    NoJump(lines) && MetaAgrees(lines)
  }

  lemma {:induction false} NoJumpMore(lines: seq<Line>, l: Line)
    ensures NoJump(lines + [l]) <==>
              NoJump(lines) && l.depth <= if |lines| == 0 then 0 else lines[|lines| - 1].depth + 1
  {
    var more := lines + [l];
    assert NoJumpAt(more, |lines|) <==> l.depth <= if |lines| == 0 then 0 else lines[|lines| - 1].depth + 1;
    assert forall k :: 0 <= k < |lines| ==> (NoJumpAt(lines, k) <==> NoJumpAt(more, k));
  }

  lemma {:induction false} MetaMore(lines: seq<Line>, l: Line)
    ensures MetaAgrees(lines + [l]) <==>
              MetaAgrees(lines) && forall i :: 0 <= i < |lines| && lines[i].id == l.id ==> lines[i].meta == l.meta
  {
    var more := lines + [l];
    assert more[|lines|] == l;
    if MetaAgrees(more) {
      forall i, j | 0 <= i < j < |lines| && lines[i].id == lines[j].id
        ensures lines[i].meta == lines[j].meta
      {
        assert more[i] == lines[i] && more[j] == lines[j];
      }
      forall i | 0 <= i < |lines| && lines[i].id == l.id
        ensures lines[i].meta == l.meta
      {
        assert more[i] == lines[i];
      }
    }
  }

  lemma {:induction false} ConsistentMore(lines: seq<Line>, n: nat)
    requires n < |lines|
    ensures Consistent(lines[..n + 1]) <==> Consistent(lines[..n]) && Follows(lines[..n], lines[n])
  {
    hide NoJump, MetaAgrees;
    assert lines[..n + 1] == lines[..n] + [lines[n]];
    NoJumpMore(lines[..n], lines[n]);
    MetaMore(lines[..n], lines[n]);
  }

  lemma {:induction false} ConsistentLess(lines: seq<Line>, n: nat)
    requires n <= |lines|
    ensures Consistent(lines) ==> Consistent(lines[..n])
  {
    assert forall k :: 0 <= k < n ==> lines[..n][k] == lines[k] && (NoJumpAt(lines[..n], k) <==> NoJumpAt(lines, k));
  }

  /**
    The loop of `resolve_graph`. A listing is accepted exactly when it is not empty, never jumps and never
    contradicts itself; then the nodes are the packages listed and an edge leads from the nearest shallower line
    to each line below the top. `Run` is what the loop computes, error included.
   */
  method Resolve(lines: seq<Line>) returns (r: Result<State, Fault>)
    ensures r.Ok? <==> lines != [] && Consistent(lines)
    ensures r.Ok? ==> Reads(lines, r.value.nodes, r.value.edges)
    ensures r == if lines == [] then Err(NoLines) else Run(EMPTY, lines)
  {
    hide Consistent, Reads, OpenLines, Take;
    if lines == [] {
      return Err(NoLines);
    }
    var state := EMPTY;
    ghost var at: seq<nat> := [];
    StartsEmpty(lines);
    for n := 0 to |lines|
      invariant Run(EMPTY, lines[..n]) == Ok(state)
      invariant Consistent(lines[..n])
      invariant Reads(lines[..n], state.nodes, state.edges) && OpenLines(lines[..n], state.stack, at)
    {
      RunOne(EMPTY, lines, n);
      ConsistentMore(lines, n);
      ConsistentLess(lines, n + 1);
      TakeMeans(lines[..n], state, at, lines[n]);
      assert lines[..n] + [lines[n]] == lines[..n + 1];
      r := Take(state, lines[n]);
      if r.Err? {
        RunFails(EMPTY, lines, n + 1);
        return;
      }
      at := at[..lines[n].depth] + [n];
      state := r.value;
    }
    assert lines[..|lines|] == lines;
    r := Ok(state);
  }

  lemma {:induction false} StartsEmpty(lines: seq<Line>)
    ensures Run(EMPTY, lines[..0]) == Ok(EMPTY) && Consistent(lines[..0])
    ensures Reads(lines[..0], EMPTY.nodes, EMPTY.edges) && OpenLines(lines[..0], EMPTY.stack, [])
  {
  }

  lemma {:induction false} RunFails(s: State, lines: seq<Line>, n: nat)
    requires n <= |lines| && Run(s, lines[..n]).Err?
    ensures Run(s, lines) == Run(s, lines[..n])
  {
    assert lines == lines[..n] + lines[n..];
    RunJoined(s, lines[..n], lines[n..]);
  }

  // ------------------------------------------------------------------- forests

  datatype Tree = Node(id: Id, meta: Meta, children: seq<Tree>)

  /** How a forest is printed: each root, then what is below it one level deeper, then the rest. */
  function Listing(forest: seq<Tree>, depth: nat): seq<Line> {
    if |forest| == 0 then []
    else
      [Line(depth, forest[0].id, forest[0].meta)]
      + Listing(forest[0].children, depth + 1) + Listing(forest[1..], depth)
  }

  function Ids(forest: seq<Tree>): set<Id> {
    if |forest| == 0 then {} else {forest[0].id} + Ids(forest[0].children) + Ids(forest[1..])
  }

  /** The edges from a parent to the roots of a forest. */
  function Below(parent: Id, forest: seq<Tree>): set<(Id, Id)> {
    set k | 0 <= k < |forest| :: (parent, forest[k].id)
  }

  function TreeEdges(forest: seq<Tree>): set<(Id, Id)> {
    if |forest| == 0 then {}
    else Below(forest[0].id, forest[0].children) + TreeEdges(forest[0].children) + TreeEdges(forest[1..])
  }

  /** Every node carries the metadata on record for its package. */
  predicate Describes(forest: seq<Tree>, metas: map<Id, Meta>) {
    |forest| > 0 ==>
      && forest[0].id in metas && metas[forest[0].id] == forest[0].meta
      && Describes(forest[0].children, metas) && Describes(forest[1..], metas)
  }

  predicate Within(nodes: map<Id, Meta>, metas: map<Id, Meta>) {
    forall id :: id in nodes ==> id in metas && metas[id] == nodes[id]
  }

  /** What reading a printed forest below an open path leaves behind. */
  ghost predicate ReadForest(forest: seq<Tree>, depth: nat, s: State, t: State)
    requires depth <= |s.stack|
  {
    && t.nodes.Keys == s.nodes.Keys + Ids(forest)
    && t.edges == s.edges + TreeEdges(forest) + (if depth > 0 then Below(s.stack[depth - 1], forest) else {})
    && |t.stack| >= depth && t.stack[..depth] == s.stack[..depth]
  }

  lemma {:induction false} ReadRoot(root: Tree, depth: nat, s: State, metas: map<Id, Meta>)
    requires depth <= |s.stack| && Within(s.nodes, metas) && root.id in metas && metas[root.id] == root.meta
    ensures var r := Take(s, Line(depth, root.id, root.meta));
            && r.Ok? && Within(r.value.nodes, metas)
            && r.value.nodes.Keys == s.nodes.Keys + {root.id}
            && r.value.edges == s.edges + (if depth > 0 then {(s.stack[depth - 1], root.id)} else {})
            && r.value.stack == s.stack[..depth] + [root.id]
  {
  }

  lemma {:induction false} BelowSplit(parent: Id, forest: seq<Tree>)
    requires |forest| > 0
    ensures Below(parent, forest) == {(parent, forest[0].id)} + Below(parent, forest[1..])
  {
  }

  lemma {:induction false} RunListing(forest: seq<Tree>, depth: nat, s: State)
    requires |forest| > 0
    ensures var root := Take(s, Line(depth, forest[0].id, forest[0].meta));
            Run(s, Listing(forest, depth))
            == if root.Err? then root
               else
                 var inner := Run(root.value, Listing(forest[0].children, depth + 1));
                 if inner.Err? then inner else Run(inner.value, Listing(forest[1..], depth))
  {
    var first := [Line(depth, forest[0].id, forest[0].meta)];
    var inner, rest := Listing(forest[0].children, depth + 1), Listing(forest[1..], depth);
    assert Listing(forest, depth) == first + (inner + rest);
    RunJoined(s, first, inner + rest);
    assert first[1..] == [];
    var root := Take(s, first[0]);
    if root.Ok? {
      RunJoined(root.value, inner, rest);
    }
  }

  lemma {:induction false} ReadJoined(forest: seq<Tree>, depth: nat, s: State, r: State, i: State, t: State)
    requires |forest| > 0 && depth <= |s.stack|
    requires r.nodes.Keys == s.nodes.Keys + {forest[0].id}
    requires r.edges == s.edges + (if depth > 0 then {(s.stack[depth - 1], forest[0].id)} else {})
    requires r.stack == s.stack[..depth] + [forest[0].id]
    requires ReadForest(forest[0].children, depth + 1, r, i)
    requires depth <= |i.stack| && ReadForest(forest[1..], depth, i, t)
    ensures ReadForest(forest, depth, s, t)
  {
    hide Below;
    assert r.stack[depth] == forest[0].id;
    assert i.stack[..depth] == i.stack[..depth + 1][..depth] == r.stack[..depth + 1][..depth] == s.stack[..depth];
    if depth > 0 {
      BelowSplit(s.stack[depth - 1], forest);
      assert i.stack[depth - 1] == i.stack[..depth][depth - 1];
      assert s.stack[depth - 1] == s.stack[..depth][depth - 1];
    }
  }

  /** Reading what was printed adds exactly the forest's packages and edges, and returns to the open path. */
  lemma {:induction false} ReadsPrinted(forest: seq<Tree>, depth: nat, s: State, metas: map<Id, Meta>)
    requires depth <= |s.stack| && Within(s.nodes, metas) && Describes(forest, metas)
    ensures var r := Run(s, Listing(forest, depth));
            r.Ok? && Within(r.value.nodes, metas) && ReadForest(forest, depth, s, r.value)
    decreases forest
  {
    hide ReadForest, Take, Within;
    if |forest| == 0 {
      ReadsNothing(forest, depth, s);
    } else {
      ReadRoot(forest[0], depth, s, metas);
      RunListing(forest, depth, s);
      var r := Take(s, Line(depth, forest[0].id, forest[0].meta)).value;
      ReadsPrinted(forest[0].children, depth + 1, r, metas);
      var i := Run(r, Listing(forest[0].children, depth + 1)).value;
      ReadStack(forest[0].children, depth + 1, r, i);
      ReadsPrinted(forest[1..], depth, i, metas);
      var t := Run(i, Listing(forest[1..], depth)).value;
      ReadJoined(forest, depth, s, r, i, t);
    }
  }

  lemma {:induction false} ReadsNothing(forest: seq<Tree>, depth: nat, s: State)
    requires depth <= |s.stack| && |forest| == 0
    ensures ReadForest(forest, depth, s, s)
  {
  }

  lemma {:induction false} ReadStack(forest: seq<Tree>, depth: nat, s: State, t: State)
    requires depth <= |s.stack| && ReadForest(forest, depth, s, t)
    ensures |t.stack| >= depth
  {
  }

  /** What was read describes the forest: a printed forest is only accepted if its metadata agree. */
  lemma {:induction false} AcceptedDescribes(forest: seq<Tree>, depth: nat, s: State)
    requires Run(s, Listing(forest, depth)).Ok?
    ensures Within(s.nodes, Run(s, Listing(forest, depth)).value.nodes)
    ensures Describes(forest, Run(s, Listing(forest, depth)).value.nodes)
    decreases forest
  {
    if |forest| > 0 {
      RunListing(forest, depth, s);
      var r := Take(s, Line(depth, forest[0].id, forest[0].meta)).value;
      AcceptedDescribes(forest[0].children, depth + 1, r);
      var i := Run(r, Listing(forest[0].children, depth + 1)).value;
      AcceptedDescribes(forest[1..], depth, i);
      var t := Run(i, Listing(forest[1..], depth)).value;
      assert r.nodes[forest[0].id] == forest[0].meta;
      DescribesMore(forest[0].children, i.nodes, t.nodes);
    }
  }

  lemma {:induction false} DescribesMore(forest: seq<Tree>, a: map<Id, Meta>, b: map<Id, Meta>)
    requires Describes(forest, a) && Within(a, b)
    ensures Describes(forest, b)
    decreases forest
  {
    if |forest| > 0 {
      DescribesMore(forest[0].children, a, b);
      DescribesMore(forest[1..], a, b);
    }
  }

  ghost predicate Describable(forest: seq<Tree>) {
    exists metas :: Describes(forest, metas)
  }

  /**
    Printing and reading undo each other: a printed forest is accepted exactly when no package is described in
    two ways, and what is read back is its packages, its edges and its metadata.
   */
  lemma {:induction false} PrintedIsRead(forest: seq<Tree>)
    ensures Run(EMPTY, Listing(forest, 0)).Ok? <==> Describable(forest)
    ensures Describable(forest) ==>
              var t := Run(EMPTY, Listing(forest, 0)).value;
              t.nodes.Keys == Ids(forest) && t.edges == TreeEdges(forest) && Describes(forest, t.nodes)
  {
    if Run(EMPTY, Listing(forest, 0)).Ok? {
      AcceptedDescribes(forest, 0, EMPTY);
    }
    if metas :| Describes(forest, metas) {
      ReadsPrinted(forest, 0, EMPTY, metas);
    }
  }
}
