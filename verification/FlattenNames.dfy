// Names in a hierarchy of graphs. Flattening turns the route to a component into one name by joining with dashes,
// so two routes may run into each other; here is what it takes that they do not.
module FlattenNames {
  import opened Graph
  import opened Flatten

  // ------------------------------------------------------------------ the paths of a hierarchy

  /** The component names in the edges, messages and exported ports of a level. */
  function Uses(g: Level): set<string> {
    (set e | e in g.edges :: e.inComp) + (set e | e in g.edges :: e.outComp) + (set m | m in g.imsgs :: m.comp)
    + (set x | x in g.extIn :: x.inComp) + (set x | x in g.extOut :: x.outComp)
  }

  /** Everything that has a name in a level or below it, seen from the level. */
  function Paths(g: Level): set<string>
    decreases g, 1
  {
    Uses(g) + NodePaths(g.nodes)
  }

  function NodePaths(cs: seq<Child>): set<string>
    decreases cs, 0
  {
    if cs == [] then {} else Inside(cs[0]) + NodePaths(cs[1..])
  }

  /** A node and everything below it. */
  function Inside(c: Child): set<string>
    decreases c, 0
  {
    {c.name} + if c.unit.Sub? then Below(c.name, Paths(c.unit.graph)) else {}
  }

  function Below(name: string, paths: set<string>): set<string> {
    set q | q in paths :: Join(name, q)
  }

  /** `name` is a node's, or no path of one. */
  predicate Clear(cs: seq<Child>, name: string) {
    forall k :: 0 <= k < |cs| ==> cs[k].name == name || name !in Inside(cs[k])
  }

  /** At every level no two nodes have a path in common, and no path of a node is used as the name of anything else. */
  predicate WellNamed(g: Level)
    decreases g, 1
  {
    (forall n :: n in Uses(g) ==> Clear(g.nodes, n)) && WellNamedNodes(g.nodes)
  }

  predicate WellNamedNodes(cs: seq<Child>)
    decreases cs, 0
  {
    cs != [] ==>
      && Inside(cs[0]) !! NodePaths(cs[1..])
      && (cs[0].unit.Sub? ==> WellNamed(cs[0].unit.graph))
      && WellNamedNodes(cs[1..])
  }

  // ------------------------------------------------------------------ joining

  lemma JoinDiffers(p: string, a: string)
    ensures Join(p, a) != p
  {
    assert |Join(p, a)| > |p|;
  }

  lemma JoinInjective(p: string, a: string, b: string)
    requires Join(p, a) == Join(p, b)
    ensures a == b
  {
    assert a == Join(p, a)[|p| + 1..] && b == Join(p, b)[|p| + 1..];
  }

  lemma JoinNested(p: string, a: string, b: string)
    ensures Join(Join(p, a), b) == Join(p, Join(a, b))
  {
  }

  /** `s` is one of the paths, seen from the graph at `path`. */
  predicate Among(paths: set<string>, path: string, s: string) {
    exists q :: q in paths && s == Join(path, q)
  }

  lemma AmongJoin(paths: set<string>, path: string, a: string)
    ensures Among(paths, path, Join(path, a)) <==> a in paths
  {
    if Among(paths, path, Join(path, a)) {
      var q :| q in paths && Join(path, a) == Join(path, q);
      JoinInjective(path, a, q);
    }
  }

  lemma AmongOne(these: set<string>, those: set<string>, path: string, s: string)
    requires these !! those && Among(these, path, s)
    ensures !Among(those, path, s)
  {
    var q :| q in these && s == Join(path, q);
    AmongJoin(those, path, q);
  }

  lemma AmongBelow(name: string, paths: set<string>, path: string, s: string)
    ensures Among(Below(name, paths), path, s) <==> Among(paths, Join(path, name), s)
  {
    if Among(Below(name, paths), path, s) {
      var r :| r in Below(name, paths) && s == Join(path, r);
      var q :| q in paths && r == Join(name, q);
      JoinNested(path, name, q);
    }
    if Among(paths, Join(path, name), s) {
      var q :| q in paths && s == Join(Join(path, name), q);
      JoinNested(path, name, q);
      assert Join(name, q) in Below(name, paths);
    }
  }

  // ------------------------------------------------------------------ nodes apart

  lemma {:induction false} NodeAt(cs: seq<Child>, k: nat)
    requires k < |cs|
    ensures Inside(cs[k]) <= NodePaths(cs)
    ensures WellNamedNodes(cs) && cs[k].unit.Sub? ==> WellNamed(cs[k].unit.graph)
    decreases k
  {
    if k > 0 {
      NodeAt(cs[1..], k - 1);
    }
  }

  lemma {:induction false} NodesApart(cs: seq<Child>, k: nat, l: nat)
    requires WellNamedNodes(cs) && k < l < |cs|
    ensures Inside(cs[k]) !! Inside(cs[l])
    decreases k
  {
    if k == 0 {
      NodeAt(cs[1..], l - 1);
    } else {
      NodesApart(cs[1..], k - 1, l - 1);
    }
  }

  lemma ClearTail(cs: seq<Child>, name: string)
    requires cs != [] && Clear(cs, name)
    ensures Clear(cs[1..], name)
  {
    assert forall k :: 0 <= k < |cs[1..]| ==> cs[1..][k] == cs[k + 1];
  }

  /** Where an endpoint on `name` may lead: into the node of that name, if there is one. */
  function Reach(cs: seq<Child>, name: string): set<string> {
    if cs == [] then {name} else if cs[0].name == name then Inside(cs[0]) else Reach(cs[1..], name)
  }

  lemma {:induction false} ReachNode(cs: seq<Child>, name: string)
    ensures name in Reach(cs, name)
    ensures Reach(cs, name) == {name} || exists k :: 0 <= k < |cs| && cs[k].name == name && Reach(cs, name) == Inside(cs[k])
  {
    if cs != [] && cs[0].name != name {
      ReachNode(cs[1..], name);
      if Reach(cs, name) != {name} {
        var k :| 0 <= k < |cs[1..]| && cs[1..][k].name == name && Reach(cs, name) == Inside(cs[1..][k]);
        assert cs[k + 1] == cs[1..][k];
      }
    }
  }

  lemma {:induction false} ReachApart(cs: seq<Child>, a: string, b: string)
    requires WellNamedNodes(cs) && Clear(cs, a) && Clear(cs, b) && a != b
    ensures Reach(cs, a) !! Reach(cs, b)
  {
    ReachNode(cs, a);
    ReachNode(cs, b);
    if Reach(cs, a) != {a} && Reach(cs, b) != {b} {
      var k :| 0 <= k < |cs| && cs[k].name == a && Reach(cs, a) == Inside(cs[k]);
      var l :| 0 <= l < |cs| && cs[l].name == b && Reach(cs, b) == Inside(cs[l]);
      if k < l { NodesApart(cs, k, l); } else { NodesApart(cs, l, k); }
    }
  }

  // ------------------------------------------------------------------ names without a dash

  /** No name has a dash, and at every level the nodes have distinct names. */
  predicate Plain(g: Level)
    decreases g, 1
  {
    (forall n :: n in Uses(g) ==> '-' !in n) && PlainNodes(g.nodes)
  }

  predicate PlainNodes(cs: seq<Child>)
    decreases cs, 0
  {
    cs != [] ==>
      && '-' !in cs[0].name && (forall c :: c in cs[1..] ==> c.name != cs[0].name)
      && (cs[0].unit.Sub? ==> Plain(cs[0].unit.graph))
      && PlainNodes(cs[1..])
  }

  function FirstPart(s: string): string {
    if s == [] || s[0] == '-' then [] else [s[0]] + FirstPart(s[1..])
  }

  lemma {:induction false} FirstPartIs(a: string, q: string)
    requires '-' !in a
    ensures FirstPart(a) == a && FirstPart(Join(a, q)) == a
  {
    if a != [] {
      FirstPartIs(a[1..], q);
      assert Join(a, q)[1..] == Join(a[1..], q);
    } else {
      assert Join(a, q)[0] == '-';
    }
  }

  lemma InsideStarts(c: Child)
    requires '-' !in c.name
    ensures forall s :: s in Inside(c) ==> FirstPart(s) == c.name && (s == c.name || '-' in s)
  {
    forall s | s in Inside(c) ensures FirstPart(s) == c.name && (s == c.name || '-' in s) {
      FirstPartIs(c.name, "");
      if s != c.name {
        var q :| q in Paths(c.unit.graph) && s == Join(c.name, q);
        FirstPartIs(c.name, q);
        assert s[|c.name|] == '-';
      }
    }
  }

  lemma {:induction false} NodePathsStart(cs: seq<Child>, s: string)
    requires PlainNodes(cs) && s in NodePaths(cs)
    ensures exists c :: c in cs && FirstPart(s) == c.name
  {
    if s in Inside(cs[0]) {
      InsideStarts(cs[0]);
    } else {
      NodePathsStart(cs[1..], s);
    }
  }

  lemma {:induction false} PlainIsClear(cs: seq<Child>, name: string)
    requires PlainNodes(cs) && '-' !in name
    ensures Clear(cs, name)
  {
    if cs != [] {
      InsideStarts(cs[0]);
      PlainIsClear(cs[1..], name);
      assert forall k :: 1 <= k < |cs| ==> cs[k] == cs[1..][k - 1];
    }
  }

  /** Names without a dash never run into each other: distinct names within each level are enough. */
  lemma {:induction false} PlainIsWellNamed(g: Level)
    requires Plain(g)
    ensures WellNamed(g)
    decreases g, 1
  {
    forall n | n in Uses(g) ensures Clear(g.nodes, n) {
      PlainIsClear(g.nodes, n);
    }
    PlainNodesAreWellNamed(g.nodes);
  }

  lemma {:induction false} PlainNodesAreWellNamed(cs: seq<Child>)
    requires PlainNodes(cs)
    ensures WellNamedNodes(cs)
    decreases cs, 0
  {
    if cs != [] {
      if cs[0].unit.Sub? {
        PlainIsWellNamed(cs[0].unit.graph);
      }
      PlainNodesAreWellNamed(cs[1..]);
      InsideStarts(cs[0]);
      forall s | s in NodePaths(cs[1..]) ensures s !in Inside(cs[0]) {
        NodePathsStart(cs[1..], s);
      }
    }
  }
}
