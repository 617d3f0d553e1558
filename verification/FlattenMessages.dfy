// Initial messages through the flattener. The pass looks an exported port up by its inner name here, so a message
// reaches the agent behind the port exactly as far as inner and outer names agree.
module FlattenMessages {
  import opened Wrappers
  import opened Graph
  import opened Flatten
  import opened FlattenNames
  import opened FlattenProofs

  /** Where a message goes. */
  function MsgEnd(m: IMsg): End {
    End(m.comp, m.port, m.elem)
  }

  /** A message in transit: its text and its end. */
  datatype Delivery = Delivery(text: string, at: End)

  function Deliveries(ms: seq<IMsg>): seq<Delivery> {
    seq(|ms|, k requires 0 <= k < |ms| => Delivery(ms[k].msg, MsgEnd(ms[k])))
  }

  function Moved(ds: seq<Delivery>, w: Stage): seq<Delivery> {
    seq(|ds|, k requires 0 <= k < |ds| => Delivery(ds[k].text, Go(w, Initial, ds[k].at)))
  }

  // ------------------------------------------------------------------ the specification

  /** The messages of every level, each resolved at its own level. */
  function AllMessages(side: Side, g: Level, path: string): seq<Delivery>
    decreases g, 1
  {
    OwnMessages(side, g, path) + ChildMessages(side, g.nodes, path)
  }

  function OwnMessages(side: Side, g: Level, path: string): seq<Delivery> {
    seq(|g.imsgs|, k requires 0 <= k < |g.imsgs| =>
      Delivery(g.imsgs[k].msg, Resolve(side, g.nodes, path, g.imsgs[k].comp, g.imsgs[k].port, g.imsgs[k].elem)))
  }

  function ChildMessages(side: Side, cs: seq<Child>, path: string): seq<Delivery>
    decreases cs, 0
  {
    if cs == [] then [] else NewMessages(side, cs[0], path) + ChildMessages(side, cs[1..], path)
  }

  function NewMessages(side: Side, c: Child, path: string): seq<Delivery>
    decreases c, 0
  {
    if c.unit.Sub? then AllMessages(side, c.unit.graph, Join(path, c.name)) else []
  }

  // ------------------------------------------------------------------ one level

  lemma {:induction false} InsMove(f: Flat, name: string, xs: seq<ExtIn>)
    ensures Deliveries(ApplyIns(f, name, xs).imsgs) == Moved(Deliveries(f.imsgs), Touching(Inner(xs), name))
    decreases |xs|
  {
    var before := Deliveries(f.imsgs);
    if xs == [] {
      assert Moved(before, Touching(Inner(xs), name)) == before;
    } else {
      var f' := ApplyIn(f, name, xs[0]);
      InsMove(f', name, xs[1..]);
      assert Inner(xs)[1..] == Inner(xs[1..]);
      var once := Deliveries(f'.imsgs);
      forall k | 0 <= k < |f.imsgs| ensures once[k] == Delivery(before[k].text, Touch(Inner(xs)[0], name, before[k].at)) {
        assert f'.imsgs[k] == EnterMsg(name, xs[0], f.imsgs[k]);
      }
      assert Moved(once, Touching(Inner(xs[1..]), name)) == Moved(before, Touching(Inner(xs), name));
    }
  }

  lemma {:induction false} OutsKeep(f: Flat, name: string, xs: seq<ExtOut>)
    ensures ApplyOuts(f, name, xs).imsgs == f.imsgs
    decreases |xs|
  {
    if xs != [] {
      OutsKeep(ApplyOut(f, name, xs[0]), name, xs[1..]);
    }
  }

  lemma MovedConcat(ds: seq<Delivery>, es: seq<Delivery>, w: Stage)
    ensures Moved(ds + es, w) == Moved(ds, w) + Moved(es, w)
  {
  }

  lemma DeliveriesConcat(ms: seq<IMsg>, ns: seq<IMsg>)
    ensures Deliveries(ms + ns) == Deliveries(ms) + Deliveries(ns)
  {
  }

  /** A level's own messages are below its path, so its exported ports leave them alone. */
  lemma OwnUntouched(g: Level, name: string, xs: seq<Export>)
    ensures Moved(Deliveries(PrefixMsgs(name, g.imsgs)), Touching(xs, name)) == Deliveries(PrefixMsgs(name, g.imsgs))
  {
    var own := Deliveries(PrefixMsgs(name, g.imsgs));
    forall k | 0 <= k < |own| ensures TouchAll(xs, name, own[k].at) == own[k].at {
      JoinDiffers(name, g.imsgs[k].comp);
      TouchAllIsFirst(xs, name, own[k].at);
    }
  }

  lemma OpenMoves(f: Flat, g: Level, name: string)
    ensures Deliveries(Open(f, g, name).imsgs)
      == Moved(Deliveries(f.imsgs), Touching(ExportsOf(g, Initial), name)) + Deliveries(PrefixMsgs(name, g.imsgs))
  {
    var f1 := f.(errors := f.errors || g.failed, edges := f.edges + PrefixEdges(name, g.edges), imsgs := f.imsgs + PrefixMsgs(name, g.imsgs));
    var xs := ExportsOf(g, Initial);
    InsMove(f1, name, g.extIn);
    OutsKeep(ApplyIns(f1, name, g.extIn), name, g.extOut);
    assert Inner(g.extIn) == xs;
    DeliveriesConcat(f.imsgs, PrefixMsgs(name, g.imsgs));
    MovedConcat(Deliveries(f.imsgs), Deliveries(PrefixMsgs(name, g.imsgs)), Touching(xs, name));
    OwnUntouched(g, name, xs);
  }

  lemma {:induction false} MessagesAmong(side: Side, g: Level, path: string)
    ensures forall d :: d in AllMessages(side, g, path) ==> Among(Paths(g), path, d.at.comp)
    decreases g, 1
  {
    ChildMessagesAmong(side, g.nodes, path);
    forall k | 0 <= k < |g.imsgs| ensures Among(Paths(g), path, OwnMessages(side, g, path)[k].at.comp) {
      ResolveUsed(side, g, path, g.imsgs[k].comp, g.imsgs[k].port, g.imsgs[k].elem);
    }
  }

  lemma {:induction false} ChildMessagesAmong(side: Side, cs: seq<Child>, path: string)
    ensures forall d :: d in ChildMessages(side, cs, path) ==> Among(NodePaths(cs), path, d.at.comp)
    decreases cs, 0
  {
    if cs != [] {
      ChildMessagesAmong(side, cs[1..], path);
      NewMessagesAmong(side, cs[0], path);
    }
  }

  lemma {:induction false} NewMessagesAmong(side: Side, c: Child, path: string)
    ensures forall d :: d in NewMessages(side, c, path) ==> Among(Inside(c), path, d.at.comp)
    decreases c, 0
  {
    if c.unit.Sub? {
      MessagesAmong(side, c.unit.graph, Join(path, c.name));
      forall d | d in NewMessages(side, c, path) ensures Among(Inside(c), path, d.at.comp) {
        AmongBelow(c.name, Paths(c.unit.graph), path, d.at.comp);
      }
    }
  }

  lemma {:induction false} OwnMessagesResolve(g: Level, path: string)
    requires WellNamed(g)
    ensures Moved(Deliveries(PrefixMsgs(path, g.imsgs)), Many(g.nodes, path)) == OwnMessages(Initial, g, path)
  {
    forall k | 0 <= k < |g.imsgs|
      ensures ThruNodes(Initial, g.nodes, path, MsgEnd(PrefixMsg(path, g.imsgs[k]))) == OwnMessages(Initial, g, path)[k].at
    {
      ThruNodesResolves(Initial, g.nodes, path, g.imsgs[k].comp, g.imsgs[k].port, g.imsgs[k].elem);
    }
  }

  // ------------------------------------------------------------------ the whole pass

  lemma {:induction false} MoveInTwo(ds: seq<Delivery>, cs: seq<Child>, path: string)
    requires cs != [] && WellNamedNodes(cs)
    ensures Moved(Moved(ds, One(cs[0], path)) + NewMessages(Initial, cs[0], path), Many(cs[1..], path))
      == Moved(ds, Many(cs, path)) + NewMessages(Initial, cs[0], path)
  {
    var c, rest := cs[0], cs[1..];
    var once, brought := Moved(ds, One(c, path)), NewMessages(Initial, c, path);
    NewMessagesAmong(Initial, c, path);
    forall k | 0 <= k < |brought| ensures ThruNodes(Initial, rest, path, brought[k].at) == brought[k].at {
      assert brought[k] in brought;
      SiblingsLeave(Initial, Inside(c), rest, path, brought[k].at);
    }
    MovedConcat(once, brought, Many(rest, path));
    assert Moved(brought, Many(rest, path)) == brought;
    forall k | 0 <= k < |ds| ensures ThruNodes(Initial, rest, path, once[k].at) == ThruNodes(Initial, cs, path, ds[k].at) {
      assert once[k].at == ThruNode(Initial, c, path, ds[k].at);
    }
    assert Moved(once, Many(rest, path)) == Moved(ds, Many(cs, path));
  }

  lemma {:induction false} AddNodesMessages(f: Flat, cs: seq<Child>, path: string)
    requires WellNamedNodes(cs)
    ensures Deliveries(AddNodes(f, cs, path).imsgs)
      == Moved(Deliveries(f.imsgs), Many(cs, path)) + ChildMessages(Initial, cs, path)
    decreases cs, 0
  {
    if cs == [] {
      assert Moved(Deliveries(f.imsgs), Many(cs, path)) == Deliveries(f.imsgs);
    } else {
      AddNodeMessages(f, cs[0], path);
      AddNodesMessages(AddNode(f, cs[0], path), cs[1..], path);
      MoveInTwo(Deliveries(f.imsgs), cs, path);
    }
  }

  lemma {:induction false} AddNodeMessages(f: Flat, c: Child, path: string)
    requires c.unit.Sub? ==> WellNamed(c.unit.graph)
    ensures Deliveries(AddNode(f, c, path).imsgs)
      == Moved(Deliveries(f.imsgs), One(c, path)) + NewMessages(Initial, c, path)
    decreases c, 0
  {
    if c.unit.Sub? {
      var inside := Join(path, c.name);
      AddGraphMessages(f, c.unit.graph, inside);
      assert Moved(Deliveries(f.imsgs), Whole(c.unit.graph, inside)) == Moved(Deliveries(f.imsgs), One(c, path));
    } else {
      assert Moved(Deliveries(f.imsgs), One(c, path)) == Deliveries(f.imsgs);
    }
  }

  lemma {:induction false} AddGraphMessages(f: Flat, g: Level, path: string)
    requires WellNamed(g)
    ensures Deliveries(AddGraph(f, g, path).imsgs)
      == Moved(Deliveries(f.imsgs), Whole(g, path)) + AllMessages(Initial, g, path)
    decreases g, 1
  {
    OpenMoves(f, g, path);
    AddNodesMessages(Open(f, g, path), g.nodes, path);
    var touched := Moved(Deliveries(f.imsgs), Touching(ExportsOf(g, Initial), path));
    MovedConcat(touched, Deliveries(PrefixMsgs(path, g.imsgs)), Many(g.nodes, path));
    OwnMessagesResolve(g, path);
    assert Moved(touched, Many(g.nodes, path)) == Moved(Deliveries(f.imsgs), Whole(g, path));
  }

  /** What the pass makes of the initial messages: those of all levels, in order and with their texts, each carried
      to where the inner names lead. */
  lemma {:induction false} MessagesFollowInnerNames(g: Level)
    requires WellNamed(g)
    ensures Deliveries(AddGraph(EmptyFlat, g, "").imsgs) == AllMessages(Initial, g, "")
  {
    AddGraphMessages(EmptyFlat, g, "");
    assert Moved([], Whole(g, "")) == [];
  }

  // ------------------------------------------------------------------ when that is where they should go

  /** A port of a component and an element selector. */
  datatype Spot = Spot(port: string, elem: Option<string>)

  /** `inner`, followed by inner names, and `outer`, followed by outer names, of component `comp` meet the same exports
      on the way down. */
  predicate Agree(cs: seq<Child>, comp: string, inner: Spot, outer: Spot)
    decreases cs
  {
    match FindSub(cs, comp)
    case None => inner == outer
    case Some(g) =>
      assert exists k :: 0 <= k < |cs| && cs[k].name == comp && cs[k].unit == Sub(g);
      match (FirstExport(ExportsOf(g, Initial), inner.port), FirstExport(ExportsOf(g, Meant), outer.port))
      case (None, None) => inner == outer
      case (Some(x), Some(y)) => x.comp == y.comp && Agree(g.nodes, x.comp, Behind(x, inner), Behind(y, outer))
      case _ => false
  }

  function Behind(x: Export, at: Spot): Spot {
    Spot(x.inner, Select(x.sel, at.elem))
  }

  function Found(side: Side, cs: seq<Child>, path: string, comp: string, at: Spot): End {
    Resolve(side, cs, path, comp, at.port, at.elem)
  }

  lemma {:induction false} AgreeIff(cs: seq<Child>, path: string, comp: string, inner: Spot, outer: Spot)
    requires WellNamedNodes(cs)
    ensures Found(Initial, cs, path, comp, inner) == Found(Meant, cs, path, comp, outer) <==> Agree(cs, comp, inner, outer)
    decreases cs
  {
    var sub := FindSub(cs, comp);
    if sub.Some? {
      var g, here := sub.value, Join(path, comp);
      var k :| 0 <= k < |cs| && cs[k].name == comp && cs[k].unit == Sub(g);
      assert cs[k].unit < cs[k];
      NodeAt(cs, k);
      var x, y := FirstExport(ExportsOf(g, Initial), inner.port), FirstExport(ExportsOf(g, Meant), outer.port);
      if x.Some? {
        DeeperDiffers(Initial, g, here, inner);
      }
      if y.Some? {
        DeeperDiffers(Meant, g, here, outer);
      }
      if x.Some? && y.Some? {
        ExportsApart(g, here, x.value, y.value, inner, outer);
        if x.value.comp == y.value.comp {
          AgreeIff(g.nodes, here, x.value.comp, Behind(x.value, inner), Behind(y.value, outer));
        }
      }
    }
  }

  lemma DeeperDiffers(side: Side, g: Level, path: string, at: Spot)
    requires FirstExport(ExportsOf(g, side), at.port).Some?
    ensures var x := FirstExport(ExportsOf(g, side), at.port).value; Found(side, g.nodes, path, x.comp, Behind(x, at)).comp != path
  {
    ResolveExport(side, g, path, at.port, at.elem);
    AmongHere(Paths(g), path);
  }

  lemma {:induction false} ExportsApart(g: Level, path: string, x: Export, y: Export, inner: Spot, outer: Spot)
    requires WellNamed(g)
    requires FirstExport(ExportsOf(g, Initial), inner.port) == Some(x) && FirstExport(ExportsOf(g, Meant), outer.port) == Some(y)
    ensures Found(Initial, g.nodes, path, x.comp, Behind(x, inner)) == Found(Meant, g.nodes, path, y.comp, Behind(y, outer)) ==>
      x.comp == y.comp
  {
    if x.comp != y.comp {
      var i, o := Behind(x, inner), Behind(y, outer);
      ExportUsed(g, Initial, inner.port);
      ExportUsed(g, Meant, outer.port);
      ReachApart(g.nodes, x.comp, y.comp);
      ResolveReach(Initial, g.nodes, path, x.comp, i.port, i.elem);
      ResolveReach(Meant, g.nodes, path, y.comp, o.port, o.elem);
      AmongOne(Reach(g.nodes, x.comp), Reach(g.nodes, y.comp), path, Found(Initial, g.nodes, path, x.comp, i).comp);
    }
  }

  function SpotOf(m: IMsg): Spot {
    Spot(m.port, m.elem)
  }

  /** Every message of every level meets the same exports by inner and by outer names. */
  predicate AllAgree(g: Level)
    decreases g, 1
  {
    && (forall k :: 0 <= k < |g.imsgs| ==> Agree(g.nodes, g.imsgs[k].comp, SpotOf(g.imsgs[k]), SpotOf(g.imsgs[k])))
    && AllAgreeBelow(g.nodes)
  }

  predicate AllAgreeBelow(cs: seq<Child>)
    decreases cs, 0
  {
    cs != [] ==> (cs[0].unit.Sub? ==> AllAgree(cs[0].unit.graph)) && AllAgreeBelow(cs[1..])
  }

  lemma {:induction false} OwnAlikeIff(g: Level, path: string)
    requires WellNamed(g)
    ensures OwnMessages(Initial, g, path) == OwnMessages(Meant, g, path) <==>
      forall k :: 0 <= k < |g.imsgs| ==> Agree(g.nodes, g.imsgs[k].comp, SpotOf(g.imsgs[k]), SpotOf(g.imsgs[k]))
  {
    var a, b := OwnMessages(Initial, g, path), OwnMessages(Meant, g, path);
    forall k | 0 <= k < |g.imsgs|
      ensures a[k] == b[k] <==> Agree(g.nodes, g.imsgs[k].comp, SpotOf(g.imsgs[k]), SpotOf(g.imsgs[k]))
    {
      AgreeIff(g.nodes, path, g.imsgs[k].comp, SpotOf(g.imsgs[k]), SpotOf(g.imsgs[k]));
    }
    assert a == b <==> forall k :: 0 <= k < |a| ==> a[k] == b[k];
  }

  lemma {:induction false} AlikeIff(g: Level, path: string)
    requires WellNamed(g)
    ensures AllMessages(Initial, g, path) == AllMessages(Meant, g, path) <==> AllAgree(g)
    ensures |AllMessages(Initial, g, path)| == |AllMessages(Meant, g, path)|
    decreases g, 1
  {
    OwnAlikeIff(g, path);
    ChildrenAlikeIff(g.nodes, path);
    ConcatEqual(OwnMessages(Initial, g, path), OwnMessages(Meant, g, path),
                ChildMessages(Initial, g.nodes, path), ChildMessages(Meant, g.nodes, path));
  }

  lemma {:induction false} ChildrenAlikeIff(cs: seq<Child>, path: string)
    requires WellNamedNodes(cs)
    ensures ChildMessages(Initial, cs, path) == ChildMessages(Meant, cs, path) <==> AllAgreeBelow(cs)
    ensures |ChildMessages(Initial, cs, path)| == |ChildMessages(Meant, cs, path)|
    decreases cs, 0
  {
    if cs != [] {
      if cs[0].unit.Sub? {
        AlikeIff(cs[0].unit.graph, Join(path, cs[0].name));
      }
      ChildrenAlikeIff(cs[1..], path);
      ConcatEqual(NewMessages(Initial, cs[0], path), NewMessages(Meant, cs[0], path),
                  ChildMessages(Initial, cs[1..], path), ChildMessages(Meant, cs[1..], path));
    }
  }

  lemma ConcatEqual(a: seq<Delivery>, b: seq<Delivery>, c: seq<Delivery>, d: seq<Delivery>)
    requires |a| == |b|
    ensures a + c == b + d <==> a == b && c == d
  {
    if a + c == b + d {
      assert a == (a + c)[..|a|] && b == (b + d)[..|a|];
      assert c == (a + c)[|a|..] && d == (b + d)[|a|..];
    }
  }

  /** The initial messages reach the agents behind the exported ports, as edges do, and with the selectors of those ports,
      if and only if on the way of every message the exports found by inner and by outer names agree. */
  lemma {:induction false} MessagesPreservedIff(g: Level)
    requires WellNamed(g)
    ensures Deliveries(AddGraph(EmptyFlat, g, "").imsgs) == AllMessages(Meant, g, "") <==> AllAgree(g)
  {
    MessagesFollowInnerNames(g);
    AlikeIff(g, "");
  }

  // ------------------------------------------------------------------ the case meant

  /** Exported input ports keep their inner names, at every level. */
  predicate NamesKept(g: Level)
    decreases g, 1
  {
    (forall k :: 0 <= k < |g.extIn| ==> g.extIn[k].port == g.extIn[k].inPort) && NamesKeptBelow(g.nodes)
  }

  predicate NamesKeptBelow(cs: seq<Child>)
    decreases cs, 0
  {
    cs != [] ==> (cs[0].unit.Sub? ==> NamesKept(cs[0].unit.graph)) && NamesKeptBelow(cs[1..])
  }

  lemma {:induction false} KeptAt(cs: seq<Child>, k: nat)
    requires NamesKeptBelow(cs) && k < |cs| && cs[k].unit.Sub?
    ensures NamesKept(cs[k].unit.graph)
    decreases k
  {
    if k > 0 {
      KeptAt(cs[1..], k - 1);
    }
  }

  lemma {:induction false} KeptAgrees(cs: seq<Child>, comp: string, at: Spot)
    requires NamesKeptBelow(cs)
    ensures Agree(cs, comp, at, at)
    decreases cs
  {
    var sub := FindSub(cs, comp);
    if sub.Some? {
      var g := sub.value;
      var k :| 0 <= k < |cs| && cs[k].name == comp && cs[k].unit == Sub(g);
      KeptAt(cs, k);
      assert ExportsOf(g, Initial) == ExportsOf(g, Meant);
      var x := FirstExport(ExportsOf(g, Meant), at.port);
      if x.Some? {
        assert cs[k].unit < cs[k];
        KeptAgrees(g.nodes, x.value.comp, Behind(x.value, at));
      }
    }
  }

  lemma {:induction false} KeptAllAgree(g: Level)
    requires NamesKept(g)
    ensures AllAgree(g)
    decreases g, 1
  {
    forall k | 0 <= k < |g.imsgs| ensures Agree(g.nodes, g.imsgs[k].comp, SpotOf(g.imsgs[k]), SpotOf(g.imsgs[k])) {
      KeptAgrees(g.nodes, g.imsgs[k].comp, SpotOf(g.imsgs[k]));
    }
    KeptAllAgreeBelow(g.nodes);
  }

  lemma {:induction false} KeptAllAgreeBelow(cs: seq<Child>)
    requires NamesKeptBelow(cs)
    ensures AllAgreeBelow(cs)
    decreases cs, 0
  {
    if cs != [] {
      if cs[0].unit.Sub? {
        KeptAllAgree(cs[0].unit.graph);
      }
      KeptAllAgreeBelow(cs[1..]);
    }
  }

  /** In particular where exported ports keep their names. */
  lemma {:induction false} KeptNamesPreserveMeaning(g: Level)
    requires WellNamed(g) && NamesKept(g)
    ensures Deliveries(AddGraph(EmptyFlat, g, "").imsgs) == AllMessages(Meant, g, "")
  {
    KeptAllAgree(g);
    MessagesPreservedIff(g);
  }
}
