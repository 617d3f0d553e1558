// The well-formedness check of a parsed graph (nodes/fvm/rs/parser/graph/check/lib.rs).
module Checker {
  import opened Wrappers
  import opened Graph

  /** `exported` tells a port exported twice from a port connected twice. */
  datatype Problem =
    | DeclaredTwice(name: string, first: string, second: string)
    | Uninstantiated(name: string)
    | OneToMany(exported: bool, sender: string, receivers: seq<string>)

  /** `comp() port` or `comp() port[elem]`, the text under which an endpoint is recorded. */
  function Endpoint(comp: string, port: string, elem: Option<string>): string {
    comp + "() " + port + (if elem.Some? then "[" + elem.value + "]" else "")
  }

  function SenderOf(e: Edge): string {
    Endpoint(e.outComp, e.outPort, e.outElem)
  }

  function ReceiverOf(e: Edge): string {
    Endpoint(e.inComp, e.inPort, e.inElem)
  }

  // ------------------------------------------------------------------ what the check accepts

  predicate DeclaresNode(g: CoreGraph, name: string) {
    exists k :: 0 <= k < |g.nodes| && g.nodes[k].name == name
  }

  predicate NodesOnce(ns: seq<Node>) {
    forall k, l :: 0 <= k < l < |ns| && ns[k].name == ns[l].name ==> ns[k].sort == "" || ns[l].sort == ""
  }

  predicate Distinct(keys: seq<string>) {
    forall k, l :: 0 <= k < l < |keys| ==> keys[k] != keys[l]
  }

  predicate EndpointsDeclared(g: CoreGraph, n: nat)
    requires n <= |g.edges|
  {
    forall k :: 0 <= k < n ==> DeclaresNode(g, g.edges[k].outComp) && DeclaresNode(g, g.edges[k].inComp)
  }

  function Senders(es: seq<Edge>): seq<string> {
    seq(|es|, k requires 0 <= k < |es| => SenderOf(es[k]))
  }

  function Exports(xs: seq<ExtIn>): seq<string> {
    seq(|xs|, k requires 0 <= k < |xs| => xs[k].port)
  }

  predicate Accepted(g: CoreGraph) {
    && NodesOnce(g.nodes)
    && EndpointsDeclared(g, |g.edges|)
    && Distinct(Senders(g.edges))
    && Distinct(Exports(g.extIn))
  }

  // ------------------------------------------------------------------ what the check reports

  /** The first non-empty sort given to a name, or the empty one. */
  function FirstSort(ns: seq<Node>, name: string): string {
    if ns == [] then ""
    else
      var before, last := FirstSort(ns[..|ns| - 1], name), ns[|ns| - 1];
      if before == "" && last.name == name then last.sort else before
  }

  /** One problem per node that gives a second sort to a name. */
  function NodeProblems(ns: seq<Node>): seq<Problem> {
    if ns == [] then []
    else
      var before, last := ns[..|ns| - 1], ns[|ns| - 1];
      var first := FirstSort(before, last.name);
      NodeProblems(before) + if first != "" && last.sort != "" then [DeclaredTwice(last.name, first, last.sort)] else []
  }

  /** Who is connected to whom, in the order of the graph. */
  datatype Link = Link(key: string, receiver: string)

  function EdgeLinks(es: seq<Edge>): seq<Link> {
    seq(|es|, k requires 0 <= k < |es| => Link(SenderOf(es[k]), ReceiverOf(es[k])))
  }

  function ExportLinks(xs: seq<ExtIn>): seq<Link> {
    seq(|xs|, k requires 0 <= k < |xs| => Link(xs[k].port, Endpoint(xs[k].inComp, xs[k].inPort, xs[k].inElem)))
  }

  function Receivers(links: seq<Link>, key: string): seq<string> {
    if links == [] then []
    else
      var last := links[|links| - 1];
      Receivers(links[..|links| - 1], key) + if last.key == key then [last.receiver] else []
  }

  /** The forks of the first m links, for every m up to n: each is reported again whenever a link is added. */
  ghost predicate IsFork(links: seq<Link>, n: nat, key: string, receivers: seq<string>)
    requires n <= |links|
  {
    |receivers| > 1 && exists m :: 1 <= m <= n && receivers == Receivers(links[..m], key)
  }

  predicate Unknown(g: CoreGraph, n: nat, name: string)
    requires n <= |g.edges|
  {
    !DeclaresNode(g, name) && exists k :: 0 <= k < n && (g.edges[k].outComp == name || g.edges[k].inComp == name)
  }

  predicate OnceEach(links: seq<Link>) {
    forall k, l :: 0 <= k < l < |links| ==> links[k].key != links[l].key
  }

  // ------------------------------------------------------------------ nodes

  lemma {:induction false} SortGiven(ns: seq<Node>, name: string)
    ensures FirstSort(ns, name) != "" ==> Node(name, FirstSort(ns, name)) in ns
    ensures forall k :: 0 <= k < |ns| && ns[k].name == name && ns[k].sort != "" ==> FirstSort(ns, name) != ""
  {
    if ns != [] {
      var before := ns[..|ns| - 1];
      SortGiven(before, name);
      assert forall k :: 0 <= k < |ns| - 1 ==> ns[k] == before[k];
    }
  }

  /** A node clashes with an earlier one exactly when it has a sort and its name has one already. */
  lemma OneMoreNode(before: seq<Node>, last: Node)
    ensures NodesOnce(before + [last]) <==> NodesOnce(before) && (FirstSort(before, last.name) == "" || last.sort == "")
  {
    var ns := before + [last];
    SortGiven(before, last.name);
    assert forall k :: 0 <= k < |before| ==> ns[k] == before[k];
    if !NodesOnce(before) {
      var k, l :| 0 <= k < l < |before| && before[k].name == before[l].name && before[k].sort != "" && before[l].sort != "";
      assert ns[k].name == ns[l].name;
    } else if FirstSort(before, last.name) != "" && last.sort != "" {
      var k :| 0 <= k < |before| && before[k] == Node(last.name, FirstSort(before, last.name));
      assert ns[k].name == ns[|before|].name;
    }
  }

  lemma {:induction false} NoNodeProblems(ns: seq<Node>)
    ensures NodeProblems(ns) == [] <==> NodesOnce(ns)
  {
    if ns != [] {
      var before, last := ns[..|ns| - 1], ns[|ns| - 1];
      NoNodeProblems(before);
      OneMoreNode(before, last);
      assert ns == before + [last];
    }
  }

  /** Every name is recorded with its first non-empty sort. */
  ghost predicate Tabulates(table: map<string, string>, ns: seq<Node>) {
    && (forall n :: n in table <==> exists k :: 0 <= k < |ns| && ns[k].name == n)
    && (forall n :: n in table ==> table[n] == FirstSort(ns, n))
  }

  lemma {:induction false} NodeTabulated(table: map<string, string>, ns: seq<Node>, node: Node)
    requires Tabulates(table, ns)
    ensures Tabulates(if node.name in table && table[node.name] != "" then table else table[node.name := node.sort], ns + [node])
    ensures node.name !in table ==> FirstSort(ns, node.name) == ""
  {
    var all := ns + [node];
    assert all[..|ns|] == ns && all[|ns|] == node;
    SortGiven(ns, node.name);
    forall n | n in table ensures exists k :: 0 <= k < |all| && all[k].name == n {
      var k :| 0 <= k < |ns| && ns[k].name == n;
      assert all[k].name == n;
    }
    forall k | 0 <= k < |ns| ensures ns[k].name in table {
    }
    assert forall k :: 0 <= k < |ns| && ns[k] == Node(node.name, FirstSort(ns, node.name)) ==> ns[k].name in table;
  }

  method TabulateNodes(ns: seq<Node>) returns (table: map<string, string>, problems: seq<Problem>)
    ensures Tabulates(table, ns)
    ensures problems == NodeProblems(ns)
  {
    table, problems := map[], [];
    for n := 0 to |ns|
      invariant Tabulates(table, ns[..n])
      invariant problems == NodeProblems(ns[..n])
    {
      var name, sort := ns[n].name, ns[n].sort;
      assert ns[..n + 1][..n] == ns[..n] && ns[..n + 1] == ns[..n] + [ns[n]];
      NodeTabulated(table, ns[..n], ns[n]);
      var insert := true;
      if name in table {
        var v := table[name];
        if v == "" {
          insert := true;
        } else {
          if sort != "" {
            problems := problems + [DeclaredTwice(name, v, sort)];
          }
          insert := false;
        }
      }
      if insert {
        table := table[name := sort];
      }
    }
    assert ns[..|ns|] == ns;
  }

  // ------------------------------------------------------------------ forks

  ghost predicate Groups(table: map<string, seq<string>>, links: seq<Link>) {
    forall key :: (if key in table then table[key] else []) == Receivers(links, key)
  }

  lemma {:induction false} Connected(links: seq<Link>, key: string)
    ensures Receivers(links, key) != [] <==> exists k :: 0 <= k < |links| && links[k].key == key
  {
    if links != [] {
      var before := links[..|links| - 1];
      Connected(before, key);
      assert forall k :: 0 <= k < |links| - 1 ==> links[k] == before[k];
    }
  }

  ghost predicate ForkFree(links: seq<Link>) {
    forall key :: |Receivers(links, key)| <= 1
  }

  /** No key has two receivers exactly when the keys are distinct. */
  lemma {:induction false} NoForks(links: seq<Link>)
    ensures OnceEach(links) <==> ForkFree(links)
  {
    if links != [] {
      var before, last := links[..|links| - 1], links[|links| - 1];
      NoForks(before);
      Connected(before, last.key);
      assert forall k :: 0 <= k < |links| - 1 ==> links[k] == before[k];
      if !OnceEach(before) {
        var k, l :| 0 <= k < l < |before| && before[k].key == before[l].key;
        assert links[k].key == links[l].key;
        var key :| |Receivers(before, key)| > 1;
        assert |Receivers(links, key)| > 1;
      } else if Receivers(before, last.key) != [] {
        assert |Receivers(links, last.key)| > 1;
        var k :| 0 <= k < |before| && before[k].key == last.key;
        assert links[k].key == links[|links| - 1].key;
      } else {
        forall key ensures |Receivers(links, key)| <= 1 {
          assert |Receivers(before, key)| <= 1;
        }
      }
    }
  }

  ghost predicate AreForks(table: map<string, seq<string>>, exported: bool, forks: seq<Problem>) {
    forall p :: p in forks <==>
      p.OneToMany? && p.exported == exported && p.sender in table && p.receivers == table[p.sender] && |p.receivers| > 1
  }

  /** One problem per key with several receivers, in the order the table is walked. */
  method ReportForks(table: map<string, seq<string>>, exported: bool) returns (problems: seq<Problem>)
    ensures AreForks(table, exported, problems)
  {
    problems := [];
    var todo := table.Keys;
    while todo != {}
      invariant todo <= table.Keys
      invariant forall p :: p in problems <==>
        p.OneToMany? && p.exported == exported && p.sender in table - todo && p.receivers == table[p.sender] && |p.receivers| > 1
      decreases todo
    {
      var k :| k in todo;
      todo := todo - {k};
      if |table[k]| > 1 {
        problems := problems + [OneToMany(exported, k, table[k])];
      }
    }
  }

  method Record(table: map<string, seq<string>>, link: Link, ghost links: seq<Link>) returns (table': map<string, seq<string>>)
    requires Groups(table, links)
    ensures Groups(table', links + [link])
  {
    var v := if link.key in table then table[link.key] else [];
    table' := table[link.key := v + [link.receiver]];
    assert (links + [link])[..|links|] == links;
  }

  /** `problems` names exactly the forks of the first n links. */
  ghost predicate Forked(problems: seq<Problem>, exported: bool, links: seq<Link>, n: nat)
    requires n <= |links|
  {
    forall key, rs :: OneToMany(exported, key, rs) in problems <==> IsFork(links, n, key, rs)
  }

  lemma ForkAdded(problems: seq<Problem>, forks: seq<Problem>, exported: bool, links: seq<Link>, n: nat, table: map<string, seq<string>>)
    requires n < |links| && Forked(problems, exported, links, n) && Groups(table, links[..n + 1])
    requires AreForks(table, exported, forks)
    ensures Forked(problems + forks, exported, links, n + 1)
  {
    forall key, rs
      ensures OneToMany(exported, key, rs) in problems + forks <==> IsFork(links, n + 1, key, rs)
    {
      assert (if key in table then table[key] else []) == Receivers(links[..n + 1], key);
      if OneToMany(exported, key, rs) in forks {
        assert rs == Receivers(links[..n + 1], key);
      }
      if IsFork(links, n + 1, key, rs) && !IsFork(links, n, key, rs) {
        var m :| 1 <= m <= n + 1 && rs == Receivers(links[..m], key);
        assert m == n + 1;
      }
    }
  }

  lemma ForkedMeans(problems: seq<Problem>, exported: bool, links: seq<Link>)
    requires Forked(problems, exported, links, |links|)
    ensures OnceEach(links) <==> forall p :: p in problems ==> !(p.OneToMany? && p.exported == exported)
  {
    NoForks(links);
    assert links[..|links|] == links;
    if !ForkFree(links) {
      var key :| |Receivers(links, key)| > 1;
      assert IsFork(links, |links|, key, Receivers(links, key));
      assert OneToMany(exported, key, Receivers(links, key)) in problems;
    } else {
      forall p | p in problems ensures !(p.OneToMany? && p.exported == exported) {
        if p.OneToMany? && p.exported == exported {
          assert IsFork(links, |links|, p.sender, p.receivers);
          var m :| 1 <= m <= |links| && p.receivers == Receivers(links[..m], p.sender);
          ReceiversGrow(links, m, p.sender);
        }
      }
    }
  }

  lemma {:induction false} ReceiversGrow(links: seq<Link>, m: nat, key: string)
    requires m <= |links|
    ensures |Receivers(links[..m], key)| <= |Receivers(links, key)|
  {
    if m == |links| {
      assert links[..m] == links;
    } else {
      ReceiversGrow(links[..|links| - 1], m, key);
      assert links[..|links| - 1][..m] == links[..m];
    }
  }

  // ------------------------------------------------------------------ edges and exported ports

  /** The problems of one more edge's endpoints. */
  ghost predicate EndsAdded(g: CoreGraph, n: nat, before: seq<Problem>, problems: seq<Problem>)
    requires n < |g.edges|
  {
    && before <= problems
    && (forall p :: p in problems && p !in before ==> p.Uninstantiated?)
    && (forall name :: Uninstantiated(name) in problems <==>
          (Uninstantiated(name) in before
           || (!DeclaresNode(g, name) && (g.edges[n].outComp == name || g.edges[n].inComp == name))))
  }

  lemma OnlyEnds(g: CoreGraph, n: nat, before: seq<Problem>, problems: seq<Problem>)
    requires n < |g.edges| && EndsAdded(g, n, before, problems)
    requires forall name :: Uninstantiated(name) in before <==> Unknown(g, n, name)
    requires Forked(before, false, EdgeLinks(g.edges), n)
    ensures forall name :: Uninstantiated(name) in problems <==> Unknown(g, n + 1, name)
    ensures Forked(problems, false, EdgeLinks(g.edges), n)
  {
    var links := EdgeLinks(g.edges);
    forall key, rs ensures OneToMany(false, key, rs) in problems <==> IsFork(links, n, key, rs) {
      assert OneToMany(false, key, rs) in before ==> OneToMany(false, key, rs) in problems;
    }
  }

  method CheckEnds(g: CoreGraph, nodes: map<string, string>, n: nat, before: seq<Problem>) returns (problems: seq<Problem>)
    requires n < |g.edges| && Tabulates(nodes, g.nodes)
    ensures EndsAdded(g, n, before, problems)
  {
    var e := g.edges[n];
    assert e.outComp in nodes <==> DeclaresNode(g, e.outComp);
    assert e.inComp in nodes <==> DeclaresNode(g, e.inComp);
    problems := before;
    if e.outComp !in nodes {
      problems := problems + [Uninstantiated(e.outComp)];
    }
    if e.inComp !in nodes {
      problems := problems + [Uninstantiated(e.inComp)];
    }
  }

  /** After n edges: their receivers are grouped by sender, and exactly their problems are reported. */
  ghost predicate EdgesChecked(g: CoreGraph, n: nat, table: map<string, seq<string>>, problems: seq<Problem>)
    requires n <= |g.edges|
  {
    && Groups(table, EdgeLinks(g.edges)[..n])
    && (forall name :: Uninstantiated(name) in problems <==> Unknown(g, n, name))
    && Forked(problems, false, EdgeLinks(g.edges), n)
    && (forall p :: p in problems ==> !p.DeclaredTwice? && (p.OneToMany? ==> !p.exported))
  }

  lemma EdgeChecked(g: CoreGraph, n: nat, table: map<string, seq<string>>, table': map<string, seq<string>>,
                    before: seq<Problem>, ends: seq<Problem>, forks: seq<Problem>)
    requires n < |g.edges| && EdgesChecked(g, n, table, before)
    requires EndsAdded(g, n, before, ends)
    requires Groups(table', EdgeLinks(g.edges)[..n + 1]) && AreForks(table', false, forks)
    ensures EdgesChecked(g, n + 1, table', ends + forks)
  {
    OnlyEnds(g, n, before, ends);
    ForkAdded(ends, forks, false, EdgeLinks(g.edges), n, table');
  }

  lemma NextLink(links: seq<Link>, n: nat, link: Link)
    requires n < |links| && links[n] == link
    ensures links[..n + 1] == links[..n] + [link]
  {
  }

  method CheckEdges(g: CoreGraph, nodes: map<string, string>) returns (problems: seq<Problem>)
    requires Tabulates(nodes, g.nodes)
    ensures forall n :: Uninstantiated(n) in problems <==> Unknown(g, |g.edges|, n)
    ensures Forked(problems, false, EdgeLinks(g.edges), |g.edges|)
    ensures forall p :: p in problems ==> !p.DeclaredTwice? && (p.OneToMany? ==> !p.exported)
  {
    problems := [];
    var table: map<string, seq<string>> := map[];
    for n := 0 to |g.edges|
      invariant EdgesChecked(g, n, table, problems)
    {
      var ends := CheckEnds(g, nodes, n, problems);
      var e := g.edges[n];
      var link := Link(Endpoint(e.outComp, e.outPort, e.outElem), Endpoint(e.inComp, e.inPort, e.inElem));
      ghost var links := EdgeLinks(g.edges);
      NextLink(links, n, link);
      var table' := Record(table, link, links[..n]);
      var forks := ReportForks(table', false);
      EdgeChecked(g, n, table, table', problems, ends, forks);
      table, problems := table', ends + forks;
    }
  }

  method CheckExports(g: CoreGraph) returns (problems: seq<Problem>)
    ensures Forked(problems, true, ExportLinks(g.extIn), |g.extIn|)
    ensures forall p :: p in problems ==> p.OneToMany? && p.exported
  {
    problems := [];
    var table: map<string, seq<string>> := map[];
    ghost var links := ExportLinks(g.extIn);
    for n := 0 to |g.extIn|
      invariant Groups(table, links[..n])
      invariant Forked(problems, true, links, n)
      invariant forall p :: p in problems ==> p.OneToMany? && p.exported
    {
      var x := g.extIn[n];
      var link := Link(x.port, Endpoint(x.inComp, x.inPort, x.inElem));
      table := Record(table, link, links[..n]);
      assert links[..n + 1] == links[..n] + [link];
      var forks := ReportForks(table, true);
      ForkAdded(problems, forks, true, links, n, table);
      problems := problems + forks;
    }
  }

  /** What a graph's problems are: each second sort, each undeclared endpoint and each fork, and nothing else. */
  ghost predicate Reports(g: CoreGraph, problems: seq<Problem>) {
    && (forall p :: p in problems && p.DeclaredTwice? <==> p in NodeProblems(g.nodes))
    && (forall n :: Uninstantiated(n) in problems <==> Unknown(g, |g.edges|, n))
    && Forked(problems, false, EdgeLinks(g.edges), |g.edges|)
    && Forked(problems, true, ExportLinks(g.extIn), |g.extIn|)
  }

  lemma {:induction false} OnlyTwice(ns: seq<Node>)
    ensures forall p :: p in NodeProblems(ns) ==> p.DeclaredTwice?
  {
    if ns != [] {
      OnlyTwice(ns[..|ns| - 1]);
    }
  }

  /** There is nothing to report exactly about the accepted graphs. */
  lemma NothingToReport(g: CoreGraph, problems: seq<Problem>)
    requires Reports(g, problems)
    ensures problems == [] <==> Accepted(g)
  {
    var edges, exports := EdgeLinks(g.edges), ExportLinks(g.extIn);
    NoNodeProblems(g.nodes);
    ForkedMeans(problems, false, edges);
    ForkedMeans(problems, true, exports);
    assert Distinct(Senders(g.edges)) <==> OnceEach(edges) by {
      assert forall k :: 0 <= k < |edges| ==> edges[k].key == Senders(g.edges)[k];
    }
    assert Distinct(Exports(g.extIn)) <==> OnceEach(exports) by {
      assert forall k :: 0 <= k < |exports| ==> exports[k].key == Exports(g.extIn)[k];
    }
    EndpointsKnown(g);
    var twice := NodeProblems(g.nodes);
    assert twice != [] ==> twice[0] in twice && twice[0] in problems;
    if problems != [] {
      var p := problems[0];
      assert p in problems;
      assert p.Uninstantiated? ==> Unknown(g, |g.edges|, p.name);
    }
  }

  lemma EndpointsKnown(g: CoreGraph)
    ensures EndpointsDeclared(g, |g.edges|) <==> forall n :: !Unknown(g, |g.edges|, n)
  {
    if EndpointsDeclared(g, |g.edges|) {
      forall n ensures !Unknown(g, |g.edges|, n) {
      }
    } else {
      var k :| 0 <= k < |g.edges| && !(DeclaresNode(g, g.edges[k].outComp) && DeclaresNode(g, g.edges[k].inComp));
      assert Unknown(g, |g.edges|, g.edges[k].outComp) || Unknown(g, |g.edges|, g.edges[k].inComp);
    }
  }

  /** The run body: the graph goes on exactly when it is accepted, otherwise its problems do. */
  method Check(g: CoreGraph) returns (r: Result<CoreGraph, seq<Problem>>)
    ensures r.Ok? <==> Accepted(g)
    ensures r.Ok? ==> r.value == g
    ensures r.Err? ==> r.error != [] && Reports(g, r.error)
  {
    var nodes, first := TabulateNodes(g.nodes);
    var second := CheckEdges(g, nodes);
    var third := CheckExports(g);
    var problems := first + second + third;
    OnlyTwice(g.nodes);
    AllReported(g, first, second, third);
    NothingToReport(g, problems);
    r := if |problems| > 0 then Err(problems) else Ok(g);
  }

  lemma AllReported(g: CoreGraph, first: seq<Problem>, second: seq<Problem>, third: seq<Problem>)
    requires first == NodeProblems(g.nodes) && (forall p :: p in first ==> p.DeclaredTwice?)
    requires forall n :: Uninstantiated(n) in second <==> Unknown(g, |g.edges|, n)
    requires Forked(second, false, EdgeLinks(g.edges), |g.edges|)
    requires forall p :: p in second ==> !p.DeclaredTwice? && (p.OneToMany? ==> !p.exported)
    requires Forked(third, true, ExportLinks(g.extIn), |g.extIn|)
    requires forall p :: p in third ==> p.OneToMany? && p.exported
    ensures Reports(g, first + second + third)
  {
  }

  // ------------------------------------------------------------------ texts of endpoints

  /** The names an endpoint's text is made of can be told apart: a component has no `(` and a port no `[`. The lexer
      ends a name at either, so every graph that was written as text has such names. */
  predicate Readable(comp: string, port: string) {
    '(' !in comp && '[' !in port
  }

  predicate ReadableNames(g: CoreGraph) {
    forall k :: 0 <= k < |g.edges| ==> Readable(g.edges[k].outComp, g.edges[k].outPort)
  }

  /** A text without `c`, up to its first `c`, is determined by the whole. */
  lemma SplitAtFirst(a: string, b: string, c: char, x: string, y: string)
    requires c !in a && c !in b
    requires a + [c] + x == b + [c] + y
    ensures a == b && x == y
  {
    var s, t := a + [c] + x, b + [c] + y;
    assert s[|a|] == c && t[|b|] == c;
    assert forall k :: 0 <= k < |a| ==> s[k] == a[k] && s[k] != c;
    assert forall k :: 0 <= k < |b| ==> t[k] == b[k] && t[k] != c;
    assert |a| == |b|;
    assert a == s[..|a|] && b == t[..|b|];
    assert x == s[|a| + 1..] && y == t[|b| + 1..];
  }

  lemma EndpointInjective(c: string, p: string, e: Option<string>, c': string, p': string, e': Option<string>)
    requires Readable(c, p) && Readable(c', p')
    ensures Endpoint(c, p, e) == Endpoint(c', p', e') <==> c == c' && p == p' && e == e'
  {
    if Endpoint(c, p, e) == Endpoint(c', p', e') {
      var s := if e.Some? then "[" + e.value + "]" else "";
      var s' := if e'.Some? then "[" + e'.value + "]" else "";
      assert Endpoint(c, p, e) == c + ['('] + (") " + (p + s));
      assert Endpoint(c', p', e') == c' + ['('] + (") " + (p' + s'));
      SplitAtFirst(c, c', '(', ") " + (p + s), ") " + (p' + s'));
      assert p + s == (") " + (p + s))[2..] && p' + s' == (") " + (p' + s'))[2..];
      SelectorInjective(p, e, p', e');
    }
  }

  lemma SelectorInjective(p: string, e: Option<string>, p': string, e': Option<string>)
    requires '[' !in p && '[' !in p'
    requires p + (if e.Some? then "[" + e.value + "]" else "") == p' + (if e'.Some? then "[" + e'.value + "]" else "")
    ensures p == p' && e == e'
  {
    var s, s' := p + (if e.Some? then "[" + e.value + "]" else ""), p' + (if e'.Some? then "[" + e'.value + "]" else "");
    assert forall k :: 0 <= k < |p| ==> s[k] == p[k] && s[k] != '[';
    assert forall k :: 0 <= k < |p'| ==> s'[k] == p'[k] && s'[k] != '[';
    assert e.Some? ==> s[|p|] == '[';
    assert e'.Some? ==> s'[|p'|] == '[';
    assert |p| == |p'|;
    assert p == s[..|p|] == p';
    if e.Some? {
      assert s[|p| + 1..|s| - 1] == e.value;
      assert s'[|p| + 1..|s| - 1] == e'.value;
    }
  }

  predicate SameSender(a: Edge, b: Edge) {
    a.outComp == b.outComp && a.outPort == b.outPort && a.outElem == b.outElem
  }

  predicate SortedOnce(g: CoreGraph) {
    forall k, l :: 0 <= k < l < |g.nodes| && g.nodes[k].name == g.nodes[l].name ==> g.nodes[k].sort == "" || g.nodes[l].sort == ""
  }

  /** What the check is for: no two sorted nodes share a name, every endpoint is declared, no two edges leave the same
      port and element, and no port is exported twice. */
  predicate WellFormed(g: CoreGraph) {
    && SortedOnce(g)
    && (forall k :: 0 <= k < |g.edges| ==> DeclaresNode(g, g.edges[k].outComp) && DeclaresNode(g, g.edges[k].inComp))
    && (forall k, l :: 0 <= k < l < |g.edges| ==> !SameSender(g.edges[k], g.edges[l]))
    && (forall k, l :: 0 <= k < l < |g.extIn| ==> g.extIn[k].port != g.extIn[l].port)
  }

  /** Two different senders are written alike. */
  predicate SendersClash(g: CoreGraph) {
    exists k, l :: 0 <= k < l < |g.edges| && !SameSender(g.edges[k], g.edges[l]) && SenderOf(g.edges[k]) == SenderOf(g.edges[l])
  }

  /** Whatever the names, exactly the well-formed graphs are accepted, except those in which two senders clash. */
  lemma AcceptedUnlessClash(g: CoreGraph)
    ensures Accepted(g) <==> WellFormed(g) && !SendersClash(g)
    ensures (Accepted(g) <==> WellFormed(g)) <==> !(WellFormed(g) && SendersClash(g))
  {
    var s, x := Senders(g.edges), Exports(g.extIn);
    assert forall k :: 0 <= k < |g.extIn| ==> x[k] == g.extIn[k].port;
    assert forall k :: 0 <= k < |g.edges| ==> s[k] == SenderOf(g.edges[k]);
    forall k, l | 0 <= k < l < |g.edges| && SameSender(g.edges[k], g.edges[l]) ensures s[k] == s[l] {
    }
    if Accepted(g) {
      forall k, l | 0 <= k < l < |g.edges| ensures SenderOf(g.edges[k]) != SenderOf(g.edges[l]) {
        assert s[k] != s[l];
      }
    } else if WellFormed(g) {
      var k, l :| 0 <= k < l < |s| && s[k] == s[l];
      assert !SameSender(g.edges[k], g.edges[l]);
    }
  }

  /** With readable names no senders clash, so exactly the well-formed graphs are accepted. */
  lemma AcceptedIff(g: CoreGraph)
    requires ReadableNames(g)
    ensures Accepted(g) <==> WellFormed(g)
  {
    AcceptedUnlessClash(g);
    forall k, l | 0 <= k < l < |g.edges| && SenderOf(g.edges[k]) == SenderOf(g.edges[l])
      ensures SameSender(g.edges[k], g.edges[l])
    {
      var a, b := g.edges[k], g.edges[l];
      EndpointInjective(a.outComp, a.outPort, a.outElem, b.outComp, b.outPort, b.outElem);
    }
  }

  /** Both halves of the guard are needed: a `[` in a port name, and a `(` in a component name, make senders clash in
      well-formed graphs, which are then refused. */
  lemma BracketsClash()
    ensures var nodes := [Node("a", "s"), Node("a() x", "s"), Node("b", "s")];
      var g := CoreGraph(nodes, [Edge("a", "p[x]", None, "q", None, "b"), Edge("a", "p", Some("x"), "q", None, "b")], [], [], []);
      var h := CoreGraph(nodes, [Edge("a", "x() y", None, "q", None, "b"), Edge("a() x", "y", None, "q", None, "b")], [], [], []);
      WellFormed(g) && !Accepted(g) && WellFormed(h) && !Accepted(h)
  {
    var nodes := [Node("a", "s"), Node("a() x", "s"), Node("b", "s")];
    ClashRefused(nodes, Edge("a", "p[x]", None, "q", None, "b"), Edge("a", "p", Some("x"), "q", None, "b"));
    ClashRefused(nodes, Edge("a", "x() y", None, "q", None, "b"), Edge("a() x", "y", None, "q", None, "b"));
  }

  lemma ClashRefused(nodes: seq<Node>, a: Edge, b: Edge)
    requires nodes == [Node("a", "s"), Node("a() x", "s"), Node("b", "s")]
    requires a.inComp == "b" && b.inComp == "b" && (a.outComp == "a" || a.outComp == "a() x") && (b.outComp == "a" || b.outComp == "a() x")
    requires !SameSender(a, b) && SenderOf(a) == SenderOf(b)
    ensures var g := CoreGraph(nodes, [a, b], [], [], []); WellFormed(g) && !Accepted(g)
  {
    var g := CoreGraph(nodes, [a, b], [], [], []);
    assert nodes[0].name == "a" && nodes[1].name == "a() x" && nodes[2].name == "b";
    assert |"a"| == 1 && |"b"| == 1 && |"a() x"| == 5 && "a"[0] != "b"[0];
    assert g.edges[0] == a && g.edges[1] == b;
    AcceptedUnlessClash(g);
  }
}
