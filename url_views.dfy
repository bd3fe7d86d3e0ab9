/**
  The view-name collector of mysite/book/get_all_views.py.

  A project's URL configuration is an ordered list of entries. An entry is
  either a resolver (an `include(...)` of another list of entries), a pattern
  bound to a view callable, or something else that the collector ignores. The
  collector walks the entries depth-first and left-to-right and appends the
  name of every pattern's view to a module-level list, which it returns.
*/
module UrlViews {

  /** One entry of a URL configuration. */
  datatype Node =
    | Resolver(children: seq<Node>)   // an include(): its own url_patterns
    | Pattern(callbackName: string)   // a route; the __name__ of its view
    | Other                           // any other object in the list

  /** The names a single entry contributes, in traversal order. */
  function NodeNames(n: Node): (r: seq<string>)
    ensures |r| == NodeLeafCount(n)
    decreases n
  {
    match n
    case Resolver(children) => Flatten(children)
    case Pattern(name) => [name]
    case Other => []
  }

  /**
    The depth-first, left-to-right list of view names of `nodes`: one name per
    reachable pattern leaf.
  */
  function Flatten(nodes: seq<Node>): (r: seq<string>)
    ensures |r| == LeafCount(nodes)
    decreases nodes
  {
    if nodes == [] then [] else NodeNames(nodes[0]) + Flatten(nodes[1..])
  }

  // ---------------------------------------------------------------------
  // Independent reference definitions: what is reachable, and how often.

  /** `name` is the view name of some pattern reachable from `n`. */
  ghost predicate NodeDeclares(n: Node, name: string)
    decreases n
  {
    match n
    case Resolver(children) => Declares(children, name)
    case Pattern(c) => c == name
    case Other => false
  }

  /** `name` is the view name of some pattern reachable from one of `nodes`. */
  ghost predicate Declares(nodes: seq<Node>, name: string)
    decreases nodes
  {
    exists i :: 0 <= i < |nodes| && NodeDeclares(nodes[i], name)
  }

  /** The number of pattern leaves of `n` whose view is called `name`. */
  function NodeLeavesNamed(n: Node, name: string): nat
    decreases n
  {
    match n
    case Resolver(children) => LeavesNamed(children, name)
    case Pattern(c) => if c == name then 1 else 0
    case Other => 0
  }

  /** The number of pattern leaves reachable from `nodes` whose view is called `name`. */
  function LeavesNamed(nodes: seq<Node>, name: string): nat
    decreases nodes
  {
    if nodes == [] then 0 else NodeLeavesNamed(nodes[0], name) + LeavesNamed(nodes[1..], name)
  }

  /** The number of pattern leaves of `n`, whatever their names. */
  function NodeLeafCount(n: Node): nat
    decreases n
  {
    match n
    case Resolver(children) => LeafCount(children)
    case Pattern(_) => 1
    case Other => 0
  }

  /** The number of pattern leaves reachable from `nodes`. */
  function LeafCount(nodes: seq<Node>): nat
    decreases nodes
  {
    if nodes == [] then 0 else NodeLeafCount(nodes[0]) + LeafCount(nodes[1..])
  }

  /** Every entry is a pattern: the configuration has no include and nothing else. */
  predicate AllPatterns(nodes: seq<Node>)
  {
    forall i :: 0 <= i < |nodes| ==> nodes[i].Pattern?
  }

  // ---------------------------------------------------------------------
  // Properties of the traversal.

  /** Flattening distributes over concatenation of sibling lists. */
  lemma {:induction false} FlattenAppend(a: seq<Node>, b: seq<Node>)
    ensures Flatten(a + b) == Flatten(a) + Flatten(b)
    decreases a
  {
    if a == [] {
      assert a + b == b;
    } else {
      assert (a + b)[1..] == a[1..] + b;
      FlattenAppend(a[1..], b);
    }
  }

  /** Appending one entry appends exactly what that entry contributes. */
  lemma {:induction false} FlattenSnoc(a: seq<Node>, n: Node)
    ensures Flatten(a + [n]) == Flatten(a) + NodeNames(n)
  {
    FlattenAppend(a, [n]);
    assert [n][1..] == [];
  }

  /**
    A resolver contributes exactly the flattening of its children, and it
    contributes them after the entries before it and before any later sibling.
  */
  lemma {:induction false} ResolverInlined(before: seq<Node>, children: seq<Node>, after: seq<Node>)
    ensures Flatten(before + [Resolver(children)] + after)
         == Flatten(before) + Flatten(children) + Flatten(after)
  {
    FlattenAppend(before + [Resolver(children)], after);
    FlattenSnoc(before, Resolver(children));
  }

  /** An entry that is neither a resolver nor a pattern contributes nothing. */
  lemma {:induction false} OtherIgnored(before: seq<Node>, after: seq<Node>)
    ensures Flatten(before + [Other] + after) == Flatten(before + after)
  {
    FlattenAppend(before + [Other], after);
    FlattenSnoc(before, Other);
    FlattenAppend(before, after);
  }

  /**
    Duplicates are kept: a name occurs in the result as many times as there are
    reachable patterns whose view has that name.
  */
  lemma {:induction false} FlattenMultiplicity(nodes: seq<Node>, name: string)
    ensures multiset(Flatten(nodes))[name] == LeavesNamed(nodes, name)
    decreases nodes
  {
    if nodes != [] {
      NodeMultiplicity(nodes[0], name);
      FlattenMultiplicity(nodes[1..], name);
      assert multiset(Flatten(nodes))
          == multiset(NodeNames(nodes[0])) + multiset(Flatten(nodes[1..]));
    }
  }

  lemma {:induction false} NodeMultiplicity(n: Node, name: string)
    ensures multiset(NodeNames(n))[name] == NodeLeavesNamed(n, name)
    decreases n
  {
    match n
    case Resolver(children) => FlattenMultiplicity(children, name);
    case Pattern(_) =>
    case Other =>
  }

  /** A name is in the result exactly when some reachable pattern carries it. */
  lemma {:induction false} FlattenMembership(nodes: seq<Node>, name: string)
    ensures name in Flatten(nodes) <==> Declares(nodes, name)
    decreases nodes
  {
    if nodes == [] {
    } else {
      NodeMembership(nodes[0], name);
      FlattenMembership(nodes[1..], name);
      if Declares(nodes, name) {
        var i :| 0 <= i < |nodes| && NodeDeclares(nodes[i], name);
        if i > 0 {
          assert nodes[1..][i - 1] == nodes[i];
        }
      }
      if Declares(nodes[1..], name) {
        var j :| 0 <= j < |nodes[1..]| && NodeDeclares(nodes[1..][j], name);
        assert nodes[j + 1] == nodes[1..][j];
      }
    }
  }

  lemma {:induction false} NodeMembership(n: Node, name: string)
    ensures name in NodeNames(n) <==> NodeDeclares(n, name)
    decreases n
  {
    match n
    case Resolver(children) => FlattenMembership(children, name);
    case Pattern(_) =>
    case Other =>
  }

  /**
    A configuration without includes yields one name per entry, in the order
    of the entries.
  */
  lemma {:induction false} FlatConfiguration(nodes: seq<Node>)
    requires AllPatterns(nodes)
    ensures |Flatten(nodes)| == |nodes|
    ensures forall i :: 0 <= i < |nodes| ==> Flatten(nodes)[i] == nodes[i].callbackName
    decreases nodes
  {
    if nodes != [] {
      FlatConfiguration(nodes[1..]);
    }
  }

  /**
    Collecting the same non-empty configuration a second time changes the
    list again: the accumulating collector is not idempotent.
  */
  lemma AccumulationNotIdempotent(before: seq<string>, nodes: seq<Node>)
    requires LeafCount(nodes) > 0
    ensures before + Flatten(nodes) + Flatten(nodes) != before + Flatten(nodes)
  {
  }

  // ---------------------------------------------------------------------
  // The book application of mysite/book/urls.py.

  /** The two routes of mysite/book/urls.py, views book_list and book_login. */
  function BookUrls(): (r: seq<Node>)
    ensures AllPatterns(r)
  {
    [Pattern("book_list"), Pattern("book_login")]
  }

  /** A root configuration that includes the book routes twice. */
  function RootIncludingBookTwice(): (r: seq<Node>)
    ensures LeafCount(r) == 4
  {
    [Resolver(BookUrls()), Resolver(BookUrls())]
  }

  /** Including the book routes twice lists each book view twice, in route order. */
  lemma BookSiteViewNames()
    ensures Flatten(RootIncludingBookTwice())
         == ["book_list", "book_login", "book_list", "book_login"]
  {
  }

  // ---------------------------------------------------------------------
  // The module-level list and the collector that appends to it.

  /**
    The state of the get_all_views module: its global `VIEW_NAMES` list.
  */
  class ViewNameCollector {
    var viewNames: seq<string>

    /** Loading the module starts the list empty. */
    constructor ()
      ensures viewNames == []
    {
      viewNames := [];
    }

    /**
      get_all_view_names: walk `urlpatterns`, recursing into resolvers and
      appending each pattern's view name to the list; return the list.
    */
    method GetAllViewNames(urlpatterns: seq<Node>) returns (r: seq<string>)
      modifies this
      decreases urlpatterns
      ensures viewNames == old(viewNames) + Flatten(urlpatterns)
      ensures |viewNames| == |old(viewNames)| + LeafCount(urlpatterns)
      ensures old(viewNames) <= viewNames
      ensures r == viewNames
    {
      for i := 0 to |urlpatterns|
        invariant viewNames == old(viewNames) + Flatten(urlpatterns[..i])
      {
        var pattern := urlpatterns[i];
        assert urlpatterns[..i + 1] == urlpatterns[..i] + [pattern];
        FlattenSnoc(urlpatterns[..i], pattern);
        match pattern
        case Resolver(children) =>
          var _ := GetAllViewNames(children);
        case Pattern(name) =>
          viewNames := viewNames + [name];
        case Other =>
      }
      assert urlpatterns[..|urlpatterns|] == urlpatterns;
      r := viewNames;
    }
  }

  /**
    Two calls on the same configuration: the second appends the names once
    more, so the list's contents after the second call differ from its
    contents after the first call whenever the configuration has a pattern.
  */
  method CollectTwice(c: ViewNameCollector, urlpatterns: seq<Node>)
      returns (first: seq<string>, second: seq<string>)
    modifies c
    ensures first == old(c.viewNames) + Flatten(urlpatterns)
    ensures second == first + Flatten(urlpatterns) && second == c.viewNames
    ensures LeafCount(urlpatterns) > 0 ==> second != first
  {
    first := c.GetAllViewNames(urlpatterns);
    second := c.GetAllViewNames(urlpatterns);
  }

  /**
    Loading the module with a root configuration that includes the book
    routes twice leaves every book view name in the list twice.
  */
  method LoadBookSite() returns (names: seq<string>)
    ensures names == ["book_list", "book_login", "book_list", "book_login"]
  {
    var collector := new ViewNameCollector();
    names := collector.GetAllViewNames(RootIncludingBookTwice());
    BookSiteViewNames();
  }
}
