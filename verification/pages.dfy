/**
 * `usePages`: the navigation catalog. The router's routes, minus the
 * internal ones, are grouped by their `meta.category` (routes without one go
 * to "other"); each group takes its label and icon from the app config's
 * `pageCategories` and its link from its first route, and lists one child
 * per route.
 */
module Pages {
  import opened Js
  import opened JsObject

  datatype Meta = Meta(category: Option<string>, name: Option<string>, description: Option<string>, icon: Option<string>)
  datatype Route = Route(name: Option<string>, path: string, meta: Meta)
  /** An entry of `pageCategories` in the app config. */
  datatype CategoryConfig = CategoryConfig(labelText: Option<string>, icon: Option<string>)
  datatype Child = Child(labelText: Option<string>, description: Option<string>, icon: string, to: string)
  datatype Group = Group(labelText: Option<string>, icon: string, to: string, children: seq<Child>)

  const Other := "other"
  const FolderIcon := "i-lucide-folder"
  const FileIcon := "i-lucide-file"

  /** The filter: not named exactly "index" or "all", and no name containing one of the three excluded fragments. */
  predicate Visible(r: Route) {
    && r.name != Some("index") && r.name != Some("all")
    && !(r.name.Some? && Includes(r.name.value, "auth-callback"))
    && !(r.name.Some? && Includes(r.name.value, "organizations-ComponentForm"))
    && !(r.name.Some? && Includes(r.name.value, "organizations-name"))
  }

  /** `router.getRoutes().filter(...)`: the visible routes, in router order. */
  function VisibleRoutes(rs: seq<Route>): (vs: seq<Route>)
    ensures forall r :: r in vs ==> r in rs && Visible(r)
    ensures forall r :: r in rs && Visible(r) ==> r in vs
    ensures |vs| <= |rs|
  {
    if rs == [] then []
    else
      assert rs == [rs[0]] + rs[1..];
      (if Visible(rs[0]) then [rs[0]] else []) + VisibleRoutes(rs[1..])
  }

  /** Each visible route is kept as many times as the router lists it; every other route is dropped. */
  lemma {:induction false} VisibleRoutesCounts(rs: seq<Route>)
    ensures forall r :: multiset(VisibleRoutes(rs))[r] == if Visible(r) then multiset(rs)[r] else 0
  {
    if rs != [] {
      VisibleRoutesCons(rs[0], rs[1..]);
      assert rs == [rs[0]] + rs[1..];
      VisibleRoutesCounts(rs[1..]);
    }
  }

  /** One filter step: the head is kept when visible, then the rest is filtered. */
  lemma VisibleRoutesCons(r: Route, rs: seq<Route>)
    ensures VisibleRoutes([r] + rs) == (if Visible(r) then [r] else []) + VisibleRoutes(rs)
  {
    var x := [r] + rs;
    assert x[0] == r && x[1..] == rs;
  }

  /** The filter keeps router order: filtering a concatenation concatenates the filtered parts. */
  lemma {:induction false} VisibleRoutesAppend(a: seq<Route>, b: seq<Route>)
    ensures VisibleRoutes(a + b) == VisibleRoutes(a) + VisibleRoutes(b)
  {
    if a == [] {
      assert a + b == b;
    } else {
      var t := a[1..];
      assert a == [a[0]] + t;
      assert a + b == [a[0]] + (t + b);
      VisibleRoutesCons(a[0], t + b);
      VisibleRoutesCons(a[0], t);
      VisibleRoutesAppend(t, b);
    }
  }

  /**
   * `route.meta.category || "other"`. The result is never empty, so the
   * `if (!category) return acc` that follows it in the reduce never fires.
   */
  function CategoryOf(r: Route): (c: string)
    ensures c != ""
    ensures IsTruthy(r.meta.category) ==> c == r.meta.category.value
    ensures !IsTruthy(r.meta.category) ==> c == Other
  {
    OrElse(r.meta.category, Some(Other)).value
  }

  /** The child entry of a route: label `meta.name || name`, icon falling back to the file icon, link its path. */
  function ChildOf(r: Route): (ch: Child)
    ensures ch.labelText == (if IsTruthy(r.meta.name) then r.meta.name else r.name)
    ensures ch.icon == (if IsTruthy(r.meta.icon) then r.meta.icon.value else FileIcon)
    ensures ch.description == r.meta.description && ch.to == r.path
  {
    Child(OrElse(r.meta.name, r.name), r.meta.description, OrElse(r.meta.icon, Some(FileIcon)).value, r.path)
  }

  function LabelOf(config: map<string, CategoryConfig>, c: string): Option<string> {
    if c in config then config[c].labelText else None
  }

  /** `pageCategories[c]?.icon || "i-lucide-folder"` */
  function IconOf(config: map<string, CategoryConfig>, c: string): (icon: string)
    ensures c in config && IsTruthy(config[c].icon) ==> icon == config[c].icon.value
    ensures !(c in config && IsTruthy(config[c].icon)) ==> icon == FolderIcon
  {
    OrElse(if c in config then config[c].icon else None, Some(FolderIcon)).value
  }

  /** The group created for the first route of a category, before its child is pushed. */
  function NewGroup(r: Route, config: map<string, CategoryConfig>): Group {
    var c := CategoryOf(r);
    Group(LabelOf(config, c), IconOf(config, c), r.path, [])
  }

  /** One step of the reduce: create the route's group if missing, then push its child. */
  function Step(acc: Obj<Group>, r: Route, config: map<string, CategoryConfig>): (o: Obj<Group>)
    requires acc.Valid()
    ensures o.Valid()
  {
    var c := CategoryOf(r);
    var g := if c in acc.values then acc.values[c] else NewGroup(r, config);
    Put(acc, c, g.(children := g.children + [ChildOf(r)]))
  }

  /** The accumulator after reducing over `rs`. */
  function Grouped(rs: seq<Route>, config: map<string, CategoryConfig>): (o: Obj<Group>)
    ensures o.Valid()
  {
    if rs == [] then Empty() else Step(Grouped(rs[..|rs| - 1], config), rs[|rs| - 1], config)
  }

  /** The index of the first route of category `c`, or `|rs|` when there is none. */
  function FirstOf(rs: seq<Route>, c: string): (i: nat)
    ensures i <= |rs|
    ensures i < |rs| ==> CategoryOf(rs[i]) == c
  {
    if rs == [] then 0
    else
      var p := FirstOf(rs[..|rs| - 1], c);
      if p < |rs| - 1 then p
      else if CategoryOf(rs[|rs| - 1]) == c then |rs| - 1
      else |rs|
  }

  /** No route before `FirstOf(rs, c)` has category `c`: it is the first one. */
  lemma {:induction false} FirstOfIsFirst(rs: seq<Route>, c: string, j: nat)
    requires j < FirstOf(rs, c)
    ensures CategoryOf(rs[j]) != c
  {
    var n := |rs|;
    var p := rs[..n - 1];
    if FirstOf(p, c) < n - 1 {
      FirstOfIsFirst(p, c, j);
      assert p[j] == rs[j];
    } else if j < n - 1 {
      if FirstOf(p, c) == n - 1 {
        FirstOfIsFirst(p, c, j);
        assert p[j] == rs[j];
      }
    }
  }

  /** The child entries of the routes of category `c`, in route order. */
  function ChildrenIn(rs: seq<Route>, c: string): (cs: seq<Child>)
    ensures cs == [] <==> FirstOf(rs, c) == |rs|
  {
    if rs == [] then []
    else
      ChildrenIn(rs[..|rs| - 1], c) + (if CategoryOf(rs[|rs| - 1]) == c then [ChildOf(rs[|rs| - 1])] else [])
  }

  /** The number of children over all groups. */
  function TotalChildren(gs: seq<Group>): nat {
    if gs == [] then 0 else TotalChildren(gs[..|gs| - 1]) + |gs[|gs| - 1].children|
  }

  /** Reducing over one more route is one more step. */
  lemma GroupedSnoc(rs: seq<Route>, i: nat, config: map<string, CategoryConfig>)
    requires i < |rs|
    ensures Grouped(rs[..i + 1], config) == Step(Grouped(rs[..i], config), rs[i], config)
  {
    assert rs[..i + 1][..i] == rs[..i];
  }

  /** The step as the loop writes it: create the group when missing, then write it back with the new child. */
  lemma StepInTwoWrites(acc: Obj<Group>, r: Route, config: map<string, CategoryConfig>)
    requires acc.Valid()
    ensures var c := CategoryOf(r);
      var created := if c in acc.values then acc else Put(acc, c, NewGroup(r, config));
      && c in created.values
      && Put(created, c, created.values[c].(children := created.values[c].children + [ChildOf(r)])) == Step(acc, r, config)
  {
    var c := CategoryOf(r);
    if c !in acc.values {
      var g := NewGroup(r, config);
      PutTwice(acc, c, g, g.(children := g.children + [ChildOf(r)]));
    }
  }

  /**
   * The reduce's callback: look up the route's group, create it (label, icon
   * and link from this route) when missing, then push the route's child.
   */
  method AddRoute(acc: Obj<Group>, route: Route, config: map<string, CategoryConfig>) returns (next: Obj<Group>)
    requires acc.Valid()
    ensures next == Step(acc, route, config)
  {
    var category := CategoryOf(route);
    StepInTwoWrites(acc, route, config);
    next := acc;
    if category == "" {
      return;
    }
    if category !in next.values {
      next := Put(next, category, NewGroup(route, config));
    }
    var group := next.values[category];
    next := Put(next, category, group.(children := group.children + [ChildOf(route)]));
  }

  /** `routes.reduce(callback, {})` */
  method GroupRoutes(routes: seq<Route>, config: map<string, CategoryConfig>) returns (acc: Obj<Group>)
    ensures acc == Grouped(routes, config)
  {
    acc := Empty();
    var i := 0;
    while i < |routes|
      invariant 0 <= i <= |routes|
      invariant acc == Grouped(routes[..i], config)
    {
      acc := AddRoute(acc, routes[i], config);
      GroupedSnoc(routes, i, config);
      i := i + 1;
    }
    assert routes[..i] == routes;
  }

  /** `usePages().pages`: `Object.values` of the reduce over the visible routes. */
  method UsePages(routes: seq<Route>, config: map<string, CategoryConfig>) returns (pages: seq<Group>)
    ensures pages == Values(Grouped(VisibleRoutes(routes), config))
  {
    var visible := VisibleRoutes(routes);
    var acc := GroupRoutes(visible, config);
    pages := Values(acc);
  }

  /**
   * The groups are exactly the categories that occur, and the group of `c`
   * carries its configured label and icon, the path of the first route of
   * `c`, and one child per route of `c` in route order.
   */
  lemma {:induction false} GroupedContents(rs: seq<Route>, config: map<string, CategoryConfig>, c: string)
    ensures (c in Grouped(rs, config).values) <==> FirstOf(rs, c) < |rs|
    ensures c in Grouped(rs, config).values ==>
      Grouped(rs, config).values[c] == Group(LabelOf(config, c), IconOf(config, c), rs[FirstOf(rs, c)].path, ChildrenIn(rs, c))
  {
    if rs != [] {
      var n := |rs|;
      var p, r := rs[..n - 1], rs[n - 1];
      GroupedContents(p, config, c);
      var acc := Grouped(p, config);
      var next := Grouped(rs, config);
      assert next == Step(acc, r, config);
      StepAt(acc, r, config, c);
      var first := FirstOf(p, c);
      if CategoryOf(r) != c {
        assert ChildrenIn(rs, c) == ChildrenIn(p, c);
        if first < n - 1 {
          assert FirstOf(rs, c) == first && rs[first] == p[first];
        } else {
          assert FirstOf(rs, c) == n;
        }
      } else {
        assert ChildrenIn(rs, c) == ChildrenIn(p, c) + [ChildOf(r)];
        if first < n - 1 {
          assert FirstOf(rs, c) == first && rs[first] == p[first];
        } else {
          assert FirstOf(rs, c) == n - 1;
          assert ChildrenIn(p, c) == [];
        }
      }
    }
  }

  /** What one step of the reduce does to the entry under `c`. */
  lemma StepAt(acc: Obj<Group>, r: Route, config: map<string, CategoryConfig>, c: string)
    requires acc.Valid()
    ensures c in Step(acc, r, config).values <==> c in acc.values || CategoryOf(r) == c
    ensures CategoryOf(r) != c && c in acc.values ==> Step(acc, r, config).values[c] == acc.values[c]
    ensures CategoryOf(r) == c && c in acc.values ==>
      Step(acc, r, config).values[c] == acc.values[c].(children := acc.values[c].children + [ChildOf(r)])
    ensures CategoryOf(r) == c && c !in acc.values ==>
      Step(acc, r, config).values[c] == Group(LabelOf(config, c), IconOf(config, c), r.path, [ChildOf(r)])
  {
  }


  /** A category that occurs before the last route has the same first route with or without it. */
  lemma FirstOfPrefix(rs: seq<Route>, c: string)
    requires rs != [] && FirstOf(rs[..|rs| - 1], c) < |rs| - 1
    ensures FirstOf(rs, c) == FirstOf(rs[..|rs| - 1], c)
  {
  }

  /** Groups appear in the order in which their categories first occur. */
  /** `ks` lists categories that occur in `rs`, ordered by their first route. */
  predicate OrderedByFirst(rs: seq<Route>, ks: seq<string>) {
    && (forall i, j :: 0 <= i < j < |ks| ==> FirstOf(rs, ks[i]) < FirstOf(rs, ks[j]))
    && (forall i :: 0 <= i < |ks| ==> FirstOf(rs, ks[i]) < |rs|)
  }

  /** One more route adds its category at the end of the keys when the category is new. */
  lemma GroupedKeysSnoc(rs: seq<Route>, config: map<string, CategoryConfig>)
    requires rs != []
    ensures var p := rs[..|rs| - 1];
      var c := CategoryOf(rs[|rs| - 1]);
      Grouped(rs, config).keys == if c in Grouped(p, config).values then Grouped(p, config).keys else Grouped(p, config).keys + [c]
  {
  }

  /** Appending a category whose first route is the last route keeps the order. */
  lemma OrderedByFirstSnoc(rs: seq<Route>, ks: seq<string>, c: string)
    requires rs != []
    requires OrderedByFirst(rs[..|rs| - 1], ks)
    requires FirstOf(rs, c) == |rs| - 1
    ensures OrderedByFirst(rs, ks + [c])
  {
    var n := |rs|;
    var keys := ks + [c];
    forall i | 0 <= i < |ks| ensures FirstOf(rs, ks[i]) == FirstOf(rs[..n - 1], ks[i]) < n - 1 {
      FirstOfPrefix(rs, ks[i]);
    }
    forall i, j | 0 <= i < j < |keys| ensures FirstOf(rs, keys[i]) < FirstOf(rs, keys[j]) {
      assert keys[i] == ks[i];
      if j < |ks| {
        assert keys[j] == ks[j];
      }
    }
    forall i | 0 <= i < |keys| ensures FirstOf(rs, keys[i]) < n {
      if i < |ks| {
        assert keys[i] == ks[i];
      }
    }
  }

  /** Routes added after the categories already listed do not change their order. */
  lemma OrderedByFirstExtend(rs: seq<Route>, ks: seq<string>)
    requires rs != []
    requires OrderedByFirst(rs[..|rs| - 1], ks)
    ensures OrderedByFirst(rs, ks)
  {
    forall i | 0 <= i < |ks| ensures FirstOf(rs, ks[i]) == FirstOf(rs[..|rs| - 1], ks[i]) {
      FirstOfPrefix(rs, ks[i]);
    }
  }

  lemma {:induction false} GroupedOrder(rs: seq<Route>, config: map<string, CategoryConfig>)
    ensures OrderedByFirst(rs, Grouped(rs, config).keys)
  {
    if rs != [] {
      var n := |rs|;
      var p := rs[..n - 1];
      GroupedOrder(p, config);
      var c := CategoryOf(rs[n - 1]);
      GroupedKeysSnoc(rs, config);
      if c in Grouped(p, config).values {
        OrderedByFirstExtend(rs, Grouped(p, config).keys);
      } else {
        GroupedContents(p, config, c);
        OrderedByFirstSnoc(rs, Grouped(p, config).keys, c);
      }
    }
  }



  /** Replacing one group changes the total by the difference in its children. */
  lemma {:induction false} TotalChildrenUpdate(gs: seq<Group>, i: nat, g: Group)
    requires i < |gs|
    ensures TotalChildren(gs[i := g]) + |gs[i].children| == TotalChildren(gs) + |g.children|
  {
    var n := |gs|;
    if i < n - 1 {
      TotalChildrenUpdate(gs[..n - 1], i, g);
      assert gs[i := g][..n - 1] == gs[..n - 1][i := g];
    } else {
      assert gs[i := g][..n - 1] == gs[..n - 1];
    }
  }

  /** Every route is one child of one group: the children add up to the number of routes. */
  lemma {:induction false} GroupedTotal(rs: seq<Route>, config: map<string, CategoryConfig>)
    ensures TotalChildren(Values(Grouped(rs, config))) == |rs|
  {
    if rs != [] {
      var n := |rs|;
      var p := rs[..n - 1];
      GroupedTotal(p, config);
      var acc := Grouped(p, config);
      var r := rs[n - 1];
      var c := CategoryOf(r);
      var o := Grouped(rs, config);
      assert o == Step(acc, r, config);
      var g := o.values[c];
      if c in acc.values {
        var i :| 0 <= i < |acc.keys| && acc.keys[i] == c;
        ValuesPutExisting(acc, i, g);
        TotalChildrenUpdate(Values(acc), i, g);
      } else {
        ValuesPutNew(acc, c, g);
        assert (Values(acc) + [g])[..|acc.keys|] == Values(acc);
      }
    }
  }

  /** The catalog built from a route list lists every visible route exactly once. */
  lemma CatalogCoversVisibleRoutes(routes: seq<Route>, config: map<string, CategoryConfig>)
    ensures TotalChildren(Values(Grouped(VisibleRoutes(routes), config))) == |VisibleRoutes(routes)|
  {
    GroupedTotal(VisibleRoutes(routes), config);
  }
}
