/** Expanding ProxyJump into the route an alias is reached by. */
module Route {
  import opened Wrappers
  import opened ProxyJump

  const MAX_PROXY_HOPS := 8

  datatype Role = Jump | Target

  /** What AsyncSSH resolves for one endpoint from the gateway's SSH config. */
  datatype Options = Options(user: string, port: int, tunnel: Option<string>)

  datatype Endpoint = Endpoint(host: string, user: string, port: int, role: Role)

  datatype RouteError =
    | Cycle | RepeatedJump | TooManyHops | BadJump(jump: JumpError) | BadConfig

  /** The config, and the IPv6 addresses AsyncSSH accepts: resolving a hop succeeds or fails. */
  datatype Config = Config(resolve: Hop -> Option<Options>, ipv6: string -> bool)

  // ---- the expansion tree ------------------------------------------------

  /** A hop and the expansions of the hops its ProxyJump value lists. */
  datatype Tree = Tree(hop: Hop, options: Options, jumps: seq<Tree>)

  /** Every node's config entry resolves and its ProxyJump value lists its children. */
  ghost predicate Expands(tree: Tree, config: Config)
    decreases tree
  {
    && config.resolve(tree.hop) == Some(tree.options)
    && var hops := Parse(tree.options.tunnel, config.ipv6);
       && hops.Ok? && |hops.value| == |tree.jumps|
       && forall i :: 0 <= i < |tree.jumps| ==> tree.jumps[i].hop == hops.value[i] && Expands(tree.jumps[i], config)
  }

  /** The jump hosts of some expansions, each before the ones it is reached through. */
  ghost function Hosts(trees: seq<Tree>): seq<string> {
    if trees == [] then [] else [trees[0].hop.host] + Hosts(trees[0].jumps) + Hosts(trees[1..])
  }

  ghost function NodeEndpoint(tree: Tree, role: Role): Endpoint {
    Endpoint(tree.hop.host, tree.options.user, tree.options.port, role)
  }

  /** Post-order: every endpoint follows the ones it is reached through. */
  ghost function PostOrder(trees: seq<Tree>): seq<Endpoint> {
    if trees == [] then []
    else PostOrder(trees[0].jumps) + [NodeEndpoint(trees[0], Jump)] + PostOrder(trees[1..])
  }

  ghost function RouteOf(tree: Tree): seq<Endpoint> {
    PostOrder(tree.jumps) + [NodeEndpoint(tree, Target)]
  }

  ghost predicate Distinct(hosts: seq<string>) {
    forall i, j :: 0 <= i < j < |hosts| ==> hosts[i] != hosts[j]
  }

  /** `tree` is the finite expansion of `alias`, with at most eight jump hosts, all different and none the alias. */
  ghost predicate Routes(tree: Tree, alias: string, config: Config) {
    && tree.hop == Hop(alias, None, None)
    && Expands(tree, config)
    && |Hosts(tree.jumps)| <= 8
    && Distinct(Hosts(tree.jumps))
    && alias !in Hosts(tree.jumps)
  }

  // ---- facts about trees -------------------------------------------------

  lemma {:induction false} HostsConcat(a: seq<Tree>, b: seq<Tree>)
    ensures Hosts(a + b) == Hosts(a) + Hosts(b)
  {
    if a == [] {
      assert a + b == b;
    } else {
      assert (a + b)[1..] == a[1..] + b;
      HostsConcat(a[1..], b);
    }
  }

  lemma {:induction false} PostOrderConcat(a: seq<Tree>, b: seq<Tree>)
    ensures PostOrder(a + b) == PostOrder(a) + PostOrder(b)
  {
    if a == [] {
      assert a + b == b;
    } else {
      assert (a + b)[1..] == a[1..] + b;
      PostOrderConcat(a[1..], b);
    }
  }

  lemma {:induction false} PostOrderLength(trees: seq<Tree>)
    ensures |PostOrder(trees)| == |Hosts(trees)|
  {
    if trees != [] {
      PostOrderLength(trees[0].jumps);
      PostOrderLength(trees[1..]);
    }
  }

  /** A route has at most nine endpoints, the last of them the alias itself. */
  lemma RouteIsShort(tree: Tree, alias: string, config: Config)
    requires Routes(tree, alias, config)
    ensures 1 <= |RouteOf(tree)| <= 9
    ensures RouteOf(tree)[|RouteOf(tree)| - 1] == Endpoint(alias, tree.options.user, tree.options.port, Target)
  {
    PostOrderLength(tree.jumps);
  }

  ghost predicate Lists(hop: Hop, hops: seq<Hop>, config: Config) {
    var options := config.resolve(hop);
    options.Some? && Parse(options.value.tunnel, config.ipv6) == Ok(hops)
  }

  /** The ProxyJump value of `alias` lists these hops; they are all different, none is the alias, and none has a
      ProxyJump of its own. */
  ghost predicate ListsLeaves(alias: string, hops: seq<Hop>, config: Config) {
    && Lists(Hop(alias, None, None), hops, config)
    && (forall i, j :: 0 <= i < j < |hops| ==> hops[i].host != hops[j].host)
    && (forall i :: 0 <= i < |hops| ==> hops[i].host != alias && Lists(hops[i], [], config))
  }

  ghost function Leaves(hops: seq<Hop>, config: Config): (leaves: seq<Tree>)
    requires forall i :: 0 <= i < |hops| ==> config.resolve(hops[i]).Some?
    ensures |leaves| == |hops|
    ensures forall i :: 0 <= i < |leaves| ==> leaves[i] == Tree(hops[i], config.resolve(hops[i]).value, [])
  {
    seq(|hops|, i requires 0 <= i < |hops| => Tree(hops[i], config.resolve(hops[i]).value, []))
  }

  lemma {:induction false} LeafHosts(trees: seq<Tree>)
    requires forall i :: 0 <= i < |trees| ==> trees[i].jumps == []
    ensures |Hosts(trees)| == |trees| && forall i :: 0 <= i < |trees| ==> Hosts(trees)[i] == trees[i].hop.host
  {
    if trees != [] {
      LeafHosts(trees[1..]);
      assert Hosts(trees[0].jumps) == [];
      assert Hosts(trees) == [trees[0].hop.host] + Hosts(trees[1..]);
    }
  }

  /** A list of different hosts without jumps of their own resolves exactly if it names at most eight. */
  lemma EightLeavesAtMost(alias: string, hops: seq<Hop>, config: Config)
    requires ListsLeaves(alias, hops, config)
    ensures (exists tree :: Routes(tree, alias, config)) <==> |hops| <= 8
  {
    hide Parse, Hosts;
    var options := config.resolve(Hop(alias, None, None)).value;
    var leaves := Leaves(hops, config);
    var tree := Tree(Hop(alias, None, None), options, leaves);
    forall i | 0 <= i < |leaves| ensures Expands(leaves[i], config) {
      ExpandsNode(hops[i], leaves[i].options, [], [], config);
    }
    ExpandsNode(tree.hop, options, hops, leaves, config);
    LeafHosts(leaves);
    if other :| Routes(other, alias, config) { ExpansionIsUnique(other, tree, config); }
    if |hops| <= 8 { assert Routes(tree, alias, config); }
  }

  lemma NoTrees()
    ensures Hosts([]) == [] && PostOrder([]) == []
  {
  }

  lemma HostsOne(tree: Tree)
    ensures Hosts([tree]) == [tree.hop.host] + Hosts(tree.jumps)
  {
    assert [tree][1..] == [];
    assert Hosts([]) == [];
  }

  lemma PostOrderOne(tree: Tree)
    ensures PostOrder([tree]) == PostOrder(tree.jumps) + [NodeEndpoint(tree, Jump)]
  {
    assert [tree][1..] == [];
    assert PostOrder([]) == [];
  }

  /** A hop has at most one finite expansion. */
  lemma {:induction false} ExpansionIsUnique(a: Tree, b: Tree, config: Config)
    requires Expands(a, config) && Expands(b, config) && a.hop == b.hop
    ensures a == b
    decreases a
  {
    forall i | 0 <= i < |a.jumps| ensures a.jumps[i] == b.jumps[i] {
      ExpansionIsUnique(a.jumps[i], b.jumps[i], config);
    }
    assert a.jumps == b.jumps;
  }

  /** Jump hosts a route to `alias` may visit, in this order. */
  ghost predicate Allowed(hosts: seq<string>, alias: string) {
    Distinct(hosts) && alias !in hosts && |hosts| <= 8
  }

  lemma AllowedPrefix(hosts: seq<string>, more: seq<string>, alias: string)
    requires Allowed(hosts + more, alias)
    ensures Allowed(hosts, alias)
  {
    assert forall i :: 0 <= i < |hosts| ==> hosts[i] == (hosts + more)[i];
  }

  lemma AllowedEnter(hosts: seq<string>, host: string, alias: string)
    requires Allowed(hosts, alias) && host !in hosts && host != alias && |hosts| < MAX_PROXY_HOPS
    ensures Allowed(hosts + [host], alias)
  {
  }

  lemma SeenEnter(hosts: seq<string>, host: string)
    ensures (set h | h in hosts + [host]) == (set h | h in hosts) + {host}
  {
  }

  lemma ExpandsNode(hop: Hop, options: Options, hops: seq<Hop>, jumps: seq<Tree>, config: Config)
    requires config.resolve(hop) == Some(options) && Parse(options.tunnel, config.ipv6) == Ok(hops)
    requires |jumps| == |hops| && forall k :: 0 <= k < |jumps| ==> jumps[k].hop == hops[k] && Expands(jumps[k], config)
    ensures Expands(Tree(hop, options, jumps), config)
  {
    hide Parse;
  }

  lemma ExpansionNeedsOptions(t: Tree, config: Config)
    requires Expands(t, config)
    ensures config.resolve(t.hop) == Some(t.options) && Parse(t.options.tunnel, config.ipv6).Ok?
  {
    hide Parse;
  }

  /** What visiting an expansion adds to the jumps seen. */
  ghost function Added(tree: Tree, role: Role): seq<string> {
    if role == Target then Hosts(tree.jumps) else Hosts([tree])
  }

  // ---- the traversal -----------------------------------------------------

  /** The route under construction. */
  class Resolver {
    var endpoints: seq<Endpoint>
    var seenJumps: set<string>
    var jumpCount: nat
    ghost var order: seq<string>        // the jumps seen, in the order they were visited
    ghost const alias: string

    ghost predicate Valid()
      reads this
    {
      && seenJumps == (set h | h in order)
      && jumpCount == |order|
      && Allowed(order, alias)
    }

    constructor (alias: string)
      ensures Valid() && this.alias == alias && endpoints == [] && order == []
    {
      this.alias := alias;
      endpoints, seenJumps, jumpCount, order := [], {}, 0, [];
    }

    /** Appends the post-order of the hop's expansion, if what it adds fits; fails exactly if it has no
        expansion that fits. */
    method Visit(hop: Hop, role: Role, path: seq<string>, config: Config)
      returns (error: Option<RouteError>, ghost tree: Option<Tree>)
      requires Valid()
      requires role == Target ==> hop == Hop(alias, None, None) && path == [] && order == []
      requires role == Jump ==> alias in path && forall h :: h in path ==> h == alias || h in seenJumps
      modifies this
      decreases if role == Target then MAX_PROXY_HOPS + 1 else MAX_PROXY_HOPS - jumpCount
      ensures Valid() && old(order) <= order
      ensures error.None? ==> tree.Some? && tree.value.hop == hop && Expands(tree.value, config)
      ensures error.None? ==>
        order == old(order) + Added(tree.value, role)
      ensures error.None? ==>
        endpoints == old(endpoints) + (if role == Target then RouteOf(tree.value) else PostOrder([tree.value]))
      ensures error.Some? ==> forall t: Tree :: t.hop == hop && Expands(t, config) ==>
        !Allowed(old(order) + Added(t, role), alias)
    {
      hide Parse, Allowed, Expands, Hosts, PostOrder;
      tree := None;
      ghost var before := order;
      if hop.host in path {
        HeadTaken(hop, role, before);
        return Some(Cycle), None;
      }
      if role == Jump {
        if hop.host in seenJumps {
          HeadTaken(hop, role, before);
          return Some(RepeatedJump), None;
        }
        if jumpCount >= MAX_PROXY_HOPS {
          NoRoomLeft(hop, before);
          return Some(TooManyHops), None;
        }
        AllowedEnter(order, hop.host, alias);
        SeenEnter(order, hop.host);
        seenJumps := seenJumps + {hop.host};
        jumpCount := jumpCount + 1;
        order := order + [hop.host];
      }
      ghost var entered := order;
      var options := config.resolve(hop);
      forall t: Tree | t.hop == hop && Expands(t, config)
        ensures options == Some(t.options) && Parse(t.options.tunnel, config.ipv6).Ok?
      {
        ExpansionNeedsOptions(t, config);
      }
      if options.None? {
        return Some(BadConfig), None;
      }
      var nested := Parse(options.value.tunnel, config.ipv6);
      if nested.Err? {
        return Some(BadJump(nested.error)), None;
      }
      var hops := nested.value;
      ghost var jumps: seq<Tree> := [];
      ghost var published := endpoints;
      NoTrees();
      var i := 0;
      while i < |hops|
        invariant 0 <= i <= |hops| && |jumps| == i
        invariant Valid() && order == entered + Hosts(jumps)
        invariant endpoints == published + PostOrder(jumps)
        invariant forall k :: 0 <= k < i ==> jumps[k].hop == hops[k] && Expands(jumps[k], config)
      {
        ghost var child;
        error, child := Visit(hops[i], Jump, path + [hop.host], config);
        if error.Some? {
          forall t: Tree | t.hop == hop && Expands(t, config)
            ensures !Allowed(before + Added(t, role), alias)
          {
            ChildCannotFit(t, hop, role, hops, jumps, config, before, entered, alias);
          }
          return;
        }
        HostsConcat(jumps, [child.value]);
        PostOrderConcat(jumps, [child.value]);
        jumps := jumps + [child.value];
        i := i + 1;
      }
      endpoints := endpoints + [Endpoint(hop.host, options.value.user, options.value.port, role)];
      error := None;
      tree := Some(Tree(hop, options.value, jumps));
      ExpandsNode(hop, options.value, hops, jumps, config);
      HostsOne(tree.value);
      PostOrderOne(tree.value);
    }

    lemma HeadTaken(hop: Hop, role: Role, seen: seq<string>)
      requires role == Jump && (hop.host == alias || hop.host in seen)
      ensures forall t: Tree :: t.hop == hop ==> !Allowed(seen + Added(t, role), alias)
    {
      forall t: Tree | t.hop == hop ensures !Allowed(seen + Added(t, role), alias) {
        HostsOne(t);
        assert (seen + Hosts([t]))[|seen|] == hop.host;
        if hop.host in seen {
          var i :| 0 <= i < |seen| && seen[i] == hop.host;
          assert (seen + Hosts([t]))[i] == hop.host;
        }
      }
    }

    lemma NoRoomLeft(hop: Hop, seen: seq<string>)
      requires |seen| >= MAX_PROXY_HOPS
      ensures forall t: Tree :: t.hop == hop ==> !Allowed(seen + Added(t, Jump), alias)
    {
      forall t: Tree | t.hop == hop ensures !Allowed(seen + Added(t, Jump), alias) {
        HostsOne(t);
      }
    }
  }

  lemma ChildrenExpand(t: Tree, config: Config, hops: seq<Hop>)
    requires Expands(t, config) && Parse(t.options.tunnel, config.ipv6) == Ok(hops)
    ensures |t.jumps| == |hops|
    ensures forall k :: 0 <= k < |hops| ==> t.jumps[k].hop == hops[k] && Expands(t.jumps[k], config)
  {
    hide Parse;
  }

  /** The hops expanded so far are the first children of any expansion. */
  lemma SameChildren(t: Tree, hops: seq<Hop>, jumps: seq<Tree>, config: Config)
    requires Expands(t, config) && Parse(t.options.tunnel, config.ipv6) == Ok(hops) && |jumps| < |hops|
    requires forall k :: 0 <= k < |jumps| ==> jumps[k].hop == hops[k] && Expands(jumps[k], config)
    ensures |t.jumps| == |hops| && t.jumps[..|jumps|] == jumps
    ensures t.jumps[|jumps|].hop == hops[|jumps|] && Expands(t.jumps[|jumps|], config)
  {
    hide Parse, Expands;
    ChildrenExpand(t, config, hops);
    forall k | 0 <= k < |jumps| ensures jumps[k] == t.jumps[k] {
      ExpansionIsUnique(jumps[k], t.jumps[k], config);
    }
  }

  /** What a tree adds begins with what its first children add. */
  lemma AddedByChildren(t: Tree, role: Role, before: seq<string>, entered: seq<string>, n: nat)
    requires n < |t.jumps|
    requires entered == before + (if role == Target then [] else [t.hop.host])
    ensures before + Added(t, role)
         == entered + Hosts(t.jumps[..n]) + Added(t.jumps[n], Jump) + Hosts(t.jumps[n + 1..])
  {
    hide Hosts;
    var first, c, rest := t.jumps[..n], t.jumps[n], t.jumps[n + 1..];
    assert t.jumps == (first + [c]) + rest;
    HostsConcat(first + [c], rest);
    HostsConcat(first, [c]);
    HostsOne(t);
  }

  /** So a child with no fitting expansion leaves its parent with none. */
  lemma ChildCannotFit(
    t: Tree, hop: Hop, role: Role, hops: seq<Hop>, jumps: seq<Tree>, config: Config,
    before: seq<string>, entered: seq<string>, alias: string)
    requires t.hop == hop && Expands(t, config) && Parse(t.options.tunnel, config.ipv6) == Ok(hops)
    requires |jumps| < |hops|
    requires forall k :: 0 <= k < |jumps| ==> jumps[k].hop == hops[k] && Expands(jumps[k], config)
    requires entered == before + (if role == Target then [] else [hop.host])
    requires forall c: Tree :: c.hop == hops[|jumps|] && Expands(c, config) ==>
      !Allowed(entered + Hosts(jumps) + Added(c, Jump), alias)
    ensures !Allowed(before + Added(t, role), alias)
  {
    hide Allowed, Parse, Expands, Hosts, Added;
    SameChildren(t, hops, jumps, config);
    AddedByChildren(t, role, before, entered, |jumps|);
    var seen := entered + Hosts(jumps) + Added(t.jumps[|jumps|], Jump);
    if Allowed(before + Added(t, role), alias) { AllowedPrefix(seen, Hosts(t.jumps[|jumps| + 1..]), alias); }
  }

  /** Resolving an alias. */
  method Resolve(alias: string, config: Config) returns (route: Result<seq<Endpoint>, RouteError>)
    ensures route.Ok? <==> exists tree :: Routes(tree, alias, config)
    ensures forall tree :: Routes(tree, alias, config) ==> route == Ok(RouteOf(tree))
  {
    hide Expands, Hosts, PostOrder, Distinct;
    var resolver := new Resolver(alias);
    var error, tree := resolver.Visit(Hop(alias, None, None), Target, [], config);
    if error.Some? {
      route := Err(error.value);
    } else {
      route := Ok(resolver.endpoints);
      assert resolver.order == Hosts(tree.value.jumps);
      assert resolver.endpoints == RouteOf(tree.value);
      assert Routes(tree.value, alias, config);
    }
    forall t | Routes(t, alias, config) ensures route == Ok(RouteOf(t)) {
      assert [] + Added(t, Target) == Hosts(t.jumps);
      assert Allowed([] + Added(t, Target), alias);
      ExpansionIsUnique(t, tree.value, config);
    }
  }
}
