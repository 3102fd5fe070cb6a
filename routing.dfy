/** The correspondent router (routing.js): for one settlement currency, an
    undirected graph over the banks, and the minimum-hop route between two
    banks by breadth-first search. */
module Routing {
  import opened Failures
  import opened Schema
  import opened Ordering
  import Store

  /** Each bank's neighbour list. */
  type Graph = map<BankId, seq<BankId>>

  // ---------------------------------------------------------------------
  // Which banks are adjacent in a currency

  /** A nostro row links its two banks in currency `c` when it is held in `c`
      at a correspondent that exists and whose base currency is `c`. */
  predicate CountsAsLink(banks: map<BankId, Bank>, n: Nostro, c: Currency)
  {
    n.currency == c && n.correspondentBankId in banks && banks[n.correspondentBankId].baseCurrency == c
  }

  /** The nostro joins `a` and `b`, in either direction. */
  predicate Joins(n: Nostro, a: BankId, b: BankId)
  {
    (n.ownerBankId == a && n.correspondentBankId == b) || (n.ownerBankId == b && n.correspondentBankId == a)
  }

  /** Some nostro among the rows keyed by `keys` links `a` and `b` in `c`. */
  predicate LinkAmong(banks: map<BankId, Bank>, nostros: map<(BankId, Currency), Nostro>,
                      keys: set<(BankId, Currency)>, c: Currency, a: BankId, b: BankId)
  {
    exists k :: k in keys && k in nostros && CountsAsLink(banks, nostros[k], c) && Joins(nostros[k], a, b)
  }

  /** `a` is a bank whose base currency is `c`. */
  predicate Native(banks: map<BankId, Bank>, c: Currency, a: BankId)
  {
    a in banks && banks[a].baseCurrency == c
  }

  /** The edges of the settlement graph in `c`: a qualifying nostro between the
      two banks, or two distinct banks that both have `c` as base currency. */
  predicate Adjacent(banks: map<BankId, Bank>, nostros: map<(BankId, Currency), Nostro>,
                     c: Currency, a: BankId, b: BankId)
  {
    LinkAmong(banks, nostros, nostros.Keys, c, a, b) || (a != b && Native(banks, c, a) && Native(banks, c, b))
  }

  /** A route in currency `c`: consecutive banks are adjacent. */
  predicate Route(banks: map<BankId, Bank>, nostros: map<(BankId, Currency), Nostro>,
                  c: Currency, p: seq<BankId>, a: BankId, b: BankId)
  {
    |p| >= 1 && p[0] == a && p[|p| - 1] == b &&
    forall i :: 0 < i < |p| ==> Adjacent(banks, nostros, c, p[i - 1], p[i])
  }

  ghost predicate Reachable(banks: map<BankId, Bank>, nostros: map<(BankId, Currency), Nostro>,
                            c: Currency, a: BankId, b: BankId)
  {
    exists p :: Route(banks, nostros, c, p, a, b)
  }

  predicate Distinct(p: seq<BankId>)
  {
    forall i, j :: 0 <= i < j < |p| ==> p[i] != p[j]
  }

  /** The name a bank id sorts by: the bank's name, or the id itself. */
  function NameOf(banks: map<BankId, Bank>, x: BankId): string
  {
    if x in banks then banks[x].name else x
  }

  function ByName(banks: map<BankId, Bank>): BankId -> string
  {
    x => NameOf(banks, x)
  }

  lemma LinkAmongGrows(banks: map<BankId, Bank>, nostros: map<(BankId, Currency), Nostro>,
                       keys: set<(BankId, Currency)>, k: (BankId, Currency), c: Currency, a: BankId, b: BankId)
    requires k in nostros
    ensures LinkAmong(banks, nostros, keys + {k}, c, a, b)
        <==> LinkAmong(banks, nostros, keys, c, a, b) || (CountsAsLink(banks, nostros[k], c) && Joins(nostros[k], a, b))
  {
    if CountsAsLink(banks, nostros[k], c) && Joins(nostros[k], a, b) {
      assert k in keys + {k};
    }
  }

  /** `buildGraph`: every bank gets a neighbour list; each qualifying nostro
      adds its two banks to each other's lists; every two distinct banks native
      in `c` are added to each other's lists; then each list is sorted by bank
      name. */
  method BuildGraph(db: Store.Database, c: Currency) returns (g: Graph)
    requires db.Valid()
    ensures g.Keys == db.banks.Keys
    ensures forall a, b :: a in g ==> (b in g[a] <==> Adjacent(db.banks, db.nostros, c, a, b))
    ensures Undirected(g)
    ensures forall a :: a in g ==> SortedBy(g[a], ByName(db.banks))
  {
    var banks, nostros := db.banks, db.nostros;
    assert forall k :: k in nostros ==> nostros[k].ownerBankId in banks by {
      forall k | k in nostros ensures nostros[k].ownerBankId in banks {
        assert Store.NostroRowValid(banks, k, nostros[k]);
      }
    }
    var nb: Graph := map b | b in banks :: [];
    nb := AddNostroLinks(banks, nostros, c, nb);
    nb := AddNativeLinks(banks, nostros, c, nb);
    g := SortRows(nb, ByName(banks));
    AdjacencySymmetric(banks, nostros, c, g);
  }

  /** The sort pass: every list sorted by `key`, with the same members. */
  function SortRows(nb: Graph, key: BankId -> string): (g: Graph)
    ensures g.Keys == nb.Keys
    ensures forall a :: a in g ==> SortedBy(g[a], key)
    ensures forall a, b :: a in g ==> (b in g[a] <==> b in nb[a])
  {
    var g := map a | a in nb :: SortBy(nb[a], key);
    assert forall a, b :: a in g ==> (b in g[a] <==> b in nb[a]) by {
      forall a, b | a in g ensures b in g[a] <==> b in nb[a] {
        assert multiset(g[a]) == multiset(nb[a]);
        assert b in g[a] <==> b in multiset(g[a]);
      }
    }
    g
  }

  /** Every neighbour has a list, and it lists the bank back. */
  predicate Undirected(g: Graph)
  {
    forall a, b :: a in g && b in g[a] ==> b in g && a in g[b]
  }

  /** Lists that hold exactly the adjacent banks make an undirected graph. */
  lemma AdjacencySymmetric(banks: map<BankId, Bank>, nostros: map<(BankId, Currency), Nostro>, c: Currency, g: Graph)
    requires forall k :: k in nostros ==> nostros[k].ownerBankId in banks
    requires g.Keys == banks.Keys
    requires forall a, b :: a in g ==> (b in g[a] <==> Adjacent(banks, nostros, c, a, b))
    ensures Undirected(g)
  {
    forall a, b | a in g && b in g[a] ensures b in g && a in g[b] {
      AdjacentEnds(banks, nostros, c, a, b);
      AdjacentSymmetric(banks, nostros, c, a, b);
    }
  }

  lemma AdjacentSymmetric(banks: map<BankId, Bank>, nostros: map<(BankId, Currency), Nostro>, c: Currency, a: BankId, b: BankId)
    ensures Adjacent(banks, nostros, c, a, b) ==> Adjacent(banks, nostros, c, b, a)
  {
    if LinkAmong(banks, nostros, nostros.Keys, c, a, b) {
      var k :| k in nostros && CountsAsLink(banks, nostros[k], c) && Joins(nostros[k], a, b);
      assert Joins(nostros[k], b, a);
    }
  }

  /** The lists hold exactly the links made by the nostro rows keyed by `keys`. */
  ghost predicate LinksOf(banks: map<BankId, Bank>, nostros: map<(BankId, Currency), Nostro>,
                          keys: set<(BankId, Currency)>, c: Currency, nb: Graph)
  {
    forall a, b :: a in nb ==> (b in nb[a] <==> LinkAmong(banks, nostros, keys, c, a, b))
  }

  /** The loop over the nostro rows in `c`. */
  method AddNostroLinks(banks: map<BankId, Bank>, nostros: map<(BankId, Currency), Nostro>, c: Currency, nb0: Graph)
    returns (nb: Graph)
    requires forall k :: k in nostros ==> nostros[k].ownerBankId in banks
    requires nb0.Keys == banks.Keys && forall a :: a in nb0 ==> nb0[a] == []
    ensures nb.Keys == banks.Keys
    ensures LinksOf(banks, nostros, nostros.Keys, c, nb)
  {
    nb := nb0;
    var todo := nostros.Keys;
    while todo != {}
      invariant todo <= nostros.Keys
      invariant nb.Keys == banks.Keys
      invariant LinksOf(banks, nostros, nostros.Keys - todo, c, nb)
      decreases |todo|
    {
      var k :| k in todo;
      ghost var before := nb;
      nb := AddNostroLink(banks, nostros[k], c, nb);
      LinksGrow(banks, nostros, nostros.Keys - todo, k, c, before, nb);
      assert nostros.Keys - todo + {k} == nostros.Keys - (todo - {k});
      todo := todo - {k};
    }
  }

  lemma LinksGrow(banks: map<BankId, Bank>, nostros: map<(BankId, Currency), Nostro>,
                  done: set<(BankId, Currency)>, k: (BankId, Currency), c: Currency, before: Graph, nb: Graph)
    requires k in nostros && LinksOf(banks, nostros, done, c, before) && nb.Keys == before.Keys
    requires forall a, b :: a in nb ==> (b in nb[a] <==> b in before[a] || (CountsAsLink(banks, nostros[k], c) && Joins(nostros[k], a, b)))
    ensures LinksOf(banks, nostros, done + {k}, c, nb)
  {
    forall a, b | a in nb
      ensures b in nb[a] <==> LinkAmong(banks, nostros, done + {k}, c, a, b)
    {
      LinkAmongGrows(banks, nostros, done, k, c, a, b);
    }
  }

  /** The body of that loop for one nostro row `n`: when it qualifies, each
      of its two banks is appended to the other's list. */
  method AddNostroLink(banks: map<BankId, Bank>, n: Nostro, c: Currency, nb0: Graph) returns (nb: Graph)
    requires n.ownerBankId in nb0 && nb0.Keys == banks.Keys
    ensures nb.Keys == nb0.Keys
    ensures forall a, b :: a in nb ==> (b in nb[a] <==> b in nb0[a] || (CountsAsLink(banks, n, c) && Joins(n, a, b)))
  {
    nb := nb0;
    if n.currency == c && n.correspondentBankId in banks && banks[n.correspondentBankId].baseCurrency == c {
      nb := nb[n.ownerBankId := nb[n.ownerBankId] + [n.correspondentBankId]];
      nb := nb[n.correspondentBankId := nb[n.correspondentBankId] + [n.ownerBankId]];
    }
  }

  /** `y` is added to `x`'s list by the native pass once the rows of `rows`
      are done: both native, distinct, and `x` among `rows`. */
  predicate NativeLink(natives: set<BankId>, rows: set<BankId>, x: BankId, y: BankId)
  {
    x in rows && y in natives && x != y
  }

  /** The double loop over the banks native in `c`. */
  method AddNativeLinks(banks: map<BankId, Bank>, nostros: map<(BankId, Currency), Nostro>, c: Currency, nb0: Graph)
    returns (nb: Graph)
    requires nb0.Keys == banks.Keys
    requires LinksOf(banks, nostros, nostros.Keys, c, nb0)
    ensures nb.Keys == banks.Keys
    ensures forall a, b :: a in nb ==> (b in nb[a] <==> Adjacent(banks, nostros, c, a, b))
  {
    nb := nb0;
    var natives := set b | b in banks && banks[b].baseCurrency == c;
    var outer := natives;
    while outer != {}
      invariant outer <= natives
      invariant nb.Keys == banks.Keys
      invariant forall x, y :: x in nb ==> (y in nb[x] <==> y in nb0[x] || NativeLink(natives, natives - outer, x, y))
      decreases |outer|
    {
      var a :| a in outer;
      ghost var before := nb;
      nb := AddNativeRow(a, natives, nb);
      assert natives - outer + {a} == natives - (outer - {a});
      forall x, y | x in nb ensures y in nb[x] <==> y in nb0[x] || NativeLink(natives, natives - outer + {a}, x, y) {
        assert y in nb[x] <==> y in before[x] || NativeLink(natives, {a}, x, y);
      }
      outer := outer - {a};
    }
    forall x, y | x in nb ensures y in nb[x] <==> Adjacent(banks, nostros, c, x, y) {
      assert y in nb[x] <==> y in nb0[x] || NativeLink(natives, natives, x, y);
      assert x in natives <==> Native(banks, c, x);
      assert y in natives <==> Native(banks, c, y);
    }
  }

  /** The inner loop: `a` gets every other native bank. */
  method AddNativeRow(a: BankId, natives: set<BankId>, nb0: Graph) returns (nb: Graph)
    requires a in nb0
    ensures nb.Keys == nb0.Keys
    ensures forall x, y :: x in nb ==> (y in nb[x] <==> y in nb0[x] || NativeLink(natives, {a}, x, y))
  {
    nb := nb0;
    var inner := natives;
    while inner != {}
      invariant inner <= natives
      invariant nb.Keys == nb0.Keys
      invariant forall x, y :: x in nb ==> (y in nb[x] <==> y in nb0[x] || NativeLink(natives - inner, {a}, x, y))
      decreases |inner|
    {
      var b :| b in inner;
      ghost var before := nb;
      if a != b {
        nb := nb[a := nb[a] + [b]];
      }
      assert natives - inner + {b} == natives - (inner - {b});
      forall x, y | x in nb ensures y in nb[x] <==> y in nb0[x] || NativeLink(natives - inner + {b}, {a}, x, y) {
        if x == a && a != b {
          assert nb[x] == before[x] + [b];
        }
        assert y in before[x] <==> y in nb0[x] || NativeLink(natives - inner, {a}, x, y);
      }
      inner := inner - {b};
    }
  }

  // ---------------------------------------------------------------------
  // Breadth-first search

  /** The neighbour list of `v`, empty for an id with no list (`?? []`). */
  function Nbrs(g: Graph, v: BankId): seq<BankId>
  {
    if v in g then g[v] else []
  }

  /** `p` walks from `a` to `b` along neighbour lists. */
  predicate IsPath(g: Graph, p: seq<BankId>, a: BankId, b: BankId)
  {
    |p| >= 1 && p[0] == a && p[|p| - 1] == b &&
    forall i :: 0 < i < |p| ==> p[i] in Nbrs(g, p[i - 1])
  }

  /** The search tree: `prev` and the ghost levels `dist` cover the same
      banks, the start has no predecessor, and every other visited bank was
      reached from a visited neighbour one level closer. */
  ghost predicate BfsTree(g: Graph, from: BankId, prev: map<BankId, Option<BankId>>, dist: map<BankId, nat>)
  {
    && prev.Keys == dist.Keys
    && from in dist && dist[from] == 0 && prev[from] == None
    && forall v :: v in prev && v != from ==>
         prev[v].Some? && prev[v].value in dist && dist[v] == dist[prev[v].value] + 1
         && v in Nbrs(g, prev[v].value)
  }

  /** No walk to a visited bank is shorter than its level. */
  ghost predicate LowerBound(g: Graph, from: BankId, dist: map<BankId, nat>)
  {
    forall v, p :: v in dist && IsPath(g, p, from, v) ==> |p| >= dist[v] + 1
  }

  /** The queue holds visited banks at levels D and D + 1, in level order. */
  ghost predicate Levels(q: seq<BankId>, dist: map<BankId, nat>, D: int)
  {
    && (forall i :: 0 <= i < |q| ==> q[i] in dist && D <= dist[q[i]] <= D + 1)
    && (forall i, j :: 0 <= i < j < |q| ==> dist[q[i]] <= dist[q[j]])
  }

  /** Every bank some neighbour list mentions lies in `U`. */
  ghost predicate Covers(g: Graph, U: set<BankId>)
  {
    forall a, b :: a in g && b in g[a] ==> b in U
  }

  /** A finite set of banks that holds the start and every listed neighbour:
      the search can visit no bank outside it. */
  lemma UniverseOf(g: Graph, from: BankId) returns (U: set<BankId>)
    ensures from in U && Covers(g, U)
  {
    U := {from} + (set a, b | a in g && b in g[a] :: b);
  }

  lemma {:induction false} ShortWalksStayInside(g: Graph, from: BankId, dist: map<BankId, nat>, D: int, w: BankId, p: seq<BankId>)
    requires from in dist && LowerBound(g, from, dist)
    requires forall v :: v in dist && dist[v] < D ==> forall u :: u in Nbrs(g, v) ==> u in dist
    requires IsPath(g, p, from, w)
    ensures |p| <= D + 1 ==> w in dist
    decreases |p|
  {
    if |p| > 1 && |p| <= D + 1 {
      var v := p[|p| - 2];
      var p' := p[..|p| - 1];
      assert IsPath(g, p', from, v);
      ShortWalksStayInside(g, from, dist, D, v, p');
      assert p[|p| - 1] in Nbrs(g, v);
    }
  }

  lemma {:induction false} ClosedContainsReachable(g: Graph, S: set<BankId>, from: BankId, w: BankId, p: seq<BankId>)
    requires from in S
    requires forall v :: v in S ==> forall u :: u in Nbrs(g, v) ==> u in S
    requires IsPath(g, p, from, w)
    ensures w in S
    decreases |p|
  {
    if |p| > 1 {
      var p' := p[..|p| - 1];
      assert IsPath(g, p', from, p[|p| - 2]);
      ClosedContainsReachable(g, S, from, p[|p| - 2], p');
      assert p[|p| - 1] in Nbrs(g, p[|p| - 2]);
    }
  }

  lemma VisitedWithin(dist: map<BankId, nat>, U: set<BankId>)
    requires dist.Keys <= U
    ensures |dist| <= |U|
  {
    assert U == dist.Keys + (U - dist.Keys);
    assert |dist| == |dist.Keys|;
  }

  function Reversed<T>(s: seq<T>): (r: seq<T>)
    ensures |r| == |s| && forall i :: 0 <= i < |s| ==> r[i] == s[|s| - 1 - i]
  {
    if |s| == 0 then [] else Reversed(s[1..]) + [s[0]]
  }

  /** `back` lists a walk backwards from `to`, one level closer to the start
      at each step. */
  ghost predicate BackChain(g: Graph, dist: map<BankId, nat>, back: seq<BankId>, to: BankId)
  {
    && |back| > 0 && back[0] == to && to in dist
    && (forall i :: 0 <= i < |back| ==> back[i] in dist && dist[back[i]] + i == dist[to])
    && (forall i :: 0 < i < |back| ==> back[i - 1] in Nbrs(g, back[i]))
  }

  lemma ChainExtend(g: Graph, dist: map<BankId, nat>, back: seq<BankId>, to: BankId, v: BankId)
    requires v in dist && to in dist && dist[v] + |back| == dist[to]
    requires |back| == 0 ==> v == to
    requires |back| > 0 ==> BackChain(g, dist, back, to) && back[|back| - 1] in Nbrs(g, v)
    ensures BackChain(g, dist, back + [v], to)
  {
  }

  lemma ChainReversed(g: Graph, dist: map<BankId, nat>, back: seq<BankId>, from: BankId, to: BankId)
    requires BackChain(g, dist, back, to) && back[|back| - 1] == from
    ensures IsPath(g, Reversed(back), from, to) && Distinct(Reversed(back))
  {
    var path := Reversed(back);
    forall i | 0 < i < |path| ensures path[i] in Nbrs(g, path[i - 1]) {
      var k := |back| - i;
      assert path[i - 1] == back[k] && path[i] == back[k - 1];
    }
    forall i, j | 0 <= i < j < |path| ensures path[i] != path[j] {
      assert path[i] == back[|back| - 1 - i] && path[j] == back[|back| - 1 - j];
      assert dist[path[i]] != dist[path[j]];
    }
  }

  /** The path-building loop: follows `prev` back from `to` to the start (whose
      entry is null), then reverses. The source's loop would also stop at an
      empty id, but bank ids always carry the "B_" prefix, so none is empty. */
  method Backtrack(g: Graph, from: BankId, to: BankId, prev: map<BankId, Option<BankId>>, ghost dist: map<BankId, nat>)
    returns (path: seq<BankId>)
    requires BfsTree(g, from, prev, dist) && to in dist
    ensures IsPath(g, path, from, to) && Distinct(path)
    ensures |path| == dist[to] + 1
  {
    var back: seq<BankId> := [];
    var p: Option<BankId> := Some(to);
    while p.Some?
      invariant |back| == 0 ==> p == Some(to)
      invariant |back| > 0 ==> BackChain(g, dist, back, to)
      invariant p.Some? ==> p.value in dist && dist[p.value] + |back| == dist[to]
      invariant p.Some? && |back| > 0 ==> back[|back| - 1] in Nbrs(g, p.value)
      invariant p.None? ==> |back| > 0 && back[|back| - 1] == from
      decreases if p.Some? then dist[p.value] + 1 else 0
    {
      var v := p.value;
      ChainExtend(g, dist, back, to, v);
      back := back + [v];
      p := prev[v];
    }
    ChainReversed(g, dist, back, from, to);
    path := Reversed(back);
  }

  /** Every visited bank outside `open` has all its neighbours visited. */
  ghost predicate Closed(g: Graph, dist: map<BankId, nat>, open: seq<BankId>)
  {
    forall v :: v in dist && v !in open ==> forall u :: u in Nbrs(g, v) ==> u in dist
  }

  /** What the search keeps between steps: the tree, the lower bound, the
      target not yet found, and only banks of the graph visited. */
  ghost predicate Searching(g: Graph, from: BankId, to: BankId, prev: map<BankId, Option<BankId>>,
                            dist: map<BankId, nat>, U: set<BankId>)
  {
    BfsTree(g, from, prev, dist) && LowerBound(g, from, dist) && to !in dist && dist.Keys <= U
  }

  /** Visiting a new neighbour `nxt` of the bank `cur` at level `D` keeps the
      tree, the lower bound, the level order of the queue and closedness. */
  lemma Discover(g: Graph, from: BankId, prev: map<BankId, Option<BankId>>, dist: map<BankId, nat>,
                 q: seq<BankId>, cur: BankId, D: nat, nxt: BankId)
    requires BfsTree(g, from, prev, dist) && LowerBound(g, from, dist)
    requires cur in dist && dist[cur] == D && nxt in Nbrs(g, cur) && nxt !in dist
    requires Levels(q, dist, D) && Closed(g, dist, [cur] + q)
    ensures BfsTree(g, from, prev[nxt := Some(cur)], dist[nxt := D + 1])
    ensures LowerBound(g, from, dist[nxt := D + 1])
    ensures Levels(q + [nxt], dist[nxt := D + 1], D)
    ensures Closed(g, dist[nxt := D + 1], [cur] + q + [nxt])
  {
    var dist' := dist[nxt := D + 1];
    TreeGrows(g, from, prev, dist, cur, nxt);
    forall v | v in [cur] + q ensures v in dist && dist[v] >= D {
      var i :| 0 <= i < |[cur] + q| && ([cur] + q)[i] == v;
      if i > 0 {
        assert q[i - 1] == v;
      }
    }
    forall p | IsPath(g, p, from, nxt) ensures |p| >= D + 2 {
      ShortWalksStayInside(g, from, dist, D, nxt, p);
    }
    assert LowerBound(g, from, dist') by {
      forall v, p | v in dist' && IsPath(g, p, from, v) ensures |p| >= dist'[v] + 1 {
        if v != nxt {
          assert v in dist;
        }
      }
    }
    assert Levels(q + [nxt], dist', D) by {
      forall i | 0 <= i < |q| ensures (q + [nxt])[i] == q[i] && q[i] != nxt { }
    }
    forall v | v in dist' && v !in [cur] + q + [nxt] ensures forall u :: u in Nbrs(g, v) ==> u in dist' {
      assert v in dist && v !in [cur] + q;
    }
  }

  /** Hanging a new bank below a visited neighbour keeps the search tree. */
  lemma TreeGrows(g: Graph, from: BankId, prev: map<BankId, Option<BankId>>, dist: map<BankId, nat>,
                  cur: BankId, nxt: BankId)
    requires BfsTree(g, from, prev, dist)
    requires cur in dist && nxt in Nbrs(g, cur) && nxt !in dist
    ensures BfsTree(g, from, prev[nxt := Some(cur)], dist[nxt := dist[cur] + 1])
  {
    var prev', dist' := prev[nxt := Some(cur)], dist[nxt := dist[cur] + 1];
    forall v | v in prev' && v != from
      ensures prev'[v].Some? && prev'[v].value in dist' && dist'[v] == dist'[prev'[v].value] + 1
      ensures v in Nbrs(g, prev'[v].value)
    {
      if v != nxt {
        assert prev'[v] == prev[v] && prev[v].value in dist && prev[v].value != nxt;
      }
    }
  }

  /** `p` is a walk from `a` to `b` without repeated banks, and no walk
      between them is shorter. */
  ghost predicate ShortestWalk(g: Graph, p: seq<BankId>, a: BankId, b: BankId)
  {
    IsPath(g, p, a, b) && Distinct(p) && forall p' :: IsPath(g, p', a, b) ==> |p| <= |p'|
  }

  /** The loop invariant of the search: the search state, the queue in level
      order, every visited bank off the queue closed, and the visited banks
      bounded by `U`. */
  ghost predicate Frontier(g: Graph, from: BankId, to: BankId, U: set<BankId>, q: seq<BankId>,
                           prev: map<BankId, Option<BankId>>, dist: map<BankId, nat>)
  {
    && Searching(g, from, to, prev, dist, U)
    && (|q| > 0 ==> q[0] in dist && Levels(q, dist, dist[q[0]]))
    && Closed(g, dist, q)
    && |dist| <= |U|
  }

  /** The search loop of `findMinimumHopRoute` for distinct end points. */
  method ShortestPath(g: Graph, from: BankId, to: BankId) returns (r: Option<seq<BankId>>)
    requires from != to
    ensures r.Some? ==> ShortestWalk(g, r.value, from, to)
    ensures r.None? ==> forall p :: !IsPath(g, p, from, to)
  {
    var q := [from];
    var prev: map<BankId, Option<BankId>> := map[from := None];
    ghost var dist: map<BankId, nat> := map[from := 0];
    ghost var U := UniverseOf(g, from);
    SearchStart(g, from, to, U);
    while |q| > 0
      invariant Frontier(g, from, to, U, q, prev, dist)
      decreases |U| - |dist|, |q|
    {
      var found;
      q, prev, dist, found := SearchStep(g, from, to, q, prev, dist, U);
      if found.Some? {
        return found;
      }
    }
    NotFound(g, from, to, dist);
    return None;
  }

  /** The state before the first iteration: only the start visited and queued. */
  lemma SearchStart(g: Graph, from: BankId, to: BankId, U: set<BankId>)
    requires from != to && from in U
    ensures Frontier(g, from, to, U, [from], map[from := None], map[from := 0])
  {
    var dist: map<BankId, nat> := map[from := 0];
    assert LowerBound(g, from, dist) by {
      forall v, p | v in dist && IsPath(g, p, from, v) ensures |p| >= dist[v] + 1 { }
    }
    VisitedWithin(dist, U);
  }

  /** The queue ran dry without meeting `to`: the visited banks are closed
      under neighbours, so no walk reaches `to`. */
  lemma NotFound(g: Graph, from: BankId, to: BankId, dist: map<BankId, nat>)
    requires from in dist && to !in dist && Closed(g, dist, [])
    ensures forall p :: !IsPath(g, p, from, to)
  {
    forall p | IsPath(g, p, from, to) ensures false {
      ClosedContainsReachable(g, dist.Keys, from, to, p);
    }
  }

  /** One iteration of the search loop: the head of the queue is taken off
      and its neighbours visited. Either the path is found, or the invariant
      holds again with more banks visited or a shorter queue. */
  method SearchStep(g: Graph, from: BankId, to: BankId, q0: seq<BankId>,
                    prev0: map<BankId, Option<BankId>>, ghost dist0: map<BankId, nat>, ghost U: set<BankId>)
    returns (q: seq<BankId>, prev: map<BankId, Option<BankId>>, ghost dist: map<BankId, nat>, found: Option<seq<BankId>>)
    requires |q0| > 0 && Frontier(g, from, to, U, q0, prev0, dist0) && Covers(g, U)
    ensures found.Some? ==> ShortestWalk(g, found.value, from, to)
    ensures found.None? ==> Frontier(g, from, to, U, q, prev, dist)
    ensures found.None? ==> |dist| > |dist0| || (|dist| == |dist0| && |q| < |q0|)
  {
    var cur := q0[0];
    ghost var D := dist0[cur];
    assert [cur] + q0[1..] == q0;
    q, prev, dist, found := VisitNeighbours(g, from, to, cur, q0[1..], prev0, dist0, U);
    if found.None? {
      if |q| > 0 {
        LevelsFront(q, dist, D);
      }
      VisitedWithin(dist, U);
    }
  }

  /** A queue in level order spanning levels D and D + 1 spans its first
      element's level and the next. */
  lemma LevelsFront(q: seq<BankId>, dist: map<BankId, nat>, D: int)
    requires |q| > 0 && Levels(q, dist, D)
    ensures q[0] in dist && Levels(q, dist, dist[q[0]])
  {
  }

  /** The loop over the neighbours of `cur`, taken off the queue: each one
      not yet visited is recorded with `cur` as predecessor, and either is the
      target, which ends the search with the path back, or joins the queue. */
  method VisitNeighbours(g: Graph, from: BankId, to: BankId, cur: BankId, q0: seq<BankId>,
                         prev0: map<BankId, Option<BankId>>, ghost dist0: map<BankId, nat>, ghost U: set<BankId>)
    returns (q: seq<BankId>, prev: map<BankId, Option<BankId>>, ghost dist: map<BankId, nat>, found: Option<seq<BankId>>)
    requires Searching(g, from, to, prev0, dist0, U) && Covers(g, U)
    requires cur in dist0 && Levels(q0, dist0, dist0[cur]) && Closed(g, dist0, [cur] + q0)
    ensures found.Some? ==> ShortestWalk(g, found.value, from, to)
    ensures found.None? ==> Searching(g, from, to, prev, dist, U)
    ensures found.None? ==> Levels(q, dist, dist0[cur]) && Closed(g, dist, q)
    ensures found.None? ==> (q == q0 && |dist| == |dist0|) || |dist| > |dist0|
  {
    q, prev, dist := q0, prev0, dist0;
    ghost var D := dist0[cur];
    var ns := Nbrs(g, cur);
    for j := 0 to |ns|
      invariant Searching(g, from, to, prev, dist, U)
      invariant cur in dist && dist[cur] == D
      invariant Levels(q, dist, D) && Closed(g, dist, [cur] + q)
      invariant forall i :: 0 <= i < j ==> ns[i] in dist
      invariant (q == q0 && |dist| == |dist0|) || |dist| > |dist0|
    {
      var found';
      q, prev, dist, found' := VisitOne(g, from, to, cur, D, ns, j, q, prev, dist, U);
      if found'.Some? {
        return q, prev, dist, found';
      }
    }
    CloseCurrent(g, dist, q, cur, ns);
    found := None;
  }

  /** One neighbour `nxt` of `cur`: skipped when already visited, otherwise
      recorded and either returned as the end of the path or queued. */
  method VisitOne(g: Graph, from: BankId, to: BankId, cur: BankId, ghost D: nat, ns: seq<BankId>, j: nat, q0: seq<BankId>,
                  prev0: map<BankId, Option<BankId>>, ghost dist0: map<BankId, nat>, ghost U: set<BankId>)
    returns (q: seq<BankId>, prev: map<BankId, Option<BankId>>, ghost dist: map<BankId, nat>, found: Option<seq<BankId>>)
    requires Searching(g, from, to, prev0, dist0, U) && Covers(g, U)
    requires cur in dist0 && dist0[cur] == D && ns == Nbrs(g, cur) && j < |ns|
    requires Levels(q0, dist0, D) && Closed(g, dist0, [cur] + q0)
    requires forall i :: 0 <= i < j ==> ns[i] in dist0
    ensures found.Some? ==> ShortestWalk(g, found.value, from, to)
    ensures found.None? ==> Searching(g, from, to, prev, dist, U)
    ensures found.None? ==> Levels(q, dist, D) && Closed(g, dist, [cur] + q)
    ensures found.None? ==> (forall i :: 0 <= i <= j ==> ns[i] in dist) && cur in dist && dist[cur] == D
    ensures found.None? ==> (q == q0 && |dist| == |dist0|) || |dist| == |dist0| + 1
  {
    q, prev, dist, found := q0, prev0, dist0, None;
    var nxt := ns[j];
    if nxt !in prev {
      assert nxt in U by {
        assert cur in g && nxt in g[cur];
      }
      Discover(g, from, prev, dist, q, cur, D, nxt);
      prev := prev[nxt := Some(cur)];
      dist := dist[nxt := D + 1];
      if nxt == to {
        var path := Backtrack(g, from, to, prev, dist);
        found := Some(path);
        return;
      }
      q := q + [nxt];
    }
  }

  /** Once all of `cur`'s neighbours are visited, `cur` leaves the open set. */
  lemma CloseCurrent(g: Graph, dist: map<BankId, nat>, q: seq<BankId>, cur: BankId, ns: seq<BankId>)
    requires Closed(g, dist, [cur] + q)
    requires ns == Nbrs(g, cur) && forall i :: 0 <= i < |ns| ==> ns[i] in dist
    ensures Closed(g, dist, q)
  {
    forall v | v in dist && v !in q ensures forall u :: u in Nbrs(g, v) ==> u in dist {
      if v != cur {
        assert v !in [cur] + q;
      }
    }
  }

  /** Both ends of an edge are banks. */
  lemma AdjacentEnds(banks: map<BankId, Bank>, nostros: map<(BankId, Currency), Nostro>, c: Currency, x: BankId, y: BankId)
    requires forall k :: k in nostros ==> nostros[k].ownerBankId in banks
    ensures Adjacent(banks, nostros, c, x, y) ==> x in banks && y in banks
  {
    if LinkAmong(banks, nostros, nostros.Keys, c, x, y) {
      var k :| k in nostros && CountsAsLink(banks, nostros[k], c) && Joins(nostros[k], x, y);
    }
  }

  /** The graph's walks are exactly the routes of the settlement graph. */
  lemma WalksAreRoutes(banks: map<BankId, Bank>, nostros: map<(BankId, Currency), Nostro>, c: Currency,
                       g: Graph, p: seq<BankId>, a: BankId, b: BankId)
    requires forall k :: k in nostros ==> nostros[k].ownerBankId in banks
    requires g.Keys == banks.Keys
    requires forall x, y :: x in g ==> (y in g[x] <==> Adjacent(banks, nostros, c, x, y))
    ensures IsPath(g, p, a, b) <==> Route(banks, nostros, c, p, a, b)
  {
    forall x, y ensures y in Nbrs(g, x) <==> Adjacent(banks, nostros, c, x, y) {
      AdjacentEnds(banks, nostros, c, x, y);
    }
  }

  /** `findMinimumHopRoute`: `[from]` when the two banks are the same,
      otherwise a shortest route in the settlement graph, or none when `to`
      cannot be reached. */
  method FindMinimumHopRoute(db: Store.Database, from: BankId, to: BankId, c: Currency) returns (r: Option<seq<BankId>>)
    requires db.Valid()
    ensures from == to ==> r == Some([from])
    ensures r.Some? ==> Route(db.banks, db.nostros, c, r.value, from, to) && Distinct(r.value)
    ensures r.Some? ==> forall p :: Route(db.banks, db.nostros, c, p, from, to) ==> |r.value| <= |p|
    ensures r.None? <==> !Reachable(db.banks, db.nostros, c, from, to)
  {
    if from == to {
      assert Route(db.banks, db.nostros, c, [from], from, to);
      return Some([from]);
    }
    var g := BuildGraph(db, c);
    assert forall k :: k in db.nostros ==> db.nostros[k].ownerBankId in db.banks by {
      forall k | k in db.nostros ensures db.nostros[k].ownerBankId in db.banks {
        assert Store.NostroRowValid(db.banks, k, db.nostros[k]);
      }
    }
    r := ShortestPath(g, from, to);
    forall p ensures IsPath(g, p, from, to) <==> Route(db.banks, db.nostros, c, p, from, to) {
      WalksAreRoutes(db.banks, db.nostros, c, g, p, from, to);
    }
    if r.Some? {
      assert Route(db.banks, db.nostros, c, r.value, from, to);
    }
  }

  // ---------------------------------------------------------------------
  // What a route says about the banks at its ends

  /** Two nostro tables with the same rows up to their balances. Links do not
      look at balances, so both give the same graph. */
  predicate SameLinks(n1: map<(BankId, Currency), Nostro>, n2: map<(BankId, Currency), Nostro>)
  {
    && n1.Keys == n2.Keys
    && forall k :: k in n1 ==> n2[k] == n1[k].(balance := n2[k].balance)
  }

  /** In a currency that is not its base currency a bank's only neighbour is
      the correspondent of the nostro it holds in that currency. */
  lemma OnlyNeighbour(banks: map<BankId, Bank>, nostros: map<(BankId, Currency), Nostro>, c: Currency, a: BankId, x: BankId)
    requires forall k :: k in nostros ==> Store.NostroRowValid(banks, k, nostros[k])
    requires a in banks && banks[a].baseCurrency != c
    requires Adjacent(banks, nostros, c, a, x)
    ensures (a, c) in nostros && nostros[(a, c)].correspondentBankId == x
  {
    var k :| k in nostros && CountsAsLink(banks, nostros[k], c) && Joins(nostros[k], a, x);
    assert Store.NostroRowValid(banks, k, nostros[k]);
    assert k == (a, c);
  }

  /** The first hop of any route out of a bank that is not native in the
      currency is the correspondent of its nostro, and so is the last hop
      into such a bank: the route-mismatch checks of `settleInterbank` are
      met by every route. */
  lemma RouteEnds(banks: map<BankId, Bank>, nostros: map<(BankId, Currency), Nostro>, c: Currency,
                  from: BankId, to: BankId, p: seq<BankId>)
    requires forall k :: k in nostros ==> Store.NostroRowValid(banks, k, nostros[k])
    requires from in banks && to in banks && from != to
    requires Route(banks, nostros, c, p, from, to)
    ensures |p| >= 2
    ensures banks[from].baseCurrency != c ==> (from, c) in nostros && nostros[(from, c)].correspondentBankId == p[1]
    ensures banks[to].baseCurrency != c ==> (to, c) in nostros && nostros[(to, c)].correspondentBankId == p[|p| - 2]
  {
    assert Adjacent(banks, nostros, c, p[0], p[1]);
    if banks[from].baseCurrency != c {
      OnlyNeighbour(banks, nostros, c, from, p[1]);
    }
    assert Adjacent(banks, nostros, c, p[|p| - 2], p[|p| - 1]);
    if banks[to].baseCurrency != c {
      AdjacentSymmetric(banks, nostros, c, p[|p| - 2], to);
      OnlyNeighbour(banks, nostros, c, to, p[|p| - 2]);
    }
  }
}
