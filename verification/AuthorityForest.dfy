/**
 The delegation forest as an abstract structure: climbing it, the set below a receipt, and
 sums over sets of receipts.
 */
module AuthorityForest {
  import opened Wrappers
  import opened Text

  type Parents = map<Text, Text>

  /** The k-th ancestor, if the chain is that long. */
  function Climb(parent: Parents, id: Text, k: nat): Option<Text>
    decreases k
  {
    if k == 0 then Some(id)
    else if id !in parent then None
    else Climb(parent, parent[id], k - 1)
  }

  /** A proper ancestor. */
  ghost predicate Ancestor(parent: Parents, a: Text, id: Text) {
    exists k: nat :: k > 0 && Climb(parent, id, k) == Some(a)
  }

  ghost function Below(parent: Parents, root: Text): set<Text> {
    {root} + set id | id in parent && Ancestor(parent, root, id)
  }

  ghost function Children(parent: Parents, id: Text): set<Text> {
    set c | c in parent && parent[c] == id
  }

  lemma {:induction false} ClimbSplit(parent: Parents, id: Text, j: nat, k: nat)
    ensures Climb(parent, id, j).None? ==> Climb(parent, id, j + k).None?
    ensures Climb(parent, id, j).Some? ==> Climb(parent, id, j + k) == Climb(parent, Climb(parent, id, j).value, k)
    decreases j
  {
    if j > 0 && id in parent {
      ClimbSplit(parent, parent[id], j - 1, k);
    }
  }

  /** Every receipt strictly below a root is below one of the root's children. */
  lemma BelowSomeChild(parent: Parents, root: Text, id: Text)
    requires Ancestor(parent, root, id)
    ensures exists c | c in Children(parent, root) :: id in Below(parent, c)
  {
    var k: nat :| k > 0 && Climb(parent, id, k) == Some(root);
    ClimbSplit(parent, id, k - 1, 1);
    var c := Climb(parent, id, k - 1).value;
    assert c in Children(parent, root);
    if k > 1 {
      assert Ancestor(parent, c, id);
    }
    assert id in Below(parent, c);
  }

  // ----- sums over finite sets -----

  ghost function Sum(f: map<Text, nat>, s: set<Text>): nat {
    if s == {} then 0
    else
      var x :| x in s;
      (if x in f then f[x] else 0) + Sum(f, s - {x})
  }

  function At(f: map<Text, nat>, x: Text): nat {
    if x in f then f[x] else 0
  }

  lemma {:induction false} SumRemove(f: map<Text, nat>, s: set<Text>, x: Text)
    requires x in s
    ensures Sum(f, s) == At(f, x) + Sum(f, s - {x})
    decreases |s|
  {
    var y :| y in s && Sum(f, s) == At(f, y) + Sum(f, s - {y});
    if y != x {
      SumRemove(f, s - {y}, x);
      SumRemove(f, s - {x}, y);
      assert s - {y} - {x} == s - {x} - {y};
    }
  }

  lemma {:induction false} SumSplit(f: map<Text, nat>, s: set<Text>, t: set<Text>)
    requires s !! t
    ensures Sum(f, s + t) == Sum(f, s) + Sum(f, t)
    decreases |s|
  {
    if s == {} {
      assert s + t == t;
    } else {
      var x :| x in s;
      SumSplit(f, s - {x}, t);
      SumRemove(f, s, x);
      SumRemove(f, s + t, x);
      assert s + t - {x} == (s - {x}) + t;
    }
  }

  /** Sums agree when the summed functions agree on the set. */
  lemma {:induction false} SumSame(f: map<Text, nat>, g: map<Text, nat>, s: set<Text>)
    requires forall x | x in s :: At(f, x) == At(g, x)
    ensures Sum(f, s) == Sum(g, s)
    decreases |s|
  {
    if s != {} {
      var x :| x in s;
      SumRemove(f, s, x);
      SumRemove(g, s, x);
      SumSame(f, g, s - {x});
    }
  }

  lemma AncestorOfParent(parent: Parents, a: Text, id: Text)
    requires id in parent
    ensures Ancestor(parent, a, id) <==> a == parent[id] || Ancestor(parent, a, parent[id])
  {
    if Ancestor(parent, a, id) {
      var k: nat :| k > 0 && Climb(parent, id, k) == Some(a);
      assert Climb(parent, parent[id], k - 1) == Some(a);
      if k > 1 {
        assert Ancestor(parent, a, parent[id]);
      }
    }
    if a == parent[id] {
      assert Climb(parent, parent[id], 0) == Some(a);
      assert Climb(parent, id, 1) == Some(a);
    }
    if Ancestor(parent, a, parent[id]) {
      var k: nat :| k > 0 && Climb(parent, parent[id], k) == Some(a);
      assert Climb(parent, id, k + 1) == Some(a);
    }
  }

  lemma RootHasNoAncestor(parent: Parents, id: Text)
    requires id !in parent
    ensures forall a :: !Ancestor(parent, a, id)
  {
  }

  // ----- layered forests and solvent budgets -----

  const MAX_DEPTH := 8

  /** Every hop goes one layer deeper, never past the deepest layer. */
  ghost predicate Layered(parent: Parents, depth: map<Text, nat>) {
    forall c | c in parent ::
      c in depth && parent[c] in depth && depth[c] == depth[parent[c]] + 1 && depth[c] <= MAX_DEPTH
  }

  /** Own uses plus the budgets handed to children fit the budget. */
  ghost predicate Solvent(parent: Parents, uses: map<Text, nat>, budgets: map<Text, nat>) {
    && parent.Keys <= budgets.Keys
    && forall id | id in budgets :: At(uses, id) + Sum(budgets, Children(parent, id)) <= budgets[id]
  }

  function Height(depth: map<Text, nat>, id: Text): nat {
    if id in depth && depth[id] <= MAX_DEPTH then 1 + MAX_DEPTH - depth[id] else 0
  }

  ghost predicate Covered(parent: Parents, children: set<Text>, ids: set<Text>) {
    forall id | id in ids :: exists c | c in children :: id in Below(parent, c)
  }

  lemma CoveredByRest(parent: Parents, children: set<Text>, ids: set<Text>, c: Text)
    requires Covered(parent, children, ids)
    ensures Covered(parent, children - {c}, ids - Below(parent, c))
  {
    forall id | id in ids - Below(parent, c) ensures exists d | d in children - {c} :: id in Below(parent, d) {
      var d :| d in children && id in Below(parent, d);
      assert d in children - {c};
    }
  }

  /** Uses inside a set that lies below the given children never exceed the budgets of those children. */
  lemma {:induction false} UsesBelowChildren(parent: Parents, depth: map<Text, nat>, uses: map<Text, nat>,
                                             budgets: map<Text, nat>, root: Text, children: set<Text>, ids: set<Text>)
    requires Layered(parent, depth) && Solvent(parent, uses, budgets)
    requires children <= Children(parent, root) && Covered(parent, children, ids)
    ensures Sum(uses, ids) <= Sum(budgets, children)
    decreases Height(depth, root), 0, |children|
  {
    if children == {} {
      assert ids == {};
    } else {
      var c :| c in children;
      var mine := ids * Below(parent, c);
      UsesBelow(parent, depth, uses, budgets, c, mine);
      CoveredByRest(parent, children, ids, c);
      UsesBelowChildren(parent, depth, uses, budgets, root, children - {c}, ids - Below(parent, c));
      SumSplit(uses, mine, ids - Below(parent, c));
      assert mine + (ids - Below(parent, c)) == ids;
      SumRemove(budgets, children, c);
    }
  }

  /** Uses inside any set of nodes at or below a root fit the root's budget. */
  lemma {:induction false} UsesBelow(parent: Parents, depth: map<Text, nat>, uses: map<Text, nat>,
                                     budgets: map<Text, nat>, root: Text, ids: set<Text>)
    requires Layered(parent, depth) && Solvent(parent, uses, budgets)
    requires root in budgets && ids <= Below(parent, root)
    ensures Sum(uses, ids) <= budgets[root]
    decreases Height(depth, root), 1
  {
    var rest := ids - {root};
    forall id | id in rest ensures exists c | c in Children(parent, root) :: id in Below(parent, c) {
      BelowSomeChild(parent, root, id);
    }
    UsesBelowChildren(parent, depth, uses, budgets, root, Children(parent, root), rest);
    if root in ids {
      SumRemove(uses, ids, root);
    } else {
      assert rest == ids;
    }
  }
}
