/**
The cycle check of the product catalog: a depth-first visit with the sets
`visiting` and `visited`, over dependencies already known to resolve.
*/
module ProductCycles {
  type Products = map<string, seq<string>>

  predicate Resolved(products: Products) {
    forall k, i :: k in products && 0 <= i < |products[k]| ==> products[k][i] in products
  }

  /** A dependency path, from each product to one of its dependencies. */
  predicate IsPath(products: Products, path: seq<string>) {
    forall i :: 0 <= i < |path| - 1 ==> path[i] in products && path[i + 1] in products[path[i]]
  }

  predicate IsCycle(products: Products, path: seq<string>) {
    |path| > 1 && IsPath(products, path) && path[0] == path[|path| - 1]
  }

  ghost predicate Cyclic(products: Products) {
    exists path :: IsCycle(products, path)
  }

  /** Every product comes after all its dependencies. */
  predicate Topological(products: Products, order: seq<string>) {
    && (forall i, j :: 0 <= i < j < |order| ==> order[i] != order[j])
    && (forall i :: 0 <= i < |order| ==>
          order[i] in products && forall d :: d in products[order[i]] ==> d in order[..i])
  }

  class CycleChecker {
    const products: Products
    var visiting: set<string>
    var visited: set<string>
    ghost var order: seq<string>   // the order in which keys enter `visited`

    constructor (products: Products)
      ensures this.products == products && visiting == {} && visited == {} && order == []
    {
      this.products := products;
      visiting, visited, order := {}, {}, [];
    }

    ghost predicate Valid()
      reads this
    {
      && Resolved(products)
      && visiting <= products.Keys
      && visiting !! visited
      && (forall k :: k in visited <==> k in order)
      && Topological(products, order)
    }

    /** `visit(key)`, called for the last product of the path `stack` of products being visited. */
    method Visit(key: string, ghost stack: seq<string>) returns (ok: bool)
      requires Valid() && key in products
      requires IsPath(products, stack + [key]) && forall k :: k in visiting <==> k in stack
      modifies this
      decreases products.Keys - visiting
      ensures !ok ==> Cyclic(products)
      ensures ok ==> Valid() && visiting == old(visiting) && key in visited && old(order) <= order
    {
      if key in visiting {
        ghost var i :| 0 <= i < |stack| && stack[i] == key;
        ghost var cycle := (stack + [key])[i..];
        assert IsCycle(products, cycle);
        return false;
      }
      if key in visited { return true; }
      visiting := visiting + {key};
      ghost var path := stack + [key];
      for n := 0 to |products[key]|
        invariant Valid() && visiting == old(visiting) + {key} && old(order) <= order
        invariant forall i :: 0 <= i < n ==> products[key][i] in visited
      {
        var dependency := products[key][n];
        assert IsPath(products, path + [dependency]);
        ok := Visit(dependency, path);
        if !ok { return; }
      }
      visiting := visiting - {key};
      Appended(products, order, key);
      visited := visited + {key};
      order := order + [key];
      return true;
    }

    /** `_validate_product_cycles`: accepts exactly the acyclic catalogs, and has then visited every product
        after its dependencies. */
    method Validate() returns (ok: bool)
      requires Valid() && visiting == {} && visited == {}
      modifies this
      ensures ok <==> !Cyclic(products)
      ensures ok ==> Topological(products, order) && forall k :: k in products <==> k in order
    {
      var pending := products.Keys;
      while pending != {}
        invariant Valid() && visiting == {}
        invariant pending <= products.Keys && forall k :: k in products && k !in pending ==> k in visited
        decreases pending
      {
        var key :| key in pending;
        ok := Visit(key, []);
        if !ok { return; }
        pending := pending - {key};
      }
      OrderedIsAcyclic(products, order);
      return true;
    }
  }

  lemma Appended(products: Products, order: seq<string>, key: string)
    requires Topological(products, order) && key in products && key !in order
    requires forall d :: d in products[key] ==> d in order
    ensures Topological(products, order + [key])
  {
    var more := order + [key];
    forall i | 0 <= i < |more| ensures more[i] in products && forall d :: d in products[more[i]] ==> d in more[..i] {
      if i < |order| { assert more[..i] == order[..i]; } else { assert more[..i] == order; }
    }
  }

  /** Along a path the positions in a topological order go down. */
  lemma {:induction false} PathDescends(products: Products, order: seq<string>, path: seq<string>, i: nat, j: nat)
      returns (a: nat, b: nat)
    requires Topological(products, order) && IsPath(products, path) && i < j < |path|
    requires forall k :: k in products ==> k in order
    ensures a < |order| && b < |order| && order[a] == path[i] && order[b] == path[j] && b < a
    decreases j - i
  {
    assert path[i] in products && path[i + 1] in products[path[i]];
    assert path[i] in order;
    a :| 0 <= a < |order| && order[a] == path[i];
    assert path[i + 1] in order[..a];
    if j == i + 1 {
      b :| 0 <= b < a && order[b] == path[j];
    } else {
      var m;
      m, b := PathDescends(products, order, path, i + 1, j);
    }
  }

  /** A catalog with a topological order of all products has no cycle. */
  lemma OrderedIsAcyclic(products: Products, order: seq<string>)
    requires Topological(products, order) && forall k :: k in products ==> k in order
    ensures !Cyclic(products)
  {
    forall path | IsCycle(products, path) ensures false {
      var a, b := PathDescends(products, order, path, 0, |path| - 1);
    }
  }
}
