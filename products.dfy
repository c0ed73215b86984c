/** The product repository (ProductModel): the `products` array of the company
    document. */
module Products {
  import opened Wrappers
  import opened EmbeddedArray
  import opened Entities
  import opened Store

  function ProductsOf(c: Company): Field<Product> { c.products }

  /** `ProductModel.GetAll`. */
  function GetAll(docs: seq<Company>, company: string): Result<seq<Product>, Error>
  {
    Store.GetAll(docs, company, ProductsOf)
  }

  /** `ProductModel.GetOne`. */
  function GetOne(docs: seq<Company>, company: string, id: string): Result<Product, Error>
  {
    Store.GetOne(docs, company, ProductsOf, ProductId, id)
  }

  /** True when one of the product's embedded materials has the id (the query
      `products.materials.id`). */
  predicate UsesMaterial(p: Product, materialId: string)
  {
    exists k :: 0 <= k < |p.materials| && p.materials[k].id == materialId
  }

  /** The products of `s` that use the material, in their order in `s`. */
  function WithMaterial(s: seq<Product>, materialId: string): (r: seq<Product>)
    ensures |r| <= |s|
    ensures forall k :: 0 <= k < |r| ==> r[k] in s && UsesMaterial(r[k], materialId)
    ensures forall k :: 0 <= k < |s| && UsesMaterial(s[k], materialId) ==> s[k] in r
  {
    if s == [] then []
    else
      var init := s[..|s| - 1];
      assert forall k :: 0 <= k < |s| - 1 ==> init[k] == s[k];
      WithMaterial(init, materialId) + if UsesMaterial(s[|s| - 1], materialId) then [s[|s| - 1]] else []
  }

  /** Filtering works element by element, so it keeps the stored order. */
  lemma {:induction false} WithMaterialConcat(s: seq<Product>, t: seq<Product>, materialId: string)
    ensures WithMaterial(s + t, materialId) == WithMaterial(s, materialId) + WithMaterial(t, materialId)
  {
    if t == [] {
      assert s + t == s;
    } else {
      var t' := t[..|t| - 1];
      WithMaterialConcat(s, t', materialId);
      assert (s + t)[..|s + t| - 1] == s + t';
      assert (s + t)[|s + t| - 1] == t[|t| - 1];
    }
  }
  /** Extending the prefix by one element extends the filtered prefix by that
      element when it passes, and by nothing otherwise. */
  lemma WithMaterialStep(s: seq<Product>, n: nat, materialId: string)
    requires n < |s|
    ensures WithMaterial(s[..n + 1], materialId) == WithMaterial(s[..n], materialId) + if UsesMaterial(s[n], materialId) then [s[n]] else []
  {
    assert s[..n + 1][..n] == s[..n];
  }

  /** The filter keeps something exactly when some element passes it. */
  lemma WithMaterialNonEmpty(s: seq<Product>, materialId: string)
    ensures WithMaterial(s, materialId) != [] <==> exists k :: 0 <= k < |s| && UsesMaterial(s[k], materialId)
  {
    var r := WithMaterial(s, materialId);
    if r != [] {
      assert r[0] in s;
    }
  }


  /** `ProductModel.Add`: with the lookup failing for a reason other than "no
      documents" the error is returned; with no company document nothing is
      written and success is reported; otherwise the product is appended to the
      first company document's `products`. */
  function Added(docs: seq<Company>, company: string, product: Product, lookupFault: bool): (r: Step)
    ensures lookupFault ==> r == Step(Fail(StoreFault), docs)
    ensures !lookupFault && FirstNamed(docs, company).None? ==> r == Step(Pass, docs)
    ensures !lookupFault && FirstNamed(docs, company).Some? ==>
              var i := FirstNamed(docs, company).value;
              if docs[i].products.Null? then r == Step(Fail(NotAnArray), docs)
              else && r.outcome == Pass
                   && ChangedOnlyAt(docs, r.docs, i)
                   && r.docs[i] == docs[i].(products := Array(Items(docs[i].products) + [product]))
  {
    if lookupFault then Step(Fail(StoreFault), docs)
    else
      match FirstNamed(docs, company)
      case None => Step(Pass, docs)
      case Some(i) =>
        match PushField(docs[i].products, product)
        case None => Step(Fail(NotAnArray), docs)
        case Some(f) => Step(Pass, docs[i := docs[i].(products := f)])
  }

  /** `ProductModel.Update`: succeeds exactly when some document with the name
      holds a product with that id (whether or not the stored value changes), and
      then replaces the first such product of the first such document in place. */
  function Updated(docs: seq<Company>, company: string, product: Product): (r: Step)
    ensures r.outcome.Pass? <==> HasId(Unwind(docs, company, ProductsOf), ProductId, product.id)
    ensures r.outcome.Fail? ==> r == Step(Fail(NotFound), docs)
    ensures r.outcome.Pass? ==>
              FirstHolding(docs, company, ProductsOf, ProductId, product.id).Some? &&
              var k := FirstHolding(docs, company, ProductsOf, ProductId, product.id).value;
              && ChangedOnlyAt(docs, r.docs, k)
              && r.docs[k] == docs[k].(products := Array(ReplaceFirst(Items(docs[k].products), ProductId, product)))
  {
    FirstHoldingMatchesGetOne(docs, company, ProductsOf, ProductId, product.id);
    match FirstHolding(docs, company, ProductsOf, ProductId, product.id)
    case None => Step(Fail(NotFound), docs)
    case Some(k) =>
      Step(Pass, docs[k := docs[k].(products := Array(ReplaceFirst(Items(docs[k].products), ProductId, product)))])
  }

  /** `ProductModel.DeleteOne`: fails as `GetOne(id)` does; otherwise pulls every
      product with the id out of the first company document, whose other
      products keep their order. The "something went wrong" outcome cannot occur
      when calls run one at a time. */
  function Deleted(docs: seq<Company>, company: string, id: string): (r: Step)
    ensures GetOne(docs, company, id).Err? ==> r == Step(Fail(NotFound), docs)
    ensures r.outcome != Fail(NothingDeleted)
    ensures GetOne(docs, company, id).Ok? ==>
              FirstNamed(docs, company).Some? &&
              var i := FirstNamed(docs, company).value;
              if docs[i].products.Null? then r == Step(Fail(NotAnArray), docs)
              else && r.outcome == Pass
                   && ChangedOnlyAt(docs, r.docs, i)
                   && r.docs[i] == docs[i].(products := r.docs[i].products)
                   && r.docs[i].products.Missing? == docs[i].products.Missing?
                   && r.docs[i].products.Array? == docs[i].products.Array?
                   && Items(r.docs[i].products) == Pull(Items(docs[i].products), ProductId, id)
  {
    UnwindUnnamed(docs, company, ProductsOf);
    match GetOne(docs, company, id)
    case Err(e) => Step(Fail(e), docs)
    case Ok(_) =>
      match FirstNamed(docs, company)
      case None => Step(Fail(NothingDeleted), docs)
      case Some(i) =>
        match PullField(docs[i].products, ProductId, id)
        case None => Step(Fail(NotAnArray), docs)
        case Some(f) => Step(Pass, docs[i := docs[i].(products := f)])
  }

  class ProductModel {
    const collection: Collection

    constructor(collection: Collection)
      ensures this.collection == collection
    {
      this.collection := collection;
    }

    method Add(company: string, product: Product, lookupFault: bool) returns (r: Outcome<Error>)
      modifies collection
      ensures Step(r, collection.docs) == Added(old(collection.docs), company, product, lookupFault)
    {
      if lookupFault {
        return Fail(StoreFault);
      }
      var found := FirstNamed(collection.docs, company);
      if found.None? {
        return Pass;
      }
      var i := found.value;
      var pushed := PushField(collection.docs[i].products, product);
      if pushed.None? {
        return Fail(NotAnArray);
      }
      collection.docs := collection.docs[i := collection.docs[i].(products := pushed.value)];
      r := Pass;
    }

    method Update(company: string, product: Product) returns (r: Outcome<Error>)
      modifies collection
      ensures Step(r, collection.docs) == Updated(old(collection.docs), company, product)
    {
      var matched := FirstHolding(collection.docs, company, ProductsOf, ProductId, product.id);
      if matched.None? {
        return Fail(NotFound);
      }
      var k := matched.value;
      var replaced := ReplaceFirst(Items(collection.docs[k].products), ProductId, product);
      collection.docs := collection.docs[k := collection.docs[k].(products := Array(replaced))];
      r := Pass;
    }

    /** `ProductModel.GetByMaterial`: the products, over every company document
        with the name and in stored order, that use the material; `NotFound`
        when there are none. */
    method GetByMaterial(company: string, materialId: string) returns (r: Result<seq<Product>, Error>)
      ensures r.Ok? <==> exists k :: 0 <= k < |Unwind(collection.docs, company, ProductsOf)|
                                     && UsesMaterial(Unwind(collection.docs, company, ProductsOf)[k], materialId)
      ensures r.Ok? ==> r.value == WithMaterial(Unwind(collection.docs, company, ProductsOf), materialId)
      ensures r.Err? ==> r.error == NotFound
    {
      var results := Unwind(collection.docs, company, ProductsOf);
      var found: seq<Product> := [];
      var n := 0;
      while n < |results|
        invariant n <= |results|
        invariant found == WithMaterial(results[..n], materialId)
      {
        WithMaterialStep(results, n, materialId);
        if UsesMaterial(results[n], materialId) {
          found := found + [results[n]];
        }
        n := n + 1;
      }
      assert results[..n] == results;
      WithMaterialNonEmpty(results, materialId);
      if found == [] {
        return Err(NotFound);
      }
      assert results == Unwind(collection.docs, company, ProductsOf);
      return Ok(found);
    }

    method DeleteOne(company: string, id: string) returns (r: Outcome<Error>)
      modifies collection
      ensures Step(r, collection.docs) == Deleted(old(collection.docs), company, id)
    {
      var confirmed := Store.GetOne(collection.docs, company, ProductsOf, ProductId, id);
      if confirmed.Err? {
        return Fail(confirmed.error);
      }
      var found := FirstNamed(collection.docs, company);
      if found.None? {
        return Fail(NothingDeleted);
      }
      var i := found.value;
      var pulled := PullField(collection.docs[i].products, ProductId, id);
      if pulled.None? {
        return Fail(NotAnArray);
      }
      collection.docs := collection.docs[i := collection.docs[i].(products := pulled.value)];
      r := Pass;
    }
  }

  /** A product added under a fresh id is what `GetOne` returns for that id. */
  lemma AddThenGetOne(docs: seq<Company>, company: string, product: Product)
    requires Added(docs, company, product, false).outcome == Pass
    requires FirstNamed(docs, company).Some?
    requires !HasId(Unwind(docs, company, ProductsOf), ProductId, product.id)
    ensures GetOne(Added(docs, company, product, false).docs, company, product.id) == Ok(product)
  {
    var i := FirstNamed(docs, company).value;
    PushThenGetOne(docs, Added(docs, company, product, false).docs, company, ProductsOf, ProductId, product, i);
  }

  /** After a successful update, `GetOne` returns the new value, not the old one. */
  lemma UpdateThenGetOne(docs: seq<Company>, company: string, product: Product)
    requires Updated(docs, company, product).outcome == Pass
    ensures GetOne(Updated(docs, company, product).docs, company, product.id) == Ok(product)
  {
    var k := FirstHolding(docs, company, ProductsOf, ProductId, product.id).value;
    ReplaceThenGetOne(docs, Updated(docs, company, product).docs, company, ProductsOf, ProductId, product, k);
  }

  /** With a single company document, a deleted id is no longer found. */
  lemma DeleteThenGetOne(docs: seq<Company>, company: string, id: string)
    requires SingleCompany(docs, company)
    requires Deleted(docs, company, id).outcome == Pass
    ensures GetOne(Deleted(docs, company, id).docs, company, id) == Err(NotFound)
  {
    var i := FirstNamed(docs, company).value;
    PullThenGone(docs, Deleted(docs, company, id).docs, company, ProductsOf, ProductId, id, i);
  }

  /** With two documents of one name, deleting a product held only by the second
      reports success, removes nothing, and `GetOne` still finds the product:
      `GetOne` reads every document with the name, `$pull` only the first. */
  lemma DeleteMissesSecondCompany(first: Company, second: Company, product: Product)
    requires first.name == second.name
    requires first.products == Array([]) && second.products == Array([product])
    ensures var r := Deleted([first, second], first.name, product.id);
            && r == Step(Pass, [first, second])
            && GetOne(r.docs, first.name, product.id) == Ok(product)
  {
    var docs := [first, second];
    assert Unwind(docs, first.name, ProductsOf) == [product] by {
      assert docs[1..] == [second];
      assert docs[1..][1..] == [];
      assert Part(first, first.name, ProductsOf) == [];
      assert Part(second, first.name, ProductsOf) == [product];
      assert Unwind([second], first.name, ProductsOf) == [product] + Unwind([], first.name, ProductsOf);
    }
    assert HasId([product], ProductId, product.id) by {
      assert ProductId([product][0]) == product.id;
    }
    assert docs[0 := docs[0].(products := Array([]))] == docs;
  }
}
