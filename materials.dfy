/** The material repository (MaterialModel): the `materials` array of the company
    document. */
module Materials {
  import opened Wrappers
  import opened EmbeddedArray
  import opened Entities
  import opened Store

  function MaterialsOf(c: Company): Field<Material> { c.materials }

  /** `MaterialModel.GetAll`. */
  function GetAll(docs: seq<Company>, company: string): Result<seq<Material>, Error>
  {
    Store.GetAll(docs, company, MaterialsOf)
  }

  /** `MaterialModel.GetOne`. */
  function GetOne(docs: seq<Company>, company: string, id: string): Result<Material, Error>
  {
    Store.GetOne(docs, company, MaterialsOf, MaterialId, id)
  }

  /** True when the material's embedded supplier snapshot has the id (the query
      `materials.supplier.id`). */
  predicate FromSupplier(m: Material, supplierId: string)
  {
    m.supplier.id == supplierId
  }

  /** The materials of `s` whose supplier has the id, in their order in `s`. */
  function WithSupplier(s: seq<Material>, supplierId: string): (r: seq<Material>)
    ensures |r| <= |s|
    ensures forall k :: 0 <= k < |r| ==> r[k] in s && FromSupplier(r[k], supplierId)
    ensures forall k :: 0 <= k < |s| && FromSupplier(s[k], supplierId) ==> s[k] in r
  {
    if s == [] then []
    else
      var init := s[..|s| - 1];
      assert forall k :: 0 <= k < |s| - 1 ==> init[k] == s[k];
      WithSupplier(init, supplierId) + if FromSupplier(s[|s| - 1], supplierId) then [s[|s| - 1]] else []
  }

  /** Filtering works element by element, so it keeps the stored order. */
  lemma {:induction false} WithSupplierConcat(s: seq<Material>, t: seq<Material>, supplierId: string)
    ensures WithSupplier(s + t, supplierId) == WithSupplier(s, supplierId) + WithSupplier(t, supplierId)
  {
    if t == [] {
      assert s + t == s;
    } else {
      var t' := t[..|t| - 1];
      WithSupplierConcat(s, t', supplierId);
      assert (s + t)[..|s + t| - 1] == s + t';
      assert (s + t)[|s + t| - 1] == t[|t| - 1];
    }
  }
  /** Extending the prefix by one element extends the filtered prefix by that
      element when it passes, and by nothing otherwise. */
  lemma WithSupplierStep(s: seq<Material>, n: nat, supplierId: string)
    requires n < |s|
    ensures WithSupplier(s[..n + 1], supplierId) == WithSupplier(s[..n], supplierId) + if FromSupplier(s[n], supplierId) then [s[n]] else []
  {
    assert s[..n + 1][..n] == s[..n];
  }

  /** The filter keeps something exactly when some element passes it. */
  lemma WithSupplierNonEmpty(s: seq<Material>, supplierId: string)
    ensures WithSupplier(s, supplierId) != [] <==> exists k :: 0 <= k < |s| && FromSupplier(s[k], supplierId)
  {
    var r := WithSupplier(s, supplierId);
    if r != [] {
      assert r[0] in s;
    }
  }


  /** `MaterialModel.Add`: with the lookup failing for a reason other than "no
      documents" the error is returned; with no company document nothing is
      written and success is reported; otherwise the material is appended to the
      first company document's `materials`. */
  function Added(docs: seq<Company>, company: string, material: Material, lookupFault: bool): (r: Step)
    ensures lookupFault ==> r == Step(Fail(StoreFault), docs)
    ensures !lookupFault && FirstNamed(docs, company).None? ==> r == Step(Pass, docs)
    ensures !lookupFault && FirstNamed(docs, company).Some? ==>
              var i := FirstNamed(docs, company).value;
              if docs[i].materials.Null? then r == Step(Fail(NotAnArray), docs)
              else && r.outcome == Pass
                   && ChangedOnlyAt(docs, r.docs, i)
                   && r.docs[i] == docs[i].(materials := Array(Items(docs[i].materials) + [material]))
  {
    if lookupFault then Step(Fail(StoreFault), docs)
    else
      match FirstNamed(docs, company)
      case None => Step(Pass, docs)
      case Some(i) =>
        match PushField(docs[i].materials, material)
        case None => Step(Fail(NotAnArray), docs)
        case Some(f) => Step(Pass, docs[i := docs[i].(materials := f)])
  }

  /** `MaterialModel.Update`: succeeds exactly when some document with the name
      holds a material with that id (whether or not the stored value changes), and
      then replaces the first such material of the first such document in place. */
  function Updated(docs: seq<Company>, company: string, material: Material): (r: Step)
    ensures r.outcome.Pass? <==> HasId(Unwind(docs, company, MaterialsOf), MaterialId, material.id)
    ensures r.outcome.Fail? ==> r == Step(Fail(NotFound), docs)
    ensures r.outcome.Pass? ==>
              FirstHolding(docs, company, MaterialsOf, MaterialId, material.id).Some? &&
              var k := FirstHolding(docs, company, MaterialsOf, MaterialId, material.id).value;
              && ChangedOnlyAt(docs, r.docs, k)
              && r.docs[k] == docs[k].(materials := Array(ReplaceFirst(Items(docs[k].materials), MaterialId, material)))
  {
    FirstHoldingMatchesGetOne(docs, company, MaterialsOf, MaterialId, material.id);
    match FirstHolding(docs, company, MaterialsOf, MaterialId, material.id)
    case None => Step(Fail(NotFound), docs)
    case Some(k) =>
      Step(Pass, docs[k := docs[k].(materials := Array(ReplaceFirst(Items(docs[k].materials), MaterialId, material)))])
  }

  /** `MaterialModel.DeleteOne`: fails as `GetOne(id)` does; otherwise pulls every
      material with the id out of the first company document, whose other
      materials keep their order. The "something went wrong" outcome cannot occur
      when calls run one at a time. */
  function Deleted(docs: seq<Company>, company: string, id: string): (r: Step)
    ensures GetOne(docs, company, id).Err? ==> r == Step(Fail(NotFound), docs)
    ensures r.outcome != Fail(NothingDeleted)
    ensures GetOne(docs, company, id).Ok? ==>
              FirstNamed(docs, company).Some? &&
              var i := FirstNamed(docs, company).value;
              if docs[i].materials.Null? then r == Step(Fail(NotAnArray), docs)
              else && r.outcome == Pass
                   && ChangedOnlyAt(docs, r.docs, i)
                   && r.docs[i] == docs[i].(materials := r.docs[i].materials)
                   && r.docs[i].materials.Missing? == docs[i].materials.Missing?
                   && r.docs[i].materials.Array? == docs[i].materials.Array?
                   && Items(r.docs[i].materials) == Pull(Items(docs[i].materials), MaterialId, id)
  {
    UnwindUnnamed(docs, company, MaterialsOf);
    match GetOne(docs, company, id)
    case Err(e) => Step(Fail(e), docs)
    case Ok(_) =>
      match FirstNamed(docs, company)
      case None => Step(Fail(NothingDeleted), docs)
      case Some(i) =>
        match PullField(docs[i].materials, MaterialId, id)
        case None => Step(Fail(NotAnArray), docs)
        case Some(f) => Step(Pass, docs[i := docs[i].(materials := f)])
  }

  class MaterialModel {
    const collection: Collection

    constructor(collection: Collection)
      ensures this.collection == collection
    {
      this.collection := collection;
    }

    method Add(company: string, material: Material, lookupFault: bool) returns (r: Outcome<Error>)
      modifies collection
      ensures Step(r, collection.docs) == Added(old(collection.docs), company, material, lookupFault)
    {
      if lookupFault {
        return Fail(StoreFault);
      }
      var found := FirstNamed(collection.docs, company);
      if found.None? {
        return Pass;
      }
      var i := found.value;
      var pushed := PushField(collection.docs[i].materials, material);
      if pushed.None? {
        return Fail(NotAnArray);
      }
      collection.docs := collection.docs[i := collection.docs[i].(materials := pushed.value)];
      r := Pass;
    }

    method Update(company: string, material: Material) returns (r: Outcome<Error>)
      modifies collection
      ensures Step(r, collection.docs) == Updated(old(collection.docs), company, material)
    {
      var matched := FirstHolding(collection.docs, company, MaterialsOf, MaterialId, material.id);
      if matched.None? {
        return Fail(NotFound);
      }
      var k := matched.value;
      var replaced := ReplaceFirst(Items(collection.docs[k].materials), MaterialId, material);
      collection.docs := collection.docs[k := collection.docs[k].(materials := Array(replaced))];
      r := Pass;
    }

    /** `MaterialModel.GetBySupplier`: the materials, over every company document
        with the name and in stored order, whose embedded supplier has the id;
        `NotFound` when there are none. */
    method GetBySupplier(company: string, supplierId: string) returns (r: Result<seq<Material>, Error>)
      ensures r.Ok? <==> exists k :: 0 <= k < |Unwind(collection.docs, company, MaterialsOf)|
                                     && FromSupplier(Unwind(collection.docs, company, MaterialsOf)[k], supplierId)
      ensures r.Ok? ==> r.value == WithSupplier(Unwind(collection.docs, company, MaterialsOf), supplierId)
      ensures r.Err? ==> r.error == NotFound
    {
      var results := Unwind(collection.docs, company, MaterialsOf);
      var found: seq<Material> := [];
      var n := 0;
      while n < |results|
        invariant n <= |results|
        invariant found == WithSupplier(results[..n], supplierId)
      {
        WithSupplierStep(results, n, supplierId);
        if FromSupplier(results[n], supplierId) {
          found := found + [results[n]];
        }
        n := n + 1;
      }
      assert results[..n] == results;
      WithSupplierNonEmpty(results, supplierId);
      if found == [] {
        return Err(NotFound);
      }
      assert results == Unwind(collection.docs, company, MaterialsOf);
      return Ok(found);
    }

    method DeleteOne(company: string, id: string) returns (r: Outcome<Error>)
      modifies collection
      ensures Step(r, collection.docs) == Deleted(old(collection.docs), company, id)
    {
      var confirmed := Store.GetOne(collection.docs, company, MaterialsOf, MaterialId, id);
      if confirmed.Err? {
        return Fail(confirmed.error);
      }
      var found := FirstNamed(collection.docs, company);
      if found.None? {
        return Fail(NothingDeleted);
      }
      var i := found.value;
      var pulled := PullField(collection.docs[i].materials, MaterialId, id);
      if pulled.None? {
        return Fail(NotAnArray);
      }
      collection.docs := collection.docs[i := collection.docs[i].(materials := pulled.value)];
      r := Pass;
    }
  }

  /** A material added under a fresh id is what `GetOne` returns for that id. */
  lemma AddThenGetOne(docs: seq<Company>, company: string, material: Material)
    requires Added(docs, company, material, false).outcome == Pass
    requires FirstNamed(docs, company).Some?
    requires !HasId(Unwind(docs, company, MaterialsOf), MaterialId, material.id)
    ensures GetOne(Added(docs, company, material, false).docs, company, material.id) == Ok(material)
  {
    var i := FirstNamed(docs, company).value;
    PushThenGetOne(docs, Added(docs, company, material, false).docs, company, MaterialsOf, MaterialId, material, i);
  }

  /** After a successful update, `GetOne` returns the new value, not the old one. */
  lemma UpdateThenGetOne(docs: seq<Company>, company: string, material: Material)
    requires Updated(docs, company, material).outcome == Pass
    ensures GetOne(Updated(docs, company, material).docs, company, material.id) == Ok(material)
  {
    var k := FirstHolding(docs, company, MaterialsOf, MaterialId, material.id).value;
    ReplaceThenGetOne(docs, Updated(docs, company, material).docs, company, MaterialsOf, MaterialId, material, k);
  }

  /** With a single company document, a deleted id is no longer found. */
  lemma DeleteThenGetOne(docs: seq<Company>, company: string, id: string)
    requires SingleCompany(docs, company)
    requires Deleted(docs, company, id).outcome == Pass
    ensures GetOne(Deleted(docs, company, id).docs, company, id) == Err(NotFound)
  {
    var i := FirstNamed(docs, company).value;
    PullThenGone(docs, Deleted(docs, company, id).docs, company, MaterialsOf, MaterialId, id, i);
  }

  /** With two documents of one name, deleting a material held only by the second
      reports success, removes nothing, and `GetOne` still finds the material:
      `GetOne` reads every document with the name, `$pull` only the first. */
  lemma DeleteMissesSecondCompany(first: Company, second: Company, material: Material)
    requires first.name == second.name
    requires first.materials == Array([]) && second.materials == Array([material])
    ensures var r := Deleted([first, second], first.name, material.id);
            && r == Step(Pass, [first, second])
            && GetOne(r.docs, first.name, material.id) == Ok(material)
  {
    var docs := [first, second];
    assert Unwind(docs, first.name, MaterialsOf) == [material] by {
      assert docs[1..] == [second];
      assert docs[1..][1..] == [];
      assert Part(first, first.name, MaterialsOf) == [];
      assert Part(second, first.name, MaterialsOf) == [material];
      assert Unwind([second], first.name, MaterialsOf) == [material] + Unwind([], first.name, MaterialsOf);
    }
    assert HasId([material], MaterialId, material.id) by {
      assert MaterialId([material][0]) == material.id;
    }
    assert docs[0 := docs[0].(materials := Array([]))] == docs;
  }
}
