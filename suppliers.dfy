/** The supplier repository (SupplierModel): the `suppliers` array of the company
    document. */
module Suppliers {
  import opened Wrappers
  import opened EmbeddedArray
  import opened Entities
  import opened Store

  function SuppliersOf(c: Company): Field<Supplier> { c.suppliers }

  /** `SupplierModel.GetAll`. */
  function GetAll(docs: seq<Company>, company: string): Result<seq<Supplier>, Error>
  {
    Store.GetAll(docs, company, SuppliersOf)
  }

  /** `SupplierModel.GetOne`. */
  function GetOne(docs: seq<Company>, company: string, id: string): Result<Supplier, Error>
  {
    Store.GetOne(docs, company, SuppliersOf, SupplierId, id)
  }

  /** `SupplierModel.Add`: with the lookup failing for a reason other than "no
      documents" the error is returned; with no company document nothing is
      written and success is reported; otherwise the supplier is appended to the
      first company document's `suppliers`. */
  function Added(docs: seq<Company>, company: string, supplier: Supplier, lookupFault: bool): (r: Step)
    ensures lookupFault ==> r == Step(Fail(StoreFault), docs)
    ensures !lookupFault && FirstNamed(docs, company).None? ==> r == Step(Pass, docs)
    ensures !lookupFault && FirstNamed(docs, company).Some? ==>
              var i := FirstNamed(docs, company).value;
              if docs[i].suppliers.Null? then r == Step(Fail(NotAnArray), docs)
              else && r.outcome == Pass
                   && ChangedOnlyAt(docs, r.docs, i)
                   && r.docs[i] == docs[i].(suppliers := Array(Items(docs[i].suppliers) + [supplier]))
  {
    if lookupFault then Step(Fail(StoreFault), docs)
    else
      match FirstNamed(docs, company)
      case None => Step(Pass, docs)
      case Some(i) =>
        match PushField(docs[i].suppliers, supplier)
        case None => Step(Fail(NotAnArray), docs)
        case Some(f) => Step(Pass, docs[i := docs[i].(suppliers := f)])
  }

  /** `SupplierModel.Update`: succeeds exactly when some document with the name
      holds a supplier with that id (whether or not the stored value changes), and
      then replaces the first such supplier of the first such document in place.
      The supplier snapshots embedded in materials are left as they were. */
  function Updated(docs: seq<Company>, company: string, supplier: Supplier): (r: Step)
    ensures r.outcome.Pass? <==> HasId(Unwind(docs, company, SuppliersOf), SupplierId, supplier.id)
    ensures r.outcome.Fail? ==> r == Step(Fail(NotFound), docs)
    ensures r.outcome.Pass? ==>
              FirstHolding(docs, company, SuppliersOf, SupplierId, supplier.id).Some? &&
              var k := FirstHolding(docs, company, SuppliersOf, SupplierId, supplier.id).value;
              && ChangedOnlyAt(docs, r.docs, k)
              && r.docs[k] == docs[k].(suppliers := Array(ReplaceFirst(Items(docs[k].suppliers), SupplierId, supplier)))
    ensures forall j :: 0 <= j < |docs| ==> r.docs[j].materials == docs[j].materials
  {
    FirstHoldingMatchesGetOne(docs, company, SuppliersOf, SupplierId, supplier.id);
    match FirstHolding(docs, company, SuppliersOf, SupplierId, supplier.id)
    case None => Step(Fail(NotFound), docs)
    case Some(k) =>
      Step(Pass, docs[k := docs[k].(suppliers := Array(ReplaceFirst(Items(docs[k].suppliers), SupplierId, supplier)))])
  }

  /** `SupplierModel.DeleteOne`: fails as `GetOne(id)` does; otherwise pulls every
      supplier with the id out of the first company document, whose other
      suppliers keep their order. The "something went wrong" outcome cannot occur
      when calls run one at a time. */
  function Deleted(docs: seq<Company>, company: string, id: string): (r: Step)
    ensures GetOne(docs, company, id).Err? ==> r == Step(Fail(NotFound), docs)
    ensures r.outcome != Fail(NothingDeleted)
    ensures GetOne(docs, company, id).Ok? ==>
              FirstNamed(docs, company).Some? &&
              var i := FirstNamed(docs, company).value;
              if docs[i].suppliers.Null? then r == Step(Fail(NotAnArray), docs)
              else && r.outcome == Pass
                   && ChangedOnlyAt(docs, r.docs, i)
                   && r.docs[i] == docs[i].(suppliers := r.docs[i].suppliers)
                   && r.docs[i].suppliers.Missing? == docs[i].suppliers.Missing?
                   && r.docs[i].suppliers.Array? == docs[i].suppliers.Array?
                   && Items(r.docs[i].suppliers) == Pull(Items(docs[i].suppliers), SupplierId, id)
  {
    UnwindUnnamed(docs, company, SuppliersOf);
    match GetOne(docs, company, id)
    case Err(e) => Step(Fail(e), docs)
    case Ok(_) =>
      match FirstNamed(docs, company)
      case None => Step(Fail(NothingDeleted), docs)
      case Some(i) =>
        match PullField(docs[i].suppliers, SupplierId, id)
        case None => Step(Fail(NotAnArray), docs)
        case Some(f) => Step(Pass, docs[i := docs[i].(suppliers := f)])
  }

  class SupplierModel {
    const collection: Collection

    constructor(collection: Collection)
      ensures this.collection == collection
    {
      this.collection := collection;
    }

    method Add(company: string, supplier: Supplier, lookupFault: bool) returns (r: Outcome<Error>)
      modifies collection
      ensures Step(r, collection.docs) == Added(old(collection.docs), company, supplier, lookupFault)
    {
      if lookupFault {
        return Fail(StoreFault);
      }
      var found := FirstNamed(collection.docs, company);
      if found.None? {
        return Pass;
      }
      var i := found.value;
      var pushed := PushField(collection.docs[i].suppliers, supplier);
      if pushed.None? {
        return Fail(NotAnArray);
      }
      collection.docs := collection.docs[i := collection.docs[i].(suppliers := pushed.value)];
      r := Pass;
    }

    method Update(company: string, supplier: Supplier) returns (r: Outcome<Error>)
      modifies collection
      ensures Step(r, collection.docs) == Updated(old(collection.docs), company, supplier)
    {
      var matched := FirstHolding(collection.docs, company, SuppliersOf, SupplierId, supplier.id);
      if matched.None? {
        return Fail(NotFound);
      }
      var k := matched.value;
      var replaced := ReplaceFirst(Items(collection.docs[k].suppliers), SupplierId, supplier);
      collection.docs := collection.docs[k := collection.docs[k].(suppliers := Array(replaced))];
      r := Pass;
    }

    method DeleteOne(company: string, id: string) returns (r: Outcome<Error>)
      modifies collection
      ensures Step(r, collection.docs) == Deleted(old(collection.docs), company, id)
    {
      var confirmed := Store.GetOne(collection.docs, company, SuppliersOf, SupplierId, id);
      if confirmed.Err? {
        return Fail(confirmed.error);
      }
      var found := FirstNamed(collection.docs, company);
      if found.None? {
        return Fail(NothingDeleted);
      }
      var i := found.value;
      var pulled := PullField(collection.docs[i].suppliers, SupplierId, id);
      if pulled.None? {
        return Fail(NotAnArray);
      }
      collection.docs := collection.docs[i := collection.docs[i].(suppliers := pulled.value)];
      r := Pass;
    }
  }

  /** A supplier added under a fresh id is what `GetOne` returns for that id. */
  lemma AddThenGetOne(docs: seq<Company>, company: string, supplier: Supplier)
    requires Added(docs, company, supplier, false).outcome == Pass
    requires FirstNamed(docs, company).Some?
    requires !HasId(Unwind(docs, company, SuppliersOf), SupplierId, supplier.id)
    ensures GetOne(Added(docs, company, supplier, false).docs, company, supplier.id) == Ok(supplier)
  {
    var i := FirstNamed(docs, company).value;
    PushThenGetOne(docs, Added(docs, company, supplier, false).docs, company, SuppliersOf, SupplierId, supplier, i);
  }

  /** After a successful update, `GetOne` returns the new value, not the old one. */
  lemma UpdateThenGetOne(docs: seq<Company>, company: string, supplier: Supplier)
    requires Updated(docs, company, supplier).outcome == Pass
    ensures GetOne(Updated(docs, company, supplier).docs, company, supplier.id) == Ok(supplier)
  {
    var k := FirstHolding(docs, company, SuppliersOf, SupplierId, supplier.id).value;
    ReplaceThenGetOne(docs, Updated(docs, company, supplier).docs, company, SuppliersOf, SupplierId, supplier, k);
  }

  /** With a single company document, a deleted id is no longer found. */
  lemma DeleteThenGetOne(docs: seq<Company>, company: string, id: string)
    requires SingleCompany(docs, company)
    requires Deleted(docs, company, id).outcome == Pass
    ensures GetOne(Deleted(docs, company, id).docs, company, id) == Err(NotFound)
  {
    var i := FirstNamed(docs, company).value;
    PullThenGone(docs, Deleted(docs, company, id).docs, company, SuppliersOf, SupplierId, id, i);
  }

  /** With two documents of one name, deleting a supplier held only by the second
      reports success, removes nothing, and `GetOne` still finds the supplier:
      `GetOne` reads every document with the name, `$pull` only the first. */
  lemma DeleteMissesSecondCompany(first: Company, second: Company, supplier: Supplier)
    requires first.name == second.name
    requires first.suppliers == Array([]) && second.suppliers == Array([supplier])
    ensures var r := Deleted([first, second], first.name, supplier.id);
            && r == Step(Pass, [first, second])
            && GetOne(r.docs, first.name, supplier.id) == Ok(supplier)
  {
    var docs := [first, second];
    assert Unwind(docs, first.name, SuppliersOf) == [supplier] by {
      assert docs[1..] == [second];
      assert docs[1..][1..] == [];
      assert Part(first, first.name, SuppliersOf) == [];
      assert Part(second, first.name, SuppliersOf) == [supplier];
      assert Unwind([second], first.name, SuppliersOf) == [supplier] + Unwind([], first.name, SuppliersOf);
    }
    assert HasId([supplier], SupplierId, supplier.id) by {
      assert SupplierId([supplier][0]) == supplier.id;
    }
    assert docs[0 := docs[0].(suppliers := Array([]))] == docs;
  }
}
