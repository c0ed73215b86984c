/** The company initializer (CompanyModel): inserting the root document. */
module Companies {
  import opened Wrappers
  import opened EmbeddedArray
  import opened Entities
  import opened Store
  import Products
  import Materials
  import Suppliers
  import Certs

  /** The document the initialize handler builds: the configured company name,
      title-cased by the caller, and four empty arrays. */
  function NewCompany(name: string): (c: Company)
    ensures c.name == name
    ensures c.products.Array? && c.materials.Array? && c.suppliers.Array? && c.certs.Array?
    ensures Items(c.products) == [] && Items(c.materials) == [] && Items(c.suppliers) == [] && Items(c.certs) == []
  {
    Company(name, Array([]), Array([]), Array([]), Array([]))
  }

  /** How many documents carry the name. */
  function NamedCount(docs: seq<Company>, name: string): nat
  {
    if docs == [] then 0
    else NamedCount(docs[..|docs| - 1], name) + if docs[|docs| - 1].name == name then 1 else 0
  }

  class CompanyModel {
    const collection: Collection

    constructor(collection: Collection)
      ensures this.collection == collection
    {
      this.collection := collection;
    }

    /** `CompanyModel.Initialize`: inserts the document as a new one at the end of
        the collection, without looking for one with the same name, and reports
        success. */
    method Initialize(company: Company) returns (r: Outcome<Error>)
      modifies collection
      ensures r == Pass
      ensures collection.docs == old(collection.docs) + [company]
    {
      collection.docs := collection.docs + [company];
      r := Pass;
    }
  }

  /** Inserting never checks the name: two initializations leave two more
      documents with that name, which breaks the single-company invariant the
      lookups rely on; earlier documents are untouched. */
  lemma InitializeTwice(docs: seq<Company>, name: string)
    ensures NamedCount(docs + [NewCompany(name)] + [NewCompany(name)], name) == NamedCount(docs, name) + 2
    ensures !SingleCompany(docs + [NewCompany(name)] + [NewCompany(name)], name)
    ensures (docs + [NewCompany(name)] + [NewCompany(name)])[..|docs|] == docs
  {
    var twice := docs + [NewCompany(name)] + [NewCompany(name)];
    assert twice[|docs|].name == name && twice[|docs| + 1].name == name;
    var once := docs + [NewCompany(name)];
    assert (once + [NewCompany(name)])[..|once|] == once;
    assert once[..|docs|] == docs;
  }

  /** On a collection without a document of that name, every repository lists
      nothing, without error, right after initialization. */
  lemma InitializeThenEmpty(docs: seq<Company>, name: string)
    requires FirstNamed(docs, name).None?
    ensures Products.GetAll(docs + [NewCompany(name)], name) == Ok([])
    ensures Materials.GetAll(docs + [NewCompany(name)], name) == Ok([])
    ensures Suppliers.GetAll(docs + [NewCompany(name)], name) == Ok([])
    ensures Certs.GetAll(docs + [NewCompany(name)], name) == Ok([])
  {
    var docs2 := docs + [NewCompany(name)];
    assert FirstNamed(docs2, name) == Some(|docs|) by {
      assert forall j :: 0 <= j < |docs| ==> docs2[j] == docs[j];
      assert docs2[|docs|] == NewCompany(name);
    }
  }
}
