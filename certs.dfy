/** The certification repository (CertModel): the `certs` array of the company
    document. It only adds and lists. */
module Certs {
  import opened Wrappers
  import opened EmbeddedArray
  import opened Entities
  import opened Store

  function CertsOf(c: Company): Field<Cert> { c.certs }

  /** `CertModel.GetAll`. */
  function GetAll(docs: seq<Company>, company: string): Result<seq<Cert>, Error>
  {
    Store.GetAll(docs, company, CertsOf)
  }

  /** `CertModel.Add`: unlike the other repositories, ANY failure of the company
      lookup is swallowed: success is reported and nothing is written. Otherwise
      the cert is appended to the first company document's `certs`. */
  function Added(docs: seq<Company>, company: string, cert: Cert, lookupFault: bool): (r: Step)
    ensures lookupFault ==> r == Step(Pass, docs)
    ensures FirstNamed(docs, company).None? ==> r == Step(Pass, docs)
    ensures !lookupFault && FirstNamed(docs, company).Some? ==>
              var i := FirstNamed(docs, company).value;
              if docs[i].certs.Null? then r == Step(Fail(NotAnArray), docs)
              else && r.outcome == Pass
                   && ChangedOnlyAt(docs, r.docs, i)
                   && r.docs[i] == docs[i].(certs := Array(Items(docs[i].certs) + [cert]))
  {
    if lookupFault then Step(Pass, docs)
    else
      match FirstNamed(docs, company)
      case None => Step(Pass, docs)
      case Some(i) =>
        match PushField(docs[i].certs, cert)
        case None => Step(Fail(NotAnArray), docs)
        case Some(f) => Step(Pass, docs[i := docs[i].(certs := f)])
  }

  class CertModel {
    const collection: Collection

    constructor(collection: Collection)
      ensures this.collection == collection
    {
      this.collection := collection;
    }

    method Add(company: string, cert: Cert, lookupFault: bool) returns (r: Outcome<Error>)
      modifies collection
      ensures Step(r, collection.docs) == Added(old(collection.docs), company, cert, lookupFault)
    {
      if lookupFault {
        return Pass;
      }
      var found := FirstNamed(collection.docs, company);
      if found.None? {
        return Pass;
      }
      var i := found.value;
      var pushed := PushField(collection.docs[i].certs, cert);
      if pushed.None? {
        return Fail(NotAnArray);
      }
      collection.docs := collection.docs[i := collection.docs[i].(certs := pushed.value)];
      r := Pass;
    }
  }

  /** A write that went through shows up in `GetAll` as the previous list followed
      by the new cert; a missing `certs` field is created by the push. */
  lemma AddThenGetAll(docs: seq<Company>, company: string, cert: Cert)
    requires FirstNamed(docs, company).Some?
    requires Added(docs, company, cert, false).outcome == Pass
    ensures var i := FirstNamed(docs, company).value;
            GetAll(Added(docs, company, cert, false).docs, company) == Ok(Items(docs[i].certs) + [cert])
    ensures GetAll(docs, company).Ok? ==>
              GetAll(Added(docs, company, cert, false).docs, company) == Ok(GetAll(docs, company).value + [cert])
  {
    var i := FirstNamed(docs, company).value;
    PushThenGetAll(docs, Added(docs, company, cert, false).docs, company, CertsOf, cert, i);
  }

  /** The documents after adding the certs of `cs` one after the other. */
  function AddedAll(docs: seq<Company>, company: string, cs: seq<Cert>): seq<Company>
  {
    if cs == [] then docs
    else Added(AddedAll(docs, company, cs[..|cs| - 1]), company, cs[|cs| - 1], false).docs
  }

  /** One more add on an initialized company goes through, keeps the lookup by
      name and the array, and extends what `GetAll` lists by the new cert. */
  lemma AddedAllStep(docs: seq<Company>, company: string, cs: seq<Cert>, i: nat, listed: seq<Cert>)
    requires cs != []
    requires FirstNamed(AddedAll(docs, company, cs[..|cs| - 1]), company) == Some(i)
    requires AddedAll(docs, company, cs[..|cs| - 1])[i].certs.Array?
    requires GetAll(AddedAll(docs, company, cs[..|cs| - 1]), company) == Ok(listed + cs[..|cs| - 1])
    ensures FirstNamed(AddedAll(docs, company, cs), company) == Some(i)
    ensures AddedAll(docs, company, cs)[i].certs.Array?
    ensures GetAll(AddedAll(docs, company, cs), company) == Ok(listed + cs)
  {
    var init, c := cs[..|cs| - 1], cs[|cs| - 1];
    var before := AddedAll(docs, company, init);
    FirstNamedAfterChange(before, Added(before, company, c, false).docs, company, i);
    AddThenGetAll(before, company, c);
    AppendLast(listed, cs);
  }

  lemma AppendLast<T>(a: seq<T>, s: seq<T>)
    requires s != []
    ensures a + s[..|s| - 1] + [s[|s| - 1]] == a + s
  {
    assert s == s[..|s| - 1] + [s[|s| - 1]];
  }

  /** `GetAll` after a run of adds on an initialized company returns the earlier
      certs followed by the added ones, in the order they were added. */
  lemma {:induction false} AddAllThenGetAll(docs: seq<Company>, company: string, cs: seq<Cert>, i: nat, listed: seq<Cert>)
    requires FirstNamed(docs, company) == Some(i)
    requires docs[i].certs.Array?
    requires GetAll(docs, company) == Ok(listed)
    ensures FirstNamed(AddedAll(docs, company, cs), company) == Some(i)
    ensures AddedAll(docs, company, cs)[i].certs.Array?
    ensures GetAll(AddedAll(docs, company, cs), company) == Ok(listed + cs)
  {
    if cs == [] {
      assert listed + cs == listed;
    } else {
      AddAllThenGetAll(docs, company, cs[..|cs| - 1], i, listed);
      AddedAllStep(docs, company, cs, i, listed);
    }
  }

}
