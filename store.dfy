/** The collection of company documents and the queries every repository runs
    on it. A company is looked up by its (already title-cased) name on every call:
    `FindOne` and `UpdateOne` with the filter `{name}` address the FIRST document
    with that name, while the aggregation `$match {name}`, `$unwind` reads ALL of them. */
module Store {
  import opened Wrappers
  import opened EmbeddedArray
  import opened Entities

  /** The MongoDB collection, in insertion order. */
  class Collection {
    var docs: seq<Company>

    constructor()
      ensures docs == []
    {
      docs := [];
    }
  }

  /** What a state-changing repository call reports, and the documents after it. */
  datatype Step = Step(outcome: Outcome<Error>, docs: seq<Company>)

  function CompanyName(c: Company): string { c.name }

  /** The document `FindOne({name})` and `UpdateOne({name}, ...)` address. */
  function FirstNamed(docs: seq<Company>, company: string): (r: Option<nat>)
    ensures r.Some? ==> r.value < |docs| && docs[r.value].name == company
    ensures r.Some? ==> forall j :: 0 <= j < r.value ==> docs[j].name != company
    ensures r.None? <==> forall j :: 0 <= j < |docs| ==> docs[j].name != company
  {
    FirstIndex(docs, CompanyName, company)
  }

  /** `docs2` is `docs` with only document `i` rewritten, and its name kept. */
  predicate ChangedOnlyAt(docs: seq<Company>, docs2: seq<Company>, i: nat)
  {
    && |docs2| == |docs|
    && i < |docs|
    && docs2[i].name == docs[i].name
    && forall j :: 0 <= j < |docs| && j != i ==> docs2[j] == docs[j]
  }

  /** Rewriting one document keeps every name, so the lookup by name is unchanged. */
  lemma FirstNamedAfterChange(docs: seq<Company>, docs2: seq<Company>, company: string, i: nat)
    requires ChangedOnlyAt(docs, docs2, i)
    ensures FirstNamed(docs2, company) == FirstNamed(docs, company)
  {
    assert forall j :: 0 <= j < |docs| ==> docs2[j].name == docs[j].name;
  }

  /** What `$match {name}` then `$unwind` draws from one document: nothing from a
      document with another name or with a null or missing field, otherwise one
      element per array slot, in array order. */
  function Part<T>(d: Company, company: string, get: Company -> Field<T>): (r: seq<T>)
    ensures d.name != company || !get(d).Array? ==> r == []
    ensures d.name == company && get(d).Array? ==> r == get(d).elems
  {
    if d.name == company then Items(get(d)) else []
  }

  /** The elements of the field over every document with that name, in document
      order and array order: the stream the pipeline's last `$match` filters. */
  function Unwind<T>(docs: seq<Company>, company: string, get: Company -> Field<T>): seq<T>
  {
    if docs == [] then [] else Part(docs[0], company, get) + Unwind(docs[1..], company, get)
  }

  /** An id occurs in the stream exactly when it occurs in some document's part. */
  lemma {:induction false} UnwindHasId<T>(docs: seq<Company>, company: string, get: Company -> Field<T>, key: T -> string, id: string)
    ensures HasId(Unwind(docs, company, get), key, id)
        <==> exists j :: 0 <= j < |docs| && HasId(Part(docs[j], company, get), key, id)
  {
    if docs != [] {
      UnwindHasId(docs[1..], company, get, key, id);
      HasIdConcat(Part(docs[0], company, get), Unwind(docs[1..], company, get), key, id);
      if exists j :: 0 <= j < |docs| && HasId(Part(docs[j], company, get), key, id) {
        var j :| 0 <= j < |docs| && HasId(Part(docs[j], company, get), key, id);
        if j > 0 { assert docs[1..][j - 1] == docs[j]; }
      }
      if exists j :: 0 <= j < |docs[1..]| && HasId(Part(docs[1..][j], company, get), key, id) {
        var j :| 0 <= j < |docs[1..]| && HasId(Part(docs[1..][j], company, get), key, id);
        assert docs[1..][j] == docs[j + 1];
      }
    }
  }

  /** Documents with other names contribute nothing, and a non-empty stream means
      a document with the name exists. */
  lemma {:induction false} UnwindUnnamed<T>(docs: seq<Company>, company: string, get: Company -> Field<T>)
    ensures (forall j :: 0 <= j < |docs| ==> docs[j].name != company) ==> Unwind(docs, company, get) == []
    ensures Unwind(docs, company, get) != [] ==> FirstNamed(docs, company).Some?
  {
    if docs != [] {
      UnwindUnnamed(docs[1..], company, get);
      assert forall j :: 1 <= j < |docs| ==> docs[1..][j - 1] == docs[j];
    }
  }

  /** The stream of a concatenation is the concatenation of the streams. */
  lemma {:induction false} UnwindAppend<T>(s: seq<Company>, t: seq<Company>, company: string, get: Company -> Field<T>)
    ensures Unwind(s + t, company, get) == Unwind(s, company, get) + Unwind(t, company, get)
  {
    if s == [] {
      assert s + t == t;
    } else {
      assert (s + t)[1..] == s[1..] + t;
      UnwindAppend(s[1..], t, company, get);
    }
  }

  /** The stream splits around any one document. */
  lemma UnwindSplit<T>(docs: seq<Company>, company: string, get: Company -> Field<T>, i: nat)
    requires i < |docs|
    ensures Unwind(docs, company, get)
         == Unwind(docs[..i], company, get) + Part(docs[i], company, get) + Unwind(docs[i + 1..], company, get)
  {
    var rest := [docs[i]] + docs[i + 1..];
    assert docs == docs[..i] + rest;
    UnwindAppend(docs[..i], rest, company, get);
    assert rest[0] == docs[i] && rest[1..] == docs[i + 1..];
    var a, p, b := Unwind(docs[..i], company, get), Part(docs[i], company, get), Unwind(docs[i + 1..], company, get);
    assert Unwind(rest, company, get) == p + b;
    assert a + (p + b) == a + p + b;
  }

  /** Rewriting one document changes the stream only in that document's part. */
  lemma UnwindAfterChange<T>(docs: seq<Company>, docs2: seq<Company>, company: string, get: Company -> Field<T>, i: nat)
    requires ChangedOnlyAt(docs, docs2, i)
    ensures Unwind(docs2, company, get)
         == Unwind(docs[..i], company, get) + Part(docs2[i], company, get) + Unwind(docs[i + 1..], company, get)
  {
    UnwindSplit(docs2, company, get, i);
    assert docs2[..i] == docs[..i];
    assert docs2[i + 1..] == docs[i + 1..];
  }

  /** `GetAll`: the array of the first document with the name; no document gives an
      empty list without error, a document without the field gives an error, and a
      null field decodes to an empty list. */
  function GetAll<T>(docs: seq<Company>, company: string, get: Company -> Field<T>): (r: Result<seq<T>, Error>)
    ensures FirstNamed(docs, company).None? ==> r == Ok([])
    ensures FirstNamed(docs, company).Some? ==>
              var d := docs[FirstNamed(docs, company).value];
              && (r.Err? <==> get(d).Missing?)
              && (r.Err? ==> r.error == FieldMissing)
              && (r.Ok? ==> r.value == Items(get(d)))
  {
    match FirstNamed(docs, company)
    case None => Ok([])
    case Some(i) => if get(docs[i]).Missing? then Err(FieldMissing) else Ok(Items(get(docs[i])))
  }

  /** `GetOne`: the first element carrying `id` over every document with the name
      (`$match`, `$unwind`, `$match`, then `results[0]`); `NotFound` when none does. */
  function GetOne<T>(docs: seq<Company>, company: string, get: Company -> Field<T>, key: T -> string, id: string)
    : (r: Result<T, Error>)
    ensures r.Ok? <==> HasId(Unwind(docs, company, get), key, id)
    ensures r.Ok? ==> key(r.value) == id
    ensures r.Ok? ==> var s := Unwind(docs, company, get);
                      exists i :: 0 <= i < |s| && s[i] == r.value && forall j :: 0 <= j < i ==> key(s[j]) != id
    ensures r.Err? ==> r.error == NotFound
  {
    match FindFirst(Unwind(docs, company, get), key, id)
    case Some(x) => Ok(x)
    case None => Err(NotFound)
  }

  /** The document `UpdateOne({name, "<field>.id": id}, ...)` addresses: the first
      one with the name whose array holds an element carrying `id`. */
  function FirstHolding<T>(docs: seq<Company>, company: string, get: Company -> Field<T>, key: T -> string, id: string)
    : (r: Option<nat>)
    ensures r.Some? ==> r.value < |docs| && docs[r.value].name == company
    ensures r.Some? ==> HasId(Items(get(docs[r.value])), key, id)
    ensures r.Some? ==> forall j :: 0 <= j < r.value ==> !HasId(Part(docs[j], company, get), key, id)
    ensures r.None? ==> forall j :: 0 <= j < |docs| ==> !HasId(Part(docs[j], company, get), key, id)
  {
    if docs == [] then None
    else if HasId(Part(docs[0], company, get), key, id) then Some(0)
    else
      assert forall j :: 1 <= j < |docs| ==> docs[1..][j - 1] == docs[j];
      match FirstHolding(docs[1..], company, get, key, id)
      case None => None
      case Some(k) => Some(k + 1)
  }

  /** `Update` finds a document to rewrite exactly when `GetOne` would find the id,
      and no document before the one it rewrites holds the id. */
  lemma FirstHoldingMatchesGetOne<T>(docs: seq<Company>, company: string, get: Company -> Field<T>, key: T -> string, id: string)
    ensures FirstHolding(docs, company, get, key, id).None? <==> !HasId(Unwind(docs, company, get), key, id)
    ensures FirstHolding(docs, company, get, key, id).Some? ==>
              !HasId(Unwind(docs[..FirstHolding(docs, company, get, key, id).value], company, get), key, id)
  {
    UnwindHasId(docs, company, get, key, id);
    var r := FirstHolding(docs, company, get, key, id);
    if r.Some? {
      var k := r.value;
      assert HasId(Part(docs[k], company, get), key, id);
      UnwindHasId(docs[..k], company, get, key, id);
      assert forall j :: 0 <= j < k ==> docs[..k][j] == docs[j];
    }
  }

  /** An id occurs in a concatenation exactly when it occurs in one of the parts. */
  lemma HasIdConcat<T>(s: seq<T>, t: seq<T>, key: T -> string, id: string)
    ensures HasId(s + t, key, id) <==> HasId(s, key, id) || HasId(t, key, id)
  {
    if HasId(s + t, key, id) {
      var j :| 0 <= j < |s + t| && key((s + t)[j]) == id;
      if j >= |s| { assert t[j - |s|] == (s + t)[j]; }
    }
    if HasId(t, key, id) {
      var j :| 0 <= j < |t| && key(t[j]) == id;
      assert (s + t)[j + |s|] == t[j];
    }
    if HasId(s, key, id) {
      var j :| 0 <= j < |s| && key(s[j]) == id;
      assert (s + t)[j] == s[j];
    }
  }

  /** The deployment invariant every lookup relies on: at most one document
      carries the company's name. */
  predicate SingleCompany(docs: seq<Company>, company: string)
  {
    forall j, k :: 0 <= j < |docs| && 0 <= k < |docs| && docs[j].name == company && docs[k].name == company ==> j == k
  }

  /** Around the first document with the name, the stream is that document's
      array followed by what the later documents hold; it stays so when only that
      document is rewritten. */
  lemma UnwindAtFirst<T>(docs: seq<Company>, docs2: seq<Company>, company: string, get: Company -> Field<T>, i: nat)
    requires FirstNamed(docs, company) == Some(i)
    requires ChangedOnlyAt(docs, docs2, i)
    ensures Unwind(docs, company, get) == Items(get(docs[i])) + Unwind(docs[i + 1..], company, get)
    ensures Unwind(docs2, company, get) == Items(get(docs2[i])) + Unwind(docs[i + 1..], company, get)
  {
    var u0 := Unwind(docs[..i], company, get);
    var after := Unwind(docs[i + 1..], company, get);
    assert u0 == [] by {
      assert forall j :: 0 <= j < i ==> docs[..i][j] == docs[j];
      UnwindUnnamed(docs[..i], company, get);
    }
    var p := Part(docs[i], company, get);
    var p2 := Part(docs2[i], company, get);
    assert Unwind(docs, company, get) == u0 + p + after by {
      UnwindSplit(docs, company, get, i);
    }
    assert Unwind(docs2, company, get) == u0 + p2 + after by {
      UnwindAfterChange(docs, docs2, company, get, i);
    }
    assert u0 + p == p && u0 + p2 == p2;
  }

  /** After appending `x` to the first document's array, `GetOne(key(x))` returns `x`,
      provided no element with that id was visible before. */
  lemma PushThenGetOne<T>(docs: seq<Company>, docs2: seq<Company>, company: string, get: Company -> Field<T>,
                          key: T -> string, x: T, i: nat)
    requires FirstNamed(docs, company) == Some(i)
    requires ChangedOnlyAt(docs, docs2, i)
    requires Items(get(docs2[i])) == Items(get(docs[i])) + [x]
    requires !HasId(Unwind(docs, company, get), key, key(x))
    ensures GetOne(docs2, company, get, key, key(x)) == Ok(x)
  {
    var old_ := Items(get(docs[i]));
    var after := Unwind(docs[i + 1..], company, get);
    UnwindAtFirst(docs, docs2, company, get, i);
    assert !HasId(old_, key, key(x)) by {
      HasIdConcat(old_, after, key, key(x));
    }
    FindFirstAfterFresh(old_, x, after, key);
  }

  /** After appending `x` to the first document's array, `GetAll` returns that array:
      the previous contents followed by `x`. */
  lemma PushThenGetAll<T>(docs: seq<Company>, docs2: seq<Company>, company: string, get: Company -> Field<T>, x: T, i: nat)
    requires FirstNamed(docs, company) == Some(i)
    requires ChangedOnlyAt(docs, docs2, i)
    requires get(docs2[i]) == Array(Items(get(docs[i])) + [x])
    ensures GetAll(docs2, company, get) == Ok(Items(get(docs[i])) + [x])
    ensures GetAll(docs, company, get).Ok? ==> GetAll(docs2, company, get) == Ok(GetAll(docs, company, get).value + [x])
  {
    assert FirstNamed(docs2, company) == Some(i) by {
      assert forall j :: 0 <= j < i ==> docs2[j].name == docs[j].name;
    }
  }

  /** After the positional replacement by `x`, `GetOne(key(x))` returns `x`. */
  lemma ReplaceThenGetOne<T>(docs: seq<Company>, docs2: seq<Company>, company: string, get: Company -> Field<T>,
                             key: T -> string, x: T, k: nat)
    requires FirstHolding(docs, company, get, key, key(x)) == Some(k)
    requires ChangedOnlyAt(docs, docs2, k)
    requires Items(get(docs2[k])) == ReplaceFirst(Items(get(docs[k])), key, x)
    ensures GetOne(docs2, company, get, key, key(x)) == Ok(x)
  {
    FirstHoldingMatchesGetOne(docs, company, get, key, key(x));
    var before := Unwind(docs[..k], company, get);
    var after := Unwind(docs[k + 1..], company, get);
    UnwindAfterChange(docs, docs2, company, get, k);
    ReplaceFirstInMiddle(before, Items(get(docs[k])), after, key, x);
  }

  /** With a single company document, after pulling every element carrying `id`
      from it, `GetOne(id)` fails. */
  lemma PullThenGone<T>(docs: seq<Company>, docs2: seq<Company>, company: string, get: Company -> Field<T>,
                        key: T -> string, id: string, i: nat)
    requires SingleCompany(docs, company)
    requires FirstNamed(docs, company) == Some(i)
    requires ChangedOnlyAt(docs, docs2, i)
    requires Items(get(docs2[i])) == Pull(Items(get(docs[i])), key, id)
    ensures GetOne(docs2, company, get, key, id) == Err(NotFound)
  {
    var u0 := Unwind(docs2[..i], company, get);
    var u1 := Unwind(docs2[i + 1..], company, get);
    var p := Part(docs2[i], company, get);
    assert u0 == [] by {
      assert forall j :: 0 <= j < i ==> docs2[..i][j] == docs[j];
      UnwindUnnamed(docs2[..i], company, get);
    }
    assert u1 == [] by {
      assert forall j :: i + 1 <= j < |docs2| ==> docs2[i + 1..][j - (i + 1)] == docs[j];
      UnwindUnnamed(docs2[i + 1..], company, get);
    }
    assert p == Pull(Items(get(docs[i])), key, id);
    assert Unwind(docs2, company, get) == u0 + p + u1 by {
      UnwindSplit(docs2, company, get, i);
    }
    assert u0 + p + u1 == p;
    assert Unwind(docs2, company, get) == Pull(Items(get(docs[i])), key, id);
  }
}
