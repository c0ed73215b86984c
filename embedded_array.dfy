/** Operations on one embedded array of a company document, independent of the
    element type: first match by id, positional replace, remove-all-matching, and
    the three states an array field can be in. `key` gives an element's `id`. */
module EmbeddedArray {
  import opened Wrappers

  /** An array field as stored: absent from the document, holding null (a Go nil
      slice is stored that way), or an array. */
  datatype Field<T> = Missing | Null | Array(elems: seq<T>)

  /** The elements `$unwind` produces from the field: none unless it is an array. */
  function Items<T>(f: Field<T>): seq<T>
  {
    if f.Array? then f.elems else []
  }

  /** True when some element of `s` carries the identifier `id`. */
  predicate HasId<T>(s: seq<T>, key: T -> string, id: string)
  {
    exists j :: 0 <= j < |s| && key(s[j]) == id
  }

  /** The position of the first element carrying `id`. */
  function FirstIndex<T>(s: seq<T>, key: T -> string, id: string): (r: Option<nat>)
    ensures r.Some? ==> r.value < |s| && key(s[r.value]) == id
    ensures r.Some? ==> forall j :: 0 <= j < r.value ==> key(s[j]) != id
    ensures r.None? <==> !HasId(s, key, id)
  {
    if s == [] then None
    else if key(s[0]) == id then Some(0)
    else match FirstIndex(s[1..], key, id)
      case None =>
        assert forall j :: 1 <= j < |s| ==> s[j] == s[1..][j - 1];
        None
      case Some(k) =>
        assert forall j :: 1 <= j < k + 1 ==> s[j] == s[1..][j - 1];
        Some(k + 1)
  }

  /** The first element carrying `id`, as the `match`-`unwind`-`match` pipeline
      followed by taking `results[0]` yields it. */
  function FindFirst<T>(s: seq<T>, key: T -> string, id: string): (r: Option<T>)
    ensures r.Some? <==> HasId(s, key, id)
    ensures r.Some? ==> key(r.value) == id
    ensures r.Some? ==> exists i :: 0 <= i < |s| && s[i] == r.value &&
                                   forall j :: 0 <= j < i ==> key(s[j]) != id
  {
    match FirstIndex(s, key, id)
    case None => None
    case Some(i) => Some(s[i])
  }

  /** Searching a concatenation finds the match in the left part when there is one. */
  lemma {:induction false} FindFirstConcat<T>(s: seq<T>, t: seq<T>, key: T -> string, id: string)
    ensures FindFirst(s + t, key, id) == if HasId(s, key, id) then FindFirst(s, key, id) else FindFirst(t, key, id)
  {
    if s == [] {
      assert s + t == t;
    } else if key(s[0]) == id {
      assert (s + t)[0] == s[0];
    } else {
      FindFirstConcat(s[1..], t, key, id);
      assert (s + t)[1..] == s[1..] + t;
      assert HasId(s, key, id) == HasId(s[1..], key, id) by {
        if HasId(s, key, id) {
          var j :| 0 <= j < |s| && key(s[j]) == id;
          assert s[1..][j - 1] == s[j];
        }
        if HasId(s[1..], key, id) {
          var j :| 0 <= j < |s[1..]| && key(s[1..][j]) == id;
          assert s[j + 1] == s[1..][j];
        }
      }
      FirstIndexTail(s + t, key, id);
      FirstIndexTail(s, key, id);
    }
  }

  /** When the head does not carry `id`, the search continues in the tail. */
  lemma FirstIndexTail<T>(s: seq<T>, key: T -> string, id: string)
    requires s != [] && key(s[0]) != id
    ensures FindFirst(s, key, id) == FindFirst(s[1..], key, id)
  {
  }

  /** A search on a sequence with no element carrying `id`, followed by one that does,
      finds that one: the first match of `s + [x] + t` for a fresh `key(x)` is `x`. */
  lemma FindFirstAfterFresh<T>(s: seq<T>, x: T, t: seq<T>, key: T -> string)
    requires !HasId(s, key, key(x))
    ensures FindFirst(s + [x] + t, key, key(x)) == Some(x)
  {
    FindFirstConcat(s, [x] + t, key, key(x));
    assert s + [x] + t == s + ([x] + t);
  }

  /** Replace the first element carrying `x`'s id by `x`, in the same slot (the
      positional `$set` with `array.$`); without such an element nothing changes. */
  function ReplaceFirst<T>(s: seq<T>, key: T -> string, x: T): (r: seq<T>)
    ensures |r| == |s|
    ensures !HasId(s, key, key(x)) ==> r == s
    ensures HasId(s, key, key(x)) ==>
              exists i :: 0 <= i < |s| && r[i] == x && key(s[i]) == key(x) &&
                          (forall j :: 0 <= j < i ==> key(s[j]) != key(x)) &&
                          (forall j :: 0 <= j < |s| && j != i ==> r[j] == s[j])
  {
    match FirstIndex(s, key, key(x))
    case None => s
    case Some(i) => s[i := x]
  }

  /** After a replacement the first element carrying that id is the new value. */
  lemma ReplaceFirstFound<T>(s: seq<T>, key: T -> string, x: T)
    requires HasId(s, key, key(x))
    ensures FindFirst(ReplaceFirst(s, key, x), key, key(x)) == Some(x)
  {
    var i := FirstIndex(s, key, key(x)).value;
    var r := ReplaceFirst(s, key, x);
    assert r == s[i := x];
    var k := FirstIndex(r, key, key(x));
    assert k.Some? by { assert key(r[i]) == key(x); }
    assert k.value == i;
  }

  /** Replacing inside a middle part that holds the id, with no match before it,
      makes `x` the first match of the whole. */
  lemma ReplaceFirstInMiddle<T>(before: seq<T>, s: seq<T>, after: seq<T>, key: T -> string, x: T)
    requires !HasId(before, key, key(x))
    requires HasId(s, key, key(x))
    ensures FindFirst(before + ReplaceFirst(s, key, x) + after, key, key(x)) == Some(x)
  {
    var here := ReplaceFirst(s, key, x);
    ReplaceFirstFound(s, key, x);
    FindFirstConcat(here, after, key, key(x));
    FindFirstConcat(before, here + after, key, key(x));
    assert before + here + after == before + (here + after);
  }

  /** Remove every element carrying `id` (the `$pull` with `{id: id}`), keeping the
      others in order. */
  function Pull<T>(s: seq<T>, key: T -> string, id: string): (r: seq<T>)
    ensures |r| <= |s|
    ensures !HasId(r, key, id)
    ensures forall k :: 0 <= k < |r| ==> r[k] in s
    ensures forall k :: 0 <= k < |s| && key(s[k]) != id ==> s[k] in r
  {
    if s == [] then []
    else
      var rest := Pull(s[1..], key, id);
      assert forall k :: 1 <= k < |s| ==> s[k] == s[1..][k - 1];
      if key(s[0]) == id then rest else [s[0]] + rest
  }

  /** `Pull` works element by element, so it keeps the relative order of what it keeps. */
  lemma {:induction false} PullConcat<T>(s: seq<T>, t: seq<T>, key: T -> string, id: string)
    ensures Pull(s + t, key, id) == Pull(s, key, id) + Pull(t, key, id)
  {
    if s == [] {
      assert s + t == t;
    } else {
      assert (s + t)[1..] == s[1..] + t;
      PullConcat(s[1..], t, key, id);
    }
  }

  /** `Pull` removes exactly the elements carrying `id`: nothing else goes. */
  lemma {:induction false} PullKeepsOthers<T>(s: seq<T>, key: T -> string, id: string)
    requires !HasId(s, key, id)
    ensures Pull(s, key, id) == s
  {
    if s != [] {
      assert key(s[0]) != id;
      PullKeepsOthers(s[1..], key, id);
      assert s == [s[0]] + s[1..];
    }
  }

  /** `$push`: an absent field becomes a one-element array, an array grows at its
      end, and a null field makes the store refuse the update (`None`). */
  function PushField<T>(f: Field<T>, x: T): (r: Option<Field<T>>)
    ensures r.None? <==> f.Null?
    ensures r.Some? ==> r.value.Array? && Items(r.value) == Items(f) + [x]
  {
    match f
    case Missing => Some(Array([x]))
    case Null => None
    case Array(s) => Some(Array(s + [x]))
  }

  /** `$pull`: an absent field stays absent, an array loses every element carrying
      `id`, and a null field makes the store refuse the update (`None`). */
  function PullField<T>(f: Field<T>, key: T -> string, id: string): (r: Option<Field<T>>)
    ensures r.None? <==> f.Null?
    ensures r.Some? ==> Items(r.value) == Pull(Items(f), key, id)
    ensures r.Some? ==> r.value.Missing? == f.Missing? && r.value.Array? == f.Array?
  {
    match f
    case Missing => Some(Missing)
    case Null => None
    case Array(s) => Some(Array(Pull(s, key, id)))
  }
}
