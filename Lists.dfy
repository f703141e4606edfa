/** The list bookkeeping shared by the screens: records carrying an id, and
    the `map`/`filter` expressions that replace, update or drop them by id,
    plus the positional edits applied to the category list. */
module Lists {

  type Id = string

  /** A stored record: the id plus the remaining fields (`{ ...fields, id }`). */
  datatype Rec<T> = Rec(id: Id, val: T)

  /** The ids present in a list. */
  function Ids<T>(s: seq<Rec<T>>): set<Id>
  {
    if s == [] then {} else {s[0].id} + Ids(s[1..])
  }

  /** An id is present exactly when some position carries it. */
  lemma {:induction false} IdsMember<T>(s: seq<Rec<T>>, x: Id)
    ensures x in Ids(s) <==> exists k :: 0 <= k < |s| && s[k].id == x
  {
    if s != [] {
      IdsMember(s[1..], x);
      if x in Ids(s[1..]) {
        var k :| 0 <= k < |s| - 1 && s[1..][k].id == x;
        assert s[k + 1].id == x;
      }
      if exists k :: 0 <= k < |s| && s[k].id == x {
        var k :| 0 <= k < |s| && s[k].id == x;
        if k > 0 { assert s[1..][k - 1].id == x; }
      }
    }
  }

  /** No two records of the list share an id. */
  predicate DistinctIds<T>(s: seq<Rec<T>>)
  {
    s == [] || (s[0].id !in Ids(s[1..]) && DistinctIds(s[1..]))
  }

  /** No two entries of the list are equal. */
  predicate Distinct<T(==)>(s: seq<T>)
  {
    forall i, j :: 0 <= i < j < |s| ==> s[i] != s[j]
  }

  /** `list.map(x => x.id === id ? { ...f(x), id } : x)`. */
  function UpdateById<T>(s: seq<Rec<T>>, id: Id, f: T -> T): (r: seq<Rec<T>>)
    ensures |r| == |s|
    ensures forall k :: 0 <= k < |s| ==> r[k] == (if s[k].id == id then Rec(id, f(s[k].val)) else s[k])
  {
    if s == [] then []
    else [if s[0].id == id then Rec(id, f(s[0].val)) else s[0]] + UpdateById(s[1..], id, f)
  }

  /** `list.map(x => x.id === id ? { ...v, id } : x)`: every record with that id
      becomes `v` under the same id. */
  function ReplaceById<T>(s: seq<Rec<T>>, id: Id, v: T): (r: seq<Rec<T>>)
  {
    UpdateById(s, id, _ => v)
  }

  /** Updating by id never touches the ids themselves. */
  lemma {:induction false} UpdateByIdKeepsIds<T>(s: seq<Rec<T>>, id: Id, f: T -> T)
    ensures Ids(UpdateById(s, id, f)) == Ids(s)
    ensures DistinctIds(s) ==> DistinctIds(UpdateById(s, id, f))
  {
    if s != [] {
      var r := UpdateById(s, id, f);
      assert r[1..] == UpdateById(s[1..], id, f);
      UpdateByIdKeepsIds(s[1..], id, f);
    }
  }

  /** Replacing by id keeps the length, the positions and the set of ids;
      the records with that id become `Rec(id, v)` and all others stay put. */
  lemma ReplaceByIdShape<T>(s: seq<Rec<T>>, id: Id, v: T)
    ensures |ReplaceById(s, id, v)| == |s|
    ensures forall k :: 0 <= k < |s| && s[k].id == id ==> ReplaceById(s, id, v)[k] == Rec(id, v)
    ensures forall k :: 0 <= k < |s| && s[k].id != id ==> ReplaceById(s, id, v)[k] == s[k]
    ensures Ids(ReplaceById(s, id, v)) == Ids(s)
  {
    UpdateByIdKeepsIds(s, id, _ => v);
  }

  /** With no record carrying the id, updating changes nothing. */
  lemma UpdateByIdNoMatch<T>(s: seq<Rec<T>>, id: Id, f: T -> T)
    requires id !in Ids(s)
    ensures UpdateById(s, id, f) == s
  {
    var r := UpdateById(s, id, f);
    forall k | 0 <= k < |s| ensures r[k] == s[k] {
      IdsMember(s, id);
    }
  }

  /** `list.filter(x => x.id !== id)`. */
  function RemoveById<T>(s: seq<Rec<T>>, id: Id): (r: seq<Rec<T>>)
    ensures |r| <= |s|
    ensures forall k :: 0 <= k < |r| ==> r[k] in s && r[k].id != id
    ensures forall k :: 0 <= k < |s| && s[k].id != id ==> s[k] in r
  {
    if s == [] then []
    else if s[0].id == id then RemoveById(s[1..], id)
    else [s[0]] + RemoveById(s[1..], id)
  }

  /** Filtering keeps the relative order: it distributes over concatenation. */
  lemma {:induction false} RemoveByIdConcat<T>(a: seq<Rec<T>>, b: seq<Rec<T>>, id: Id)
    ensures RemoveById(a + b, id) == RemoveById(a, id) + RemoveById(b, id)
  {
    if a != [] {
      assert (a + b)[0] == a[0];
      assert (a + b)[1..] == a[1..] + b;
      RemoveByIdConcat(a[1..], b, id);
    } else {
      assert a + b == b;
    }
  }

  /** With no record carrying the id, filtering changes nothing. */
  lemma {:induction false} RemoveByIdNoMatch<T>(s: seq<Rec<T>>, id: Id)
    requires id !in Ids(s)
    ensures RemoveById(s, id) == s
  {
    if s != [] {
      RemoveByIdNoMatch(s[1..], id);
      assert s == [s[0]] + s[1..];
    }
  }

  /** When ids are distinct and the id sits at position `k`, exactly that
      record goes and the rest keep their order. */
  lemma {:induction false} RemoveByIdAt<T>(s: seq<Rec<T>>, id: Id, k: nat)
    requires DistinctIds(s) && k < |s| && s[k].id == id
    ensures RemoveById(s, id) == s[..k] + s[k + 1..]
    ensures |RemoveById(s, id)| == |s| - 1
  {
    if k == 0 {
      RemoveByIdNoMatch(s[1..], id);
    } else {
      IdsMember(s[1..], id);
      assert s[1..][k - 1].id == id;
      RemoveByIdAt(s[1..], id, k - 1);
      assert s[..k] + s[k + 1..] == [s[0]] + (s[1..][..k - 1] + s[1..][k..]);
    }
  }

  /** Filtering drops exactly that id from the set of ids and keeps them distinct. */
  lemma {:induction false} RemoveByIdKeepsDistinct<T>(s: seq<Rec<T>>, id: Id)
    ensures Ids(RemoveById(s, id)) == Ids(s) - {id}
    ensures DistinctIds(s) ==> DistinctIds(RemoveById(s, id))
  {
    if s != [] {
      RemoveByIdKeepsDistinct(s[1..], id);
      if s[0].id != id {
        var r := [s[0]] + RemoveById(s[1..], id);
        assert r[1..] == RemoveById(s[1..], id);
      }
    }
  }

  /** Appending a record under a fresh id keeps the ids distinct. */
  lemma {:induction false} AppendFreshKeepsDistinct<T>(s: seq<Rec<T>>, x: Rec<T>)
    requires DistinctIds(s) && x.id !in Ids(s)
    ensures DistinctIds(s + [x])
    ensures Ids(s + [x]) == Ids(s) + {x.id}
  {
    if s != [] {
      assert (s + [x])[1..] == s[1..] + [x];
      AppendFreshKeepsDistinct(s[1..], x);
    } else {
      assert s + [x] == [x];
    }
  }

  /** `list.filter((_, i) => i !== index)`, where the first element of `s`
      sits at position `from` of the whole list. */
  function FilterIndexFrom<T>(s: seq<T>, index: int, from: int): (r: seq<T>)
    ensures 0 <= index - from < |s| ==> r == s[..index - from] + s[index - from + 1..]
    ensures !(0 <= index - from < |s|) ==> r == s
  {
    if s == [] then []
    else if from == index then FilterIndexFrom(s[1..], index, from + 1)
    else [s[0]] + FilterIndexFrom(s[1..], index, from + 1)
  }

  /** `list.filter((_, i) => i !== index)`. */
  function FilterIndex<T>(s: seq<T>, index: int): (r: seq<T>)
  {
    FilterIndexFrom(s, index, 0)
  }

  /** Dropping an in-range position removes exactly that entry, so the length
      drops by one; any other index leaves the list as it was. */
  lemma FilterIndexShape<T>(s: seq<T>, index: int)
    ensures 0 <= index < |s| ==> FilterIndex(s, index) == s[..index] + s[index + 1..]
    ensures 0 <= index < |s| ==> |FilterIndex(s, index)| == |s| - 1
    ensures !(0 <= index < |s|) ==> FilterIndex(s, index) == s
  {
  }

  /** Appending an entry that is not yet present keeps the list duplicate-free. */
  lemma AppendNewKeepsDistinct<T>(s: seq<T>, x: T)
    requires Distinct(s) && x !in s
    ensures Distinct(s + [x])
  {
    var r := s + [x];
    forall i, j | 0 <= i < j < |r| ensures r[i] != r[j] {
      if j == |s| { assert r[i] == s[i]; }
    }
  }

  /** Overwriting a position with a value found nowhere else keeps the list
      duplicate-free. */
  lemma OverwriteKeepsDistinct<T>(s: seq<T>, i: nat, x: T)
    requires Distinct(s) && i < |s|
    requires forall j :: 0 <= j < |s| && j != i ==> s[j] != x
    ensures Distinct(s[i := x])
  {
  }

  /** Dropping a position keeps the list duplicate-free. */
  lemma FilterIndexKeepsDistinct<T>(s: seq<T>, index: int)
    requires Distinct(s)
    ensures Distinct(FilterIndex(s, index))
  {
    if 0 <= index < |s| {
      var r := FilterIndex(s, index);
      assert r == s[..index] + s[index + 1..];
      forall i, j | 0 <= i < j < |r| ensures r[i] != r[j] {
        var i' := if i < index then i else i + 1;
        var j' := if j < index then j else j + 1;
        assert r[i] == s[i'] && r[j] == s[j'];
      }
    }
  }
}
