/** The list operations the Redux reducers perform on arrays of records
    that carry a string `id`: `findIndex` by id, replacing the element found
    (`state.xs[index] = action.payload`), and `filter` by id. They are
    generic over the record type; `idOf` reads a record's `id`. */
module Records {

  /** Position `i` holds the first record whose id is `id`. */
  ghost predicate IsFirstMatch<T>(s: seq<T>, idOf: T -> string, id: string, i: int)
  {
    0 <= i < |s| && idOf(s[i]) == id && forall j :: 0 <= j < i ==> idOf(s[j]) != id
  }

  /** `s.findIndex(x => x.id === id)`: the first matching position, or -1. */
  function FindIndex<T>(s: seq<T>, idOf: T -> string, id: string): (i: int)
    ensures -1 <= i < |s|
    ensures i == -1 <==> forall j :: 0 <= j < |s| ==> idOf(s[j]) != id
    ensures i != -1 ==> IsFirstMatch(s, idOf, id, i)
    decreases |s|
  {
    if |s| == 0 then -1
    else if idOf(s[0]) == id then 0
    else
      var k := FindIndex(s[1..], idOf, id);
      if k == -1 then -1 else k + 1
  }

  /** `const index = xs.findIndex(x => x.id === item.id);
       if (index !== -1) xs[index] = item;` */
  function ReplaceFirst<T>(s: seq<T>, idOf: T -> string, item: T): (r: seq<T>)
    ensures |r| == |s|
    ensures (forall j :: 0 <= j < |s| ==> idOf(s[j]) != idOf(item)) ==> r == s
    ensures forall i :: IsFirstMatch(s, idOf, idOf(item), i) ==> r == s[i := item]
  {
    var i := FindIndex(s, idOf, idOf(item));
    if i == -1 then s else s[i := item]
  }

  /** `xs.filter(x => x.id !== id)`. */
  function RemoveAll<T>(s: seq<T>, idOf: T -> string, id: string): (r: seq<T>)
    ensures |r| <= |s|
    ensures forall i :: 0 <= i < |r| ==> r[i] in s && idOf(r[i]) != id
    ensures forall i :: 0 <= i < |s| && idOf(s[i]) != id ==> s[i] in r
    decreases |s|
  {
    if |s| == 0 then []
    else if idOf(s[0]) == id then RemoveAll(s[1..], idOf, id)
    else [s[0]] + RemoveAll(s[1..], idOf, id)
  }

  /** The ids of a list, in order. */
  function Ids<T>(s: seq<T>, idOf: T -> string): (r: seq<string>)
    ensures |r| == |s|
    ensures forall i :: 0 <= i < |s| ==> r[i] == idOf(s[i])
  {
    seq(|s|, i requires 0 <= i < |s| => idOf(s[i]))
  }

  /** Replacing by id never changes which ids the list holds, nor where. */
  lemma ReplaceFirstKeepsIds<T>(s: seq<T>, idOf: T -> string, item: T)
    ensures Ids(ReplaceFirst(s, idOf, item), idOf) == Ids(s, idOf)
  {
    var i := FindIndex(s, idOf, idOf(item));
    if i != -1 {
      assert ReplaceFirst(s, idOf, item) == s[i := item];
    }
  }

  /** Replacing the same record twice is replacing it once. */
  lemma ReplaceFirstIdempotent<T>(s: seq<T>, idOf: T -> string, item: T)
    ensures ReplaceFirst(ReplaceFirst(s, idOf, item), idOf, item) == ReplaceFirst(s, idOf, item)
  {
    var i := FindIndex(s, idOf, idOf(item));
    if i != -1 {
      var r := s[i := item];
      assert IsFirstMatch(r, idOf, idOf(item), i);
      assert r[i := item] == r;
    }
  }

  /** Every record stays in place except the first one with the item's id. */
  lemma ReplaceFirstElsewhere<T>(s: seq<T>, idOf: T -> string, item: T, j: nat)
    requires j < |s|
    requires !IsFirstMatch(s, idOf, idOf(item), j)
    ensures ReplaceFirst(s, idOf, item)[j] == s[j]
  {
  }

  /** Filtering distributes over concatenation, so the kept records keep
      their relative order. */
  lemma {:induction false} RemoveAllConcat<T>(a: seq<T>, b: seq<T>, idOf: T -> string, id: string)
    ensures RemoveAll(a + b, idOf, id) == RemoveAll(a, idOf, id) + RemoveAll(b, idOf, id)
    decreases |a|
  {
    if |a| == 0 {
      assert a + b == b;
    } else {
      assert (a + b)[1..] == a[1..] + b;
      RemoveAllConcat(a[1..], b, idOf, id);
    }
  }

  /** Filtering by an id nobody has changes nothing. */
  lemma {:induction false} RemoveAllAbsent<T>(s: seq<T>, idOf: T -> string, id: string)
    requires forall j :: 0 <= j < |s| ==> idOf(s[j]) != id
    ensures RemoveAll(s, idOf, id) == s
    decreases |s|
  {
    if |s| != 0 {
      RemoveAllAbsent(s[1..], idOf, id);
    }
  }

  /** Filtering twice by the same id is filtering once. */
  lemma RemoveAllIdempotent<T>(s: seq<T>, idOf: T -> string, id: string)
    ensures RemoveAll(RemoveAll(s, idOf, id), idOf, id) == RemoveAll(s, idOf, id)
  {
    var r := RemoveAll(s, idOf, id);
    RemoveAllAbsent(r, idOf, id);
  }

  /** Filtering removes exactly as many records as carry the id. */
  lemma {:induction false} RemoveAllCount<T>(s: seq<T>, idOf: T -> string, id: string)
    ensures |RemoveAll(s, idOf, id)| + CountId(s, idOf, id) == |s|
    decreases |s|
  {
    if |s| != 0 {
      RemoveAllCount(s[1..], idOf, id);
    }
  }

  /** How many records carry `id`. */
  function CountId<T>(s: seq<T>, idOf: T -> string, id: string): nat
    decreases |s|
  {
    if |s| == 0 then 0
    else (if idOf(s[0]) == id then 1 else 0) + CountId(s[1..], idOf, id)
  }
}
