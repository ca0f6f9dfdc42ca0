/**
 * The array operations the components apply to their state lists:
 * `Array.prototype.filter`, `find`, the "replace the element with this `_id`"
 * idiom `xs.map(x => x._id === y._id ? y : x)`, and `splice(i, 1)`.
 */
module Lists {
  import opened Wrappers

  /** `xs.filter(keep)`. */
  function Filter<T(!new)>(xs: seq<T>, keep: T -> bool): (r: seq<T>)
    ensures |r| <= |xs|
    ensures forall x :: x in r <==> x in xs && keep(x)
  {
    if xs == [] then []
    else
      var rest := Filter(xs[1..], keep);
      assert xs == [xs[0]] + xs[1..];
      if keep(xs[0]) then [xs[0]] + rest else rest
  }

  /** Filtering a list with a given head: the head if it passes, then the filtered tail. */
  lemma FilterCons<T(!new)>(y: T, t: seq<T>, keep: T -> bool)
    ensures Filter([y] + t, keep) == (if keep(y) then [y] else []) + Filter(t, keep)
  {
    assert ([y] + t)[1..] == t;
  }

  /** Filtering keeps the input order: it distributes over concatenation. */
  lemma {:induction false} FilterAppend<T(!new)>(a: seq<T>, b: seq<T>, keep: T -> bool)
    ensures Filter(a + b, keep) == Filter(a, keep) + Filter(b, keep)
  {
    if a == [] {
      assert a + b == b;
    } else {
      assert (a + b)[0] == a[0];
      assert (a + b)[1..] == a[1..] + b;
      FilterAppend(a[1..], b, keep);
    }
  }

  /** Filtering keeps every passing element as often as the input holds it, and drops the rest. */
  lemma {:induction false} FilterCount<T(!new)>(xs: seq<T>, keep: T -> bool, x: T)
    ensures multiset(Filter(xs, keep))[x] == if keep(x) then multiset(xs)[x] else 0
  {
    if xs != [] {
      assert xs == [xs[0]] + xs[1..];
      FilterCount(xs[1..], keep, x);
    }
  }

  /** A list all of whose elements pass is returned unchanged. */
  lemma {:induction false} FilterKeepsAll<T(!new)>(xs: seq<T>, keep: T -> bool)
    requires forall x :: x in xs ==> keep(x)
    ensures Filter(xs, keep) == xs
  {
    if xs != [] {
      FilterKeepsAll(xs[1..], keep);
    }
  }

  /** Filtering twice with the same test is filtering once. */
  lemma FilterIdempotent<T(!new)>(xs: seq<T>, keep: T -> bool)
    ensures Filter(Filter(xs, keep), keep) == Filter(xs, keep)
  {
    FilterKeepsAll(Filter(xs, keep), keep);
  }

  /** `xs.find(p)`: the first element that passes, if any. */
  function Find<T>(xs: seq<T>, p: T -> bool): (r: Option<T>)
    ensures r.None? <==> forall i :: 0 <= i < |xs| ==> !p(xs[i])
    ensures r.Some? ==> exists i :: 0 <= i < |xs| && xs[i] == r.value && p(xs[i]) &&
                                    forall j :: 0 <= j < i ==> !p(xs[j])
  {
    if xs == [] then None
    else if p(xs[0]) then Some(xs[0])
    else
      var r := Find(xs[1..], p);
      assert forall i :: 1 <= i < |xs| ==> xs[i] == xs[1..][i - 1];
      r
  }

  /** `xs.some(p)`. */
  predicate AnyMatch<T>(xs: seq<T>, p: T -> bool) {
    exists i :: 0 <= i < |xs| && p(xs[i])
  }

  /** The `_id`s of a list, in order. */
  function Ids<T>(xs: seq<T>, id: T -> string): (r: seq<string>)
    ensures |r| == |xs|
    ensures forall i :: 0 <= i < |xs| ==> r[i] == id(xs[i])
  {
    seq(|xs|, i requires 0 <= i < |xs| => id(xs[i]))
  }

  /** No two elements of the list share an `_id`. */
  ghost predicate UniqueIds<T>(xs: seq<T>, id: T -> string) {
    forall i, j :: 0 <= i < j < |xs| ==> id(xs[i]) != id(xs[j])
  }

  /** `xs.map(x => x._id === y._id ? y : x)`. */
  function ReplaceById<T>(xs: seq<T>, id: T -> string, y: T): (r: seq<T>)
    ensures |r| == |xs|
    ensures forall i :: 0 <= i < |xs| ==> r[i] == if id(xs[i]) == id(y) then y else xs[i]
  {
    if xs == [] then []
    else [if id(xs[0]) == id(y) then y else xs[0]] + ReplaceById(xs[1..], id, y)
  }

  /** Replacing by `_id` never changes which ids the list holds, nor their order. */
  lemma ReplaceByIdKeepsIds<T>(xs: seq<T>, id: T -> string, y: T)
    ensures Ids(ReplaceById(xs, id, y), id) == Ids(xs, id)
  {
  }

  /** An id the list does not hold leaves it unchanged. */
  lemma ReplaceByIdAbsent<T>(xs: seq<T>, id: T -> string, y: T)
    requires forall i :: 0 <= i < |xs| ==> id(xs[i]) != id(y)
    ensures ReplaceById(xs, id, y) == xs
  {
  }

  /** Replacing distributes over concatenation. */
  lemma {:induction false} ReplaceByIdAppend<T>(a: seq<T>, b: seq<T>, id: T -> string, y: T)
    ensures ReplaceById(a + b, id, y) == ReplaceById(a, id, y) + ReplaceById(b, id, y)
  {
    if a != [] {
      assert (a + b)[1..] == a[1..] + b;
      ReplaceByIdAppend(a[1..], b, id, y);
    } else {
      assert a + b == b;
    }
  }

  /** When ids are unique and `y`'s id sits at index k, exactly that one entry is replaced. */
  lemma ReplaceByIdExactlyOne<T>(xs: seq<T>, id: T -> string, y: T, k: nat)
    requires UniqueIds(xs, id)
    requires k < |xs| && id(xs[k]) == id(y)
    ensures ReplaceById(xs, id, y) == xs[k := y]
  {
    var r := ReplaceById(xs, id, y);
    forall i | 0 <= i < |xs|
      ensures r[i] == xs[k := y][i]
    {
      if i < k {
        assert id(xs[i]) != id(xs[k]);
      } else if k < i {
        assert id(xs[k]) != id(xs[i]);
      }
    }
  }

  /** Filtering keeps the ids unique. */
  lemma {:induction false} FilterKeepsUniqueIds<T(!new)>(xs: seq<T>, id: T -> string, keep: T -> bool)
    requires UniqueIds(xs, id)
    ensures UniqueIds(Filter(xs, keep), id)
  {
    if xs != [] {
      var rest := Filter(xs[1..], keep);
      FilterKeepsUniqueIds(xs[1..], id, keep);
      if keep(xs[0]) {
        forall j | 0 <= j < |rest|
          ensures id(xs[0]) != id(rest[j])
        {
          assert rest[j] in xs[1..];
          var k :| 0 <= k < |xs[1..]| && xs[1..][k] == rest[j];
          assert xs[k + 1] == rest[j];
        }
      }
    }
  }

  /** `xs.splice(i, 1)` on a copy: element i leaves, later elements move down one place. */
  function RemoveAt<T>(xs: seq<T>, i: nat): (r: seq<T>)
    requires i < |xs|
    ensures |r| == |xs| - 1
    ensures forall j :: 0 <= j < i ==> r[j] == xs[j]
    ensures forall j :: i <= j < |r| ==> r[j] == xs[j + 1]
  {
    xs[..i] + xs[i + 1..]
  }

  /** Removing the element just appended gives back the list before the append. */
  lemma RemoveAtUndoesAppend<T>(xs: seq<T>, x: T)
    ensures RemoveAt(xs + [x], |xs|) == xs
  {
  }

  /** Removing an element just overwritten is removing the original element. */
  lemma RemoveAtAfterUpdate<T>(xs: seq<T>, i: nat, x: T)
    requires i < |xs|
    ensures RemoveAt(xs[i := x], i) == RemoveAt(xs, i)
  {
    assert xs[i := x][..i] == xs[..i];
    assert xs[i := x][i + 1..] == xs[i + 1..];
  }
}
