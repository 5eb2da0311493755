/** The JavaScript array operations the core uses: `slice(start)` and `filter`. */
module JsArrays {

  /**
   * `a.slice(start)`: a negative start counts from the end (clamped at the front), a start
   * past the end gives the empty array.
   */
  function SliceFrom<T>(a: seq<T>, start: int): (r: seq<T>)
    ensures start < 0 ==> r == a[if |a| + start < 0 then 0 else |a| + start..]
    ensures start >= 0 ==> r == a[if start > |a| then |a| else start..]
  {
    var k := if start < 0 then (if |a| + start < 0 then 0 else |a| + start)
             else (if start > |a| then |a| else start);
    a[k..]
  }

  /** `slice(-limit)` for a positive limit keeps the last `min(limit, |a|)` elements, in order. */
  lemma SliceLast<T>(a: seq<T>, limit: int)
    requires limit >= 1
    ensures |SliceFrom(a, -limit)| == if limit < |a| then limit else |a|
    ensures SliceFrom(a, -limit) == a[|a| - |SliceFrom(a, -limit)|..]
  {
  }

  /** `slice(-0)` is `slice(0)`: a limit of zero returns everything. */
  lemma SliceZero<T>(a: seq<T>)
    ensures SliceFrom(a, -0) == a
  {
  }

  /** `a.filter(f)`: the elements satisfying `f`, in their order. */
  function Filter<T>(a: seq<T>, f: T -> bool): (r: seq<T>)
    ensures |r| <= |a|
    ensures forall i :: 0 <= i < |r| ==> r[i] in a && f(r[i])
    ensures forall i :: 0 <= i < |a| && f(a[i]) ==> a[i] in r
  {
    if |a| == 0 then []
    else (if f(a[0]) then [a[0]] else []) + Filter(a[1..], f)
  }

  /** Filtering distributes over concatenation. */
  lemma {:induction false} FilterAppend<T>(a: seq<T>, b: seq<T>, f: T -> bool)
    ensures Filter(a + b, f) == Filter(a, f) + Filter(b, f)
  {
    if |a| == 0 {
      assert a + b == b;
    } else {
      assert (a + b)[1..] == a[1..] + b;
      FilterAppend(a[1..], b, f);
    }
  }

  /** Filtering one more element adds it at the end exactly when it passes. */
  lemma FilterSnoc<T>(a: seq<T>, x: T, f: T -> bool)
    ensures Filter(a + [x], f) == Filter(a, f) + (if f(x) then [x] else [])
  {
    FilterAppend(a, [x], f);
    assert [x][1..] == [];
  }
}
