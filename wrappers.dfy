/** Optional values, used where the scripts return `null`/`undefined` or a regex finds nothing. */
module Wrappers {
  datatype Option<T> = None | Some(value: T)

  /** The value as a list of zero or one element (what a guarded `push` adds). */
  function ToSeq<T>(o: Option<T>): (r: seq<T>)
    ensures |r| <= 1 && (o.Some? <==> |r| == 1)
  {
    match o
    case None => []
    case Some(x) => [x]
  }

  /** Appending the list of an optional value adds that value and nothing else. */
  lemma AppendToSeq<T>(xs: seq<T>, o: Option<T>)
    ensures |xs + ToSeq(o)| <= |xs| + 1
    ensures forall x :: x in xs + ToSeq(o) <==> x in xs || o == Some(x)
  {
  }

  /** The present values of a sequence of optional values, in order (what a loop of guarded pushes builds). */
  function Somes<T>(os: seq<Option<T>>): seq<T>
    decreases |os|
  {
    if os == [] then []
    else Somes(os[..|os| - 1]) + ToSeq(os[|os| - 1])
  }

  /** Every present value is kept, and nothing else is, one value at most per entry. */
  lemma {:induction false} SomesExactly<T>(os: seq<Option<T>>)
    ensures |Somes(os)| <= |os|
    ensures forall i :: 0 <= i < |os| && os[i].Some? ==> os[i].value in Somes(os)
    ensures forall x :: x in Somes(os) ==> exists i :: 0 <= i < |os| && os[i] == Some(x)
    decreases |os|
  {
    if os != [] {
      var init := os[..|os| - 1];
      SomesExactly(init);
      AppendToSeq(Somes(init), os[|os| - 1]);
      forall i | 0 <= i < |os| && os[i].Some?
        ensures os[i].value in Somes(os)
      {
        if i < |os| - 1 {
          assert os[i] == init[i];
        }
      }
      forall x | x in Somes(os)
        ensures exists i :: 0 <= i < |os| && os[i] == Some(x)
      {
        if x in Somes(init) {
          var i :| 0 <= i < |init| && init[i] == Some(x);
          assert os[i] == init[i];
        } else {
          assert os[|os| - 1] == Some(x);
        }
      }
    }
  }

  /** The pieces `f` gives for the elements, concatenated in order (a loop of `+=`). */
  function FlatMap<T, U>(xs: seq<T>, f: T -> seq<U>): seq<U>
    decreases |xs|
  {
    if xs == [] then [] else FlatMap(xs[..|xs| - 1], f) + f(xs[|xs| - 1])
  }

  lemma FlatMapOne<T, U>(x: T, f: T -> seq<U>)
    ensures FlatMap([x], f) == f(x)
  {
    assert [x][..0] == [];
  }

  /** The pieces of two lists one after the other are the pieces of the joined list. */
  lemma {:induction false} FlatMapAppend<T, U>(a: seq<T>, b: seq<T>, f: T -> seq<U>)
    ensures FlatMap(a + b, f) == FlatMap(a, f) + FlatMap(b, f)
    decreases |b|
  {
    if b == [] {
      assert a + b == a;
    } else {
      var b' := b[..|b| - 1];
      assert (a + b)[..|a + b| - 1] == a + b';
      FlatMapAppend(a, b', f);
    }
  }
}
