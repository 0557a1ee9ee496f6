/** The shape shared by both form layouts: walk a sequence in order, keep
    what each element produces, skip the elements that produce nothing. */
module Seqs {
  import opened Meta

  function OptionToSeq<U>(o: Option<U>): seq<U> {
    match o
    case None => []
    case Some(u) => [u]
  }

  /** The results of f over xs, in order, with the None results dropped.
      Defined from the back, as a layout loop appends. */
  function FilterMap<T, U>(xs: seq<T>, f: T -> Option<U>): seq<U> {
    if xs == [] then [] else FilterMap(xs[..|xs| - 1], f) + OptionToSeq(f(xs[|xs| - 1]))
  }

  /** The positions of xs at which f produces something, ascending. */
  function Producing<T, U>(xs: seq<T>, f: T -> Option<U>): seq<nat> {
    if xs == [] then []
    else Producing(xs[..|xs| - 1], f) + (if f(xs[|xs| - 1]).Some? then [|xs| - 1] else [])
  }

  lemma {:induction false} ProducingBounded<T, U>(xs: seq<T>, f: T -> Option<U>)
    ensures forall i :: 0 <= i < |Producing(xs, f)| ==> Producing(xs, f)[i] < |xs|
  {
    if xs != [] {
      ProducingBounded(xs[..|xs| - 1], f);
    }
  }

  lemma {:induction false} FilterMapLength<T, U>(xs: seq<T>, f: T -> Option<U>)
    ensures |FilterMap(xs, f)| == |Producing(xs, f)|
  {
    if xs != [] {
      FilterMapLength(xs[..|xs| - 1], f);
    }
  }

  lemma {:induction false} ProducingAscends<T, U>(xs: seq<T>, f: T -> Option<U>)
    ensures forall i, j :: 0 <= i < j < |Producing(xs, f)| ==> Producing(xs, f)[i] < Producing(xs, f)[j]
  {
    if xs != [] {
      var init := xs[..|xs| - 1];
      ProducingAscends(init, f);
      ProducingBounded(init, f);
    }
  }

  lemma {:induction false} ProducingComplete<T, U>(xs: seq<T>, f: T -> Option<U>)
    ensures forall j :: 0 <= j < |xs| ==> (f(xs[j]).Some? <==> j in Producing(xs, f))
  {
    if xs != [] {
      var n := |xs| - 1;
      var init := xs[..n];
      ProducingComplete(init, f);
      ProducingBounded(init, f);
      forall j | 0 <= j < |xs| ensures f(xs[j]).Some? <==> j in Producing(xs, f) {
        if j < n {
          assert init[j] == xs[j];
        }
      }
    }
  }

  lemma {:induction false} FilterMapAt<T, U>(xs: seq<T>, f: T -> Option<U>)
    ensures |FilterMap(xs, f)| == |Producing(xs, f)|
    ensures forall i :: 0 <= i < |Producing(xs, f)| ==>
      Producing(xs, f)[i] < |xs| && f(xs[Producing(xs, f)[i]]) == Some(FilterMap(xs, f)[i])
  {
    FilterMapLength(xs, f);
    ProducingBounded(xs, f);
    if xs != [] {
      var n := |xs| - 1;
      var init := xs[..n];
      FilterMapAt(init, f);
      ProducingBounded(init, f);
      var p, r := Producing(init, f), FilterMap(init, f);
      assert forall i :: 0 <= i < |p| ==> init[p[i]] == xs[p[i]];
      forall i | 0 <= i < |Producing(xs, f)|
        ensures f(xs[Producing(xs, f)[i]]) == Some(FilterMap(xs, f)[i])
      {
        if i < |p| {
          assert Producing(xs, f)[i] == p[i];
          assert FilterMap(xs, f)[i] == r[i];
        }
      }
    }
  }

  /** FilterMap keeps exactly one result per producing element, in the
      elements' order: its i-th result is what the i-th producing element
      produced, the producing positions ascend, and every position that
      produces something is among them. */
  lemma FilterMapSpec<T, U>(xs: seq<T>, f: T -> Option<U>)
    ensures |FilterMap(xs, f)| == |Producing(xs, f)|
    ensures forall i :: 0 <= i < |Producing(xs, f)| ==>
      Producing(xs, f)[i] < |xs| && f(xs[Producing(xs, f)[i]]) == Some(FilterMap(xs, f)[i])
    ensures forall i, j :: 0 <= i < j < |Producing(xs, f)| ==> Producing(xs, f)[i] < Producing(xs, f)[j]
    ensures forall j :: 0 <= j < |xs| ==> (f(xs[j]).Some? <==> j in Producing(xs, f))
  {
    FilterMapAt(xs, f);
    ProducingAscends(xs, f);
    ProducingComplete(xs, f);
  }

  /** y is among the results exactly when some element produces it. */
  lemma {:induction false} FilterMapMember<T, U>(xs: seq<T>, f: T -> Option<U>, y: U)
    ensures y in FilterMap(xs, f) <==> exists j :: 0 <= j < |xs| && f(xs[j]) == Some(y)
  {
    if xs != [] {
      var n := |xs| - 1;
      var init := xs[..n];
      FilterMapMember(init, f, y);
      if y in FilterMap(xs, f) && y !in FilterMap(init, f) {
        assert f(xs[n]) == Some(y);
      }
      if j :| 0 <= j < |xs| && f(xs[j]) == Some(y) {
        if j < n {
          assert init[j] == xs[j];
        }
      }
    }
  }

  /** FilterMap read from the front. */
  lemma {:induction false} FilterMapCons<T, U>(x: T, xs: seq<T>, f: T -> Option<U>)
    ensures FilterMap([x] + xs, f) == OptionToSeq(f(x)) + FilterMap(xs, f)
  {
    if xs == [] {
      assert ([x] + xs)[..0] == [];
    } else {
      var n := |xs| - 1;
      assert ([x] + xs)[..|xs|] == [x] + xs[..n];
      FilterMapCons(x, xs[..n], f);
    }
  }
}
