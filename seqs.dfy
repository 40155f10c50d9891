/** Sequence helpers shared by the aggregation layer: one-level flattening,
    an order-preserving map, and `unpackArray` (map then flatten). */
module Seqs {

  datatype Option<+T> = None | Some(value: T)

  /** Concatenates the inner sequences in order (lodash `_.flatten` on an
      array of arrays). */
  function Flatten<T>(ss: seq<seq<T>>): seq<T>
  {
    if |ss| == 0 then [] else ss[0] + Flatten(ss[1..])
  }

  /** Sum of the lengths of the inner sequences. */
  function SumLengths<T>(ss: seq<seq<T>>): nat
  {
    if |ss| == 0 then 0 else |ss[0]| + SumLengths(ss[1..])
  }

  /** Order-preserving map (`Array.prototype.map`, and `bluebird.map` once
      its results are joined in input order). */
  function MapSeq<A, B>(f: A -> B, s: seq<A>): (r: seq<B>)
    ensures |r| == |s|
    ensures forall i :: 0 <= i < |s| ==> r[i] == f(s[i])
  {
    seq(|s|, i requires 0 <= i < |s| => f(s[i]))
  }

  /** `unpackArray(datas, unpack)`: map every response to its list, then
      flatten one level. */
  function UnpackArray<A, B>(datas: seq<A>, unpack: A -> seq<B>): (r: seq<B>)
    ensures |r| == SumLengths(MapSeq(unpack, datas))
  {
    FlattenLength(MapSeq(unpack, datas));
    Flatten(MapSeq(unpack, datas))
  }

  lemma {:induction false} FlattenLength<T>(ss: seq<seq<T>>)
    ensures |Flatten(ss)| == SumLengths(ss)
  {
    if |ss| > 0 {
      FlattenLength(ss[1..]);
    }
  }

  lemma {:induction false} FlattenAppend<T>(a: seq<seq<T>>, b: seq<seq<T>>)
    ensures Flatten(a + b) == Flatten(a) + Flatten(b)
  {
    if |a| == 0 {
      assert a + b == b;
    } else {
      assert (a + b)[1..] == a[1..] + b;
      FlattenAppend(a[1..], b);
    }
  }

  /** Flattening lists that are all empty gives the empty list. */
  lemma {:induction false} FlattenAllEmpty<T>(ss: seq<seq<T>>)
    ensures (forall i :: 0 <= i < |ss| ==> ss[i] == []) ==> Flatten(ss) == []
  {
    if |ss| > 0 {
      FlattenAllEmpty(ss[1..]);
    }
  }

  /** Mapping every inner sequence and then flattening is flattening and then
      mapping. */
  lemma {:induction false} FlattenMapInner<A, B>(g: A -> B, ss: seq<seq<A>>, ts: seq<seq<B>>)
    requires |ts| == |ss|
    requires forall i :: 0 <= i < |ss| ==> ts[i] == MapSeq(g, ss[i])
    ensures Flatten(ts) == MapSeq(g, Flatten(ss))
  {
    if |ss| > 0 {
      FlattenMapInner(g, ss[1..], ts[1..]);
    }
  }

  /** `unpackArray` is a homomorphism: unpacking a concatenation is the
      concatenation of the unpacked halves, so the order of the responses
      is the order of the output. */
  lemma UnpackArrayAppend<A, B>(a: seq<A>, b: seq<A>, unpack: A -> seq<B>)
    ensures UnpackArray(a + b, unpack) == UnpackArray(a, unpack) + UnpackArray(b, unpack)
  {
    assert MapSeq(unpack, a + b) == MapSeq(unpack, a) + MapSeq(unpack, b);
    FlattenAppend(MapSeq(unpack, a), MapSeq(unpack, b));
  }

  /** When every response carries exactly one record, `unpackArray` is a plain
      order-preserving map. */
  lemma {:induction false} UnpackArraySingletons<A, B>(datas: seq<A>, unpack: A -> seq<B>, g: A -> B)
    requires forall i :: 0 <= i < |datas| ==> unpack(datas[i]) == [g(datas[i])]
    ensures UnpackArray(datas, unpack) == MapSeq(g, datas)
  {
    if |datas| > 0 {
      UnpackArraySingletons(datas[1..], unpack, g);
      assert MapSeq(unpack, datas)[1..] == MapSeq(unpack, datas[1..]);
      assert MapSeq(g, datas) == [g(datas[0])] + MapSeq(g, datas[1..]);
    }
  }
}
