/** Generic helpers over sequences, and the Option and Result wrappers used for
    the predictor's error paths. */
module Sequences {

  datatype Option<+T> = None | Some(value: T)

  datatype Result<+T, +E> = Success(value: T) | Failure(error: E)

  function Min(a: int, b: int): int
  {
    if a <= b then a else b
  }

  /** Applies `f` to every element, keeping the order. */
  function MapSeq<A, B>(f: A -> B, s: seq<A>): (r: seq<B>)
    ensures |r| == |s|
    ensures forall k :: 0 <= k < |s| ==> r[k] == f(s[k])
  {
    if |s| == 0 then [] else [f(s[0])] + MapSeq(f, s[1..])
  }

  /** Concatenates the sequences of `ss` in order. */
  function Flatten<A>(ss: seq<seq<A>>): seq<A>
  {
    if |ss| == 0 then [] else ss[0] + Flatten(ss[1..])
  }

  lemma MapSeqAppend<A, B>(f: A -> B, a: seq<A>, b: seq<A>)
    ensures MapSeq(f, a + b) == MapSeq(f, a) + MapSeq(f, b)
  {
  }

  /** Instantiates "keeps lengths" at one argument (the quantifier alone does not
      reach an argument that is itself the result of a function value). */
  lemma KeepsLengthAt<A, B>(p: seq<A> -> seq<B>, t: seq<A>)
    requires forall u :: |p(u)| == |u|
    ensures |p(t)| == |t|
  {
  }

  /** A function that keeps the length of every sequence it is given keeps the
      total length of a concatenation of its results. */
  lemma {:induction false} FlattenMapLength<A, B>(p: seq<A> -> seq<B>, ss: seq<seq<A>>)
    requires forall t :: |p(t)| == |t|
    ensures |Flatten(MapSeq(p, ss))| == |Flatten(ss)|
  {
    if |ss| > 0 {
      assert MapSeq(p, ss)[1..] == MapSeq(p, ss[1..]);
      FlattenMapLength(p, ss[1..]);
    }
  }

  /** A function that acts element by element commutes with concatenation. */
  lemma {:induction false} FlattenMapPerElement<A, B>(p: seq<A> -> seq<B>, f: A -> B, ss: seq<seq<A>>)
    requires forall t :: p(t) == MapSeq(f, t)
    ensures Flatten(MapSeq(p, ss)) == MapSeq(f, Flatten(ss))
  {
    if |ss| > 0 {
      assert MapSeq(p, ss)[1..] == MapSeq(p, ss[1..]);
      FlattenMapPerElement(p, f, ss[1..]);
      MapSeqAppend(f, ss[0], Flatten(ss[1..]));
    }
  }

  lemma MapSeqRemove<A, B>(f: A -> B, s: seq<A>, j: nat)
    requires j < |s|
    ensures multiset(MapSeq(f, s)) == multiset(MapSeq(f, s[..j] + s[j + 1..])) + multiset{f(s[j])}
  {
    var front, back := s[..j], s[j + 1..];
    assert s == front + ([s[j]] + back);
    MapSeqAppend(f, front, [s[j]] + back);
    MapSeqAppend(f, [s[j]], back);
    MapSeqAppend(f, front, back);
    var mf, mb := MapSeq(f, front), MapSeq(f, back);
    assert MapSeq(f, s) == mf + ([f(s[j])] + mb);
    assert multiset(MapSeq(f, s)) == multiset(mf) + multiset{f(s[j])} + multiset(mb);
    assert MapSeq(f, front + back) == mf + mb;
  }

  /** Mapping two permutations of each other gives permutations of each other. */
  lemma {:induction false} MapSeqPermutes<A, B>(f: A -> B, a: seq<A>, b: seq<A>)
    requires multiset(a) == multiset(b)
    ensures multiset(MapSeq(f, a)) == multiset(MapSeq(f, b))
    decreases |a|
  {
    if |a| == 0 {
      assert |b| == |multiset(b)| == 0;
    } else {
      assert a[0] in multiset(b);
      var j :| 0 <= j < |b| && b[j] == a[0];
      var rest := b[..j] + b[j + 1..];
      assert b == b[..j] + [b[j]] + b[j + 1..];
      assert multiset(rest) == multiset(b) - multiset{b[j]};
      assert a == [a[0]] + a[1..];
      assert multiset(a[1..]) == multiset(a) - multiset{a[0]};
      MapSeqPermutes(f, a[1..], rest);
      MapSeqRemove(f, b, j);
      MapSeqRemove(f, a, 0);
      assert a[..0] + a[1..] == a[1..];
    }
  }
}
