/** The output folder's basename: the generator's name followed by one
    `key` + `value` component per architecture parameter, keys in sorted
    order, all joined with '-' (`Predictor._make_basename`,
    ISR/predict/predictor.py:98-104).

    The parameter dictionary is modelled by its items in insertion order, each
    value already rendered as the text `'{}'.format` gives it. */
module Basename {
  import opened Sequences

  type Params = seq<(string, string)>

  /** Code-point lexicographic order on strings, the order `np.sort` uses for
      an array of strings. */
  predicate Le(a: string, b: string)
    decreases |a|
  {
    |a| == 0 || (|b| > 0 && (a[0] < b[0] || (a[0] == b[0] && Le(a[1..], b[1..]))))
  }

  lemma {:induction false} LeTotal(a: string, b: string)
    ensures Le(a, b) || Le(b, a)
    decreases |a|
  {
    if |a| > 0 && |b| > 0 && a[0] == b[0] {
      LeTotal(a[1..], b[1..]);
    }
  }

  lemma {:induction false} LeReflexive(a: string)
    ensures Le(a, a)
    decreases |a|
  {
    if |a| > 0 {
      LeReflexive(a[1..]);
    }
  }

  lemma {:induction false} LeAntisymmetric(a: string, b: string)
    requires Le(a, b) && Le(b, a)
    ensures a == b
    decreases |a|
  {
    if |a| > 0 {
      LeAntisymmetric(a[1..], b[1..]);
      assert a == [a[0]] + a[1..] && b == [b[0]] + b[1..];
    }
  }

  lemma {:induction false} LeTransitive(a: string, b: string, c: string)
    requires Le(a, b) && Le(b, c)
    ensures Le(a, c)
    decreases |a|
  {
    if |a| > 0 && a[0] == b[0] && b[0] == c[0] {
      LeTransitive(a[1..], b[1..], c[1..]);
    }
  }

  predicate Sorted(s: seq<string>)
  {
    forall i, j :: 0 <= i < j < |s| ==> Le(s[i], s[j])
  }

  function Insert(k: string, s: seq<string>): seq<string>
  {
    if |s| == 0 then [k]
    else if Le(k, s[0]) then [k] + s
    else [s[0]] + Insert(k, s[1..])
  }

  /** The model of `np.sort` on the list of keys (an insertion sort). */
  function Sort(s: seq<string>): seq<string>
  {
    if |s| == 0 then [] else Insert(s[0], Sort(s[1..]))
  }

  lemma {:induction false} InsertPermutes(k: string, s: seq<string>)
    ensures multiset(Insert(k, s)) == multiset(s) + multiset{k}
  {
    if |s| > 0 && !Le(k, s[0]) {
      InsertPermutes(k, s[1..]);
      assert s == [s[0]] + s[1..];
    }
  }

  lemma {:induction false} InsertSorted(k: string, s: seq<string>)
    requires Sorted(s)
    ensures Sorted(Insert(k, s))
  {
    if |s| == 0 {
    } else if Le(k, s[0]) {
      forall j | 0 <= j < |s|
        ensures Le(k, s[j])
      {
        if j > 0 { LeTransitive(k, s[0], s[j]); }
      }
    } else {
      LeTotal(k, s[0]);
      var t := Insert(k, s[1..]);
      InsertSorted(k, s[1..]);
      InsertPermutes(k, s[1..]);
      forall j | 0 <= j < |t|
        ensures Le(s[0], t[j])
      {
        assert t[j] in multiset(t);
        if t[j] != k {
          assert t[j] in multiset(s[1..]);
          var m :| 0 <= m < |s[1..]| && s[1..][m] == t[j];
          assert s[m + 1] == t[j];
        }
      }
    }
  }

  /** The sorted keys are a sorted permutation of the keys. */
  lemma {:induction false} SortCorrect(s: seq<string>)
    ensures Sorted(Sort(s))
    ensures multiset(Sort(s)) == multiset(s)
  {
    if |s| > 0 {
      SortCorrect(s[1..]);
      InsertSorted(s[0], Sort(s[1..]));
      InsertPermutes(s[0], Sort(s[1..]));
      assert s == [s[0]] + s[1..];
    }
  }

  /** Two sorted sequences holding the same strings are the same sequence. */
  lemma {:induction false} SortedUnique(a: seq<string>, b: seq<string>)
    requires Sorted(a) && Sorted(b)
    requires multiset(a) == multiset(b)
    ensures a == b
    decreases |a|
  {
    if |a| == 0 {
      assert |b| == |multiset(b)| == 0;
    } else {
      assert |b| == |multiset(b)| == |multiset(a)| == |a|;
      assert a[0] in multiset(b) && b[0] in multiset(a);
      var i :| 0 <= i < |b| && b[i] == a[0];
      var j :| 0 <= j < |a| && a[j] == b[0];
      LeReflexive(a[0]);
      LeReflexive(b[0]);
      assert Le(b[0], b[i]) && Le(a[0], a[j]);
      LeAntisymmetric(a[0], b[0]);
      assert a == [a[0]] + a[1..] && b == [b[0]] + b[1..];
      assert multiset(a) == multiset{a[0]} + multiset(a[1..]);
      assert multiset(b) == multiset{b[0]} + multiset(b[1..]);
      assert multiset(a[1..]) == multiset(a) - multiset{a[0]};
      assert multiset(b[1..]) == multiset(b) - multiset{b[0]};
      SortedUnique(a[1..], b[1..]);
    }
  }

  /** `list(params.keys())`: the keys in insertion order. */
  function Keys(params: Params): seq<string>
  {
    MapSeq((p: (string, string)) => p.0, params)
  }

  /** `params[key]`; a missing key cannot occur where it is used. */
  function Lookup(params: Params, key: string): string
  {
    if |params| == 0 then ""
    else if params[0].0 == key then params[0].1
    else Lookup(params[1..], key)
  }

  /** A Python dictionary has no repeated key. */
  predicate DistinctKeys(params: Params)
  {
    forall i, j :: 0 <= i < j < |params| ==> params[i].0 != params[j].0
  }

  /** `sep.join(parts)`. */
  function Join(sep: string, parts: seq<string>): string
  {
    if |parts| == 0 then ""
    else if |parts| == 1 then parts[0]
    else parts[0] + sep + Join(sep, parts[1..])
  }

  /** One `key` + `value` component per key, in sorted key order. */
  function Components(params: Params): seq<string>
  {
    MapSeq((k: string) => k + Lookup(params, k), Sort(Keys(params)))
  }

  /** The basename `_make_basename` returns. */
  function Basename(name: string, params: Params): string
  {
    Join("-", [name] + Components(params))
  }

  /** `_make_basename`: starts the list with the name, appends one component per
      sorted key, then joins the list with '-'. */
  method MakeBasename(name: string, params: Params) returns (basename: string)
    ensures basename == Basename(name, params)
  {
    var parts := [name];
    var keys := Sort(Keys(params));
    for j := 0 to |keys|
      invariant parts == [name] + MapSeq((k: string) => k + Lookup(params, k), keys[..j])
    {
      assert keys[..j + 1] == keys[..j] + [keys[j]];
      MapSeqAppend((k: string) => k + Lookup(params, k), keys[..j], [keys[j]]);
      parts := parts + [keys[j] + Lookup(params, keys[j])];
    }
    assert keys[..|keys|] == keys;
    basename := Join("-", parts);
  }

  /** With no parameters the basename is the generator's name alone; otherwise
      it is the name, '-', and the components joined with '-', where component
      `j` is the `j`-th smallest key followed by its value. */
  lemma BasenameShape(name: string, params: Params)
    ensures |params| == 0 ==> Basename(name, params) == name
    ensures |params| > 0 ==> Basename(name, params) == name + "-" + Join("-", Components(params))
    ensures |Components(params)| == |params|
    ensures Sorted(Sort(Keys(params)))
    ensures multiset(Sort(Keys(params))) == multiset(Keys(params))
    ensures forall j :: 0 <= j < |params| ==>
      Components(params)[j] == Sort(Keys(params))[j] + Lookup(params, Sort(Keys(params))[j])
  {
    SortCorrect(Keys(params));
    assert |Sort(Keys(params))| == |multiset(Sort(Keys(params)))| == |Keys(params)|;
    if |params| > 0 {
      assert ([name] + Components(params))[1..] == Components(params);
    }
  }

  /** In a dictionary, the value stored under the key of item `i` is that item's value. */
  lemma {:induction false} LookupItem(params: Params, i: nat)
    requires DistinctKeys(params)
    requires i < |params|
    ensures Lookup(params, params[i].0) == params[i].1
  {
    if i > 0 {
      assert params[1..][i - 1] == params[i];
      LookupItem(params[1..], i - 1);
    }
  }

  /** The basename does not depend on the order in which the parameters were
      inserted into the dictionary. */
  lemma BasenameOrderIndependent(name: string, p1: Params, p2: Params)
    requires DistinctKeys(p1) && DistinctKeys(p2)
    requires multiset(p1) == multiset(p2)
    ensures Basename(name, p1) == Basename(name, p2)
  {
    var k1, k2 := Sort(Keys(p1)), Sort(Keys(p2));
    SortCorrect(Keys(p1));
    SortCorrect(Keys(p2));
    MapSeqPermutes((p: (string, string)) => p.0, p1, p2);
    SortedUnique(k1, k2);
    forall j | 0 <= j < |k1|
      ensures Lookup(p1, k1[j]) == Lookup(p2, k1[j])
    {
      assert k1[j] in multiset(Keys(p1));
      var i :| 0 <= i < |p1| && Keys(p1)[i] == k1[j];
      assert p1[i] in multiset(p2);
      var m :| 0 <= m < |p2| && p2[m] == p1[i];
      LookupItem(p1, i);
      LookupItem(p2, m);
    }
    assert Components(p1) == Components(p2);
  }
}
