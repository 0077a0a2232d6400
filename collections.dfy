/** The Python list and dict idioms the FeaR scripts use: first-seen
    de-duplication (`if x not in l: l.append(x)`), dictionaries filled in a
    loop where the first or the last row for a key wins, and the
    insertion-ordered dictionary of Python 3.7. */
module Collections {

  datatype Option<T> = None | Some(value: T)

  predicate NoDuplicates<T(==)>(s: seq<T>) {
    forall i, j :: 0 <= i < j < |s| ==> s[i] != s[j]
  }

  /** Index of the first occurrence of `x` in `xs`. */
  function FirstIndex<T(==)>(xs: seq<T>, x: T): (r: nat)
    requires x in xs
    ensures r < |xs| && xs[r] == x && x !in xs[..r]
  {
    if xs[0] == x then 0
    else
      var k := FirstIndex(xs[1..], x);
      assert xs[..k + 1] == [xs[0]] + xs[1..][..k];
      k + 1
  }

  lemma {:induction false} FirstIndexAppend<T>(xs: seq<T>, y: T, x: T)
    requires x in xs + [y]
    ensures x in xs ==> FirstIndex(xs + [y], x) == FirstIndex(xs, x)
    ensures x !in xs ==> FirstIndex(xs + [y], x) == |xs|
  {
    var i := FirstIndex(xs + [y], x);
    if x in xs {
      var j := FirstIndex(xs, x);
      assert (xs + [y])[j] == x;
      assert (xs + [y])[..j] == xs[..j];
    } else {
      assert (xs + [y])[..|xs|] == xs;
    }
  }

  /** Appending `s` to `q`, and perhaps to a list kept in the order of `q`,
      keeps that list in the order of `xs == q + [s]` (the step of
      `DedupOrdered` and `PresentOrdered`). */
  lemma OrderedSnoc<T>(q: seq<T>, s: T, xs: seq<T>, prev: seq<T>, next: seq<T>)
    requires xs == q + [s]
    requires next == prev || (next == prev + [s] && s !in q)
    requires forall t :: t in prev ==> t in q
    requires forall i, j :: 0 <= i < j < |prev| ==> FirstIndex(q, prev[i]) < FirstIndex(q, prev[j])
    ensures forall t :: t in next ==> t in xs
    ensures forall i, j :: 0 <= i < j < |next| ==> FirstIndex(xs, next[i]) < FirstIndex(xs, next[j])
  {
    forall i, j | 0 <= i < j < |next| ensures FirstIndex(xs, next[i]) < FirstIndex(xs, next[j]) {
      assert next[i] == prev[i];
      FirstIndexKept(q, s, prev[i]);
      if j < |prev| {
        assert next[j] == prev[j];
        FirstIndexKept(q, s, prev[j]);
      } else {
        FirstIndexAppend(q, s, s);
      }
    }
  }

  /** A list whose elements have strictly increasing first indexes in `q`
      holds each of them once (used for the report sections, `PresentOrdered`). */
  lemma OrderedDistinct<T>(q: seq<T>, p: seq<T>)
    requires forall t :: t in p ==> t in q
    requires forall i, j :: 0 <= i < j < |p| ==> FirstIndex(q, p[i]) < FirstIndex(q, p[j])
    ensures NoDuplicates(p)
  {
    forall i, j | 0 <= i < j < |p| ensures p[i] != p[j] {
      assert FirstIndex(q, p[i]) < FirstIndex(q, p[j]);
    }
  }

  /** An element already in `q` keeps its first index when `s` is appended. */
  lemma FirstIndexKept<T>(q: seq<T>, s: T, t: T)
    requires t in q
    ensures FirstIndex(q + [s], t) == FirstIndex(q, t) < |q|
  {
    FirstIndexAppend(q, s, t);
  }

  /** What first-seen de-duplication leaves: each element once, in the order
      of its first occurrence. */
  function Dedup<T(==)>(xs: seq<T>): seq<T>
    decreases |xs|
  {
    if |xs| == 0 then []
    else
      var d := Dedup(xs[..|xs| - 1]);
      if xs[|xs| - 1] in d then d else d + [xs[|xs| - 1]]
  }

  /** The de-duplicated list holds each element of `xs` exactly once and
      nothing else. */
  lemma {:induction false} DedupMembers<T>(xs: seq<T>)
    ensures NoDuplicates(Dedup(xs))
    ensures forall x :: x in Dedup(xs) ==> x in xs
    ensures forall x :: x in xs ==> x in Dedup(xs)
    decreases |xs|
  {
    if |xs| > 0 {
      var p := xs[..|xs| - 1];
      assert xs == p + [xs[|xs| - 1]];
      DedupMembers(p);
    }
  }

  /** The de-duplicated list keeps the order in which the elements first
      appear in `xs`. */
  lemma {:induction false} DedupOrdered<T>(xs: seq<T>)
    ensures forall i, j :: 0 <= i < j < |Dedup(xs)| ==>
      Dedup(xs)[i] in xs && Dedup(xs)[j] in xs &&
      FirstIndex(xs, Dedup(xs)[i]) < FirstIndex(xs, Dedup(xs)[j])
    decreases |xs|
  {
    DedupMembers(xs);
    if |xs| > 0 {
      var p := xs[..|xs| - 1];
      var y := xs[|xs| - 1];
      assert xs == p + [y];
      DedupOrdered(p);
      DedupMembers(p);
      DedupSnoc(p, y);
      OrderedSnoc(p, y, xs, Dedup(p), Dedup(xs));
    }
  }

  /** Appending an element to a de-duplicated list when it is not yet
      there. */
  lemma DedupSnoc<T>(xs: seq<T>, x: T)
    ensures Dedup(xs + [x]) == if x in Dedup(xs) then Dedup(xs) else Dedup(xs) + [x]
  {
    assert (xs + [x])[..|xs|] == xs;
  }

  /** `[f(x) for x in xs]` */
  function MapSeq<A, B>(f: A -> B, xs: seq<A>): seq<B>
    decreases |xs|
  {
    if |xs| == 0 then [] else MapSeq(f, xs[..|xs| - 1]) + [f(xs[|xs| - 1])]
  }

  /** One result per element, in order. */
  lemma {:induction false} MapSeqSpec<A, B>(f: A -> B, xs: seq<A>)
    ensures |MapSeq(f, xs)| == |xs|
    ensures forall i :: 0 <= i < |xs| ==> MapSeq(f, xs)[i] == f(xs[i])
    decreases |xs|
  {
    if |xs| > 0 {
      var prefix := xs[..|xs| - 1];
      MapSeqSpec(f, prefix);
      assert forall i :: 0 <= i < |prefix| ==> prefix[i] == xs[i];
    }
  }

  /** The map a loop builds with `if k not in d: d[k] = v`. */
  function FirstWins<V>(entries: seq<(string, V)>): map<string, V>
    decreases |entries|
  {
    if |entries| == 0 then map[]
    else
      var m := FirstWins(entries[..|entries| - 1]);
      var e := entries[|entries| - 1];
      if e.0 in m then m else m[e.0 := e.1]
  }

  /** The map a loop builds with `d[k] = v`. */
  function LastWins<V>(entries: seq<(string, V)>): map<string, V>
    decreases |entries|
  {
    if |entries| == 0 then map[]
    else
      var e := entries[|entries| - 1];
      LastWins(entries[..|entries| - 1])[e.0 := e.1]
  }

  function KeysOf<V>(entries: seq<(string, V)>): (r: seq<string>)
    ensures |r| == |entries|
    ensures forall i :: 0 <= i < |entries| ==> r[i] == entries[i].0
  {
    seq(|entries|, i requires 0 <= i < |entries| => entries[i].0)
  }

  /** A first-wins map holds exactly the keys of the entries, each bound to the
      value of the first entry that carries it. */
  lemma {:induction false} FirstWinsSpec<V>(entries: seq<(string, V)>)
    ensures forall k :: k in FirstWins(entries) <==> k in KeysOf(entries)
    ensures forall k :: k in FirstWins(entries) ==>
      FirstWins(entries)[k] == entries[FirstIndex(KeysOf(entries), k)].1
    decreases |entries|
  {
    if |entries| > 0 {
      var p := entries[..|entries| - 1];
      var e := entries[|entries| - 1];
      FirstWinsSpec(p);
      assert KeysOf(entries) == KeysOf(p) + [e.0];
      forall k | k in KeysOf(entries)
        ensures FirstIndex(KeysOf(entries), k) ==
          (if k in KeysOf(p) then FirstIndex(KeysOf(p), k) else |p|)
      {
        FirstIndexAppend(KeysOf(p), e.0, k);
      }
    }
  }

  /** Dropping a prefix of `q + [x]` that lies inside `q`. */
  lemma DropSnoc<T>(xs: seq<T>, q: seq<T>, x: T, j: nat)
    requires xs == q + [x] && j <= |q|
    ensures xs[j..] == q[j..] + [x]
  {
  }

  /** A last-wins map holds exactly the keys of the entries, each bound to the
      value of an entry that carries it and that no later entry overrides. */
  lemma {:induction false} LastWinsSpec<V>(entries: seq<(string, V)>)
    ensures forall k :: k in LastWins(entries) <==> k in KeysOf(entries)
    ensures forall k :: k in LastWins(entries) ==>
      exists i :: (0 <= i < |entries| && entries[i] == (k, LastWins(entries)[k]) &&
        k !in KeysOf(entries)[i + 1..])
    decreases |entries|
  {
    if |entries| > 0 {
      var p := entries[..|entries| - 1];
      var e := entries[|entries| - 1];
      LastWinsSpec(p);
      assert KeysOf(entries) == KeysOf(p) + [e.0];
      var m := LastWins(entries);
      forall k | k in m
        ensures exists i :: (0 <= i < |entries| && entries[i] == (k, m[k]) &&
          k !in KeysOf(entries)[i + 1..])
      {
        if k == e.0 {
          assert entries[|entries| - 1] == (k, m[k]);
          assert KeysOf(entries)[|entries|..] == [];
        } else {
          var i :| 0 <= i < |p| && p[i] == (k, LastWins(p)[k]) && k !in KeysOf(p)[i + 1..];
          DropSnoc(KeysOf(entries), KeysOf(p), e.0, i + 1);
          assert entries[i] == p[i];
        }
      }
    }
  }

  /** Python 3.7's dict: keys in first-insertion order, the last value written
      for each. */
  datatype OrderedDict<V> = OrderedDict(keys: seq<string>, values: map<string, V>)
  {
    ghost predicate Valid() {
      NoDuplicates(keys) && (forall k :: k in values <==> k in keys)
    }

    /** `d[k] = v` */
    function Put(k: string, v: V): (d: OrderedDict<V>)
      requires Valid()
      ensures d.Valid()
      ensures d.values == values[k := v]
      ensures k in values ==> d.keys == keys
      ensures k !in values ==> d.keys == keys + [k]
    {
      if k in values then OrderedDict(keys, values[k := v])
      else OrderedDict(keys + [k], values[k := v])
    }

    /** `list(d.keys())` together with each key's value. */
    function Items(): seq<(string, V)>
      requires Valid()
    {
      seq(|keys|, i requires 0 <= i < |keys| => (keys[i], values[keys[i]]))
    }
  }

  function EmptyDict<V>(): (d: OrderedDict<V>)
    ensures d.Valid() && d.keys == [] && d.values == map[]
  {
    OrderedDict([], map[])
  }

  /** The dictionary a loop of `d[k] = v` assignments leaves, starting from
      `d`. */
  function PutAll<V>(d: OrderedDict<V>, entries: seq<(string, V)>): (r: OrderedDict<V>)
    requires d.Valid()
    ensures r.Valid()
    decreases |entries|
  {
    if |entries| == 0 then d
    else
      var e := entries[|entries| - 1];
      PutAll(d, entries[..|entries| - 1]).Put(e.0, e.1)
  }

  /** Filling an empty dictionary keeps each key once, in the order it was
      first written, bound to the last value written for it. */
  lemma {:induction false} PutAllSpec<V>(entries: seq<(string, V)>)
    ensures PutAll(EmptyDict(), entries).keys == Dedup(KeysOf(entries))
    ensures PutAll(EmptyDict(), entries).values == LastWins(entries)
    decreases |entries|
  {
    if |entries| > 0 {
      var p := entries[..|entries| - 1];
      var e := entries[|entries| - 1];
      PutAllSpec(p);
      assert KeysOf(entries)[..|entries| - 1] == KeysOf(p);
      assert KeysOf(entries)[|entries| - 1] == e.0;
    }
  }

  /** Filling in two runs is filling with the runs one after the other. */
  lemma {:induction false} PutAllAppend<V>(d: OrderedDict<V>, w1: seq<(string, V)>, w2: seq<(string, V)>)
    requires d.Valid()
    ensures PutAll(d, w1 + w2) == PutAll(PutAll(d, w1), w2)
    decreases |w2|
  {
    if |w2| == 0 {
      assert w1 + w2 == w1;
    } else {
      var p := w2[..|w2| - 1];
      assert (w1 + w2)[..|w1 + w2| - 1] == w1 + p;
      PutAllAppend(d, w1, p);
    }
  }

  /** One `d[k] = v` assignment, as `PutAll` states it (used by the bad-ID
      table steps). */
  lemma PutAllOne<V>(d: OrderedDict<V>, e: (string, V))
    requires d.Valid()
    ensures PutAll(d, [e]) == d.Put(e.0, e.1)
  {
    assert [e][..0] == [];
  }

  /** Two `d[k] = v` assignments, organizer then participant (used by
      `BadIdsStep`). */
  lemma PutAllTwo<V>(d: OrderedDict<V>, e: (string, V), e2: (string, V))
    requires d.Valid()
    ensures PutAll(d, [e, e2]) == d.Put(e.0, e.1).Put(e2.0, e2.1)
  {
    var s := [e, e2];
    assert s[..|s| - 1] == [e];
    assert s[|s| - 1] == e2;
    PutAllOne(d, e);
    assert PutAll(d, s) == PutAll(d, [e]).Put(e2.0, e2.1);
  }
}
