/** Counting occurrences: the histogram a `Record<string, number>` is filled into by the
    application's `forEach` loops, and the size of a `Set` built from a list. */
module Counting {

  /** The number of times `x` occurs in `s`. */
  function Count<T(==)>(s: seq<T>, x: T): nat {
    if s == [] then 0 else Count(s[..|s| - 1], x) + (if s[|s| - 1] == x then 1 else 0)
  }

  predicate NoDup<T(==)>(s: seq<T>) {
    forall i, j :: 0 <= i < j < |s| ==> s[i] != s[j]
  }

  /** The elements of `s` that count towards a histogram, as a set. */
  function Elements<T>(s: seq<T>): set<T> {
    set x | x in s
  }

  /** The map from each element of `s` to its number of occurrences. */
  function Histogram<T(==)>(s: seq<T>): (h: map<T, nat>)
    ensures h.Keys == Elements(s)
    ensures forall x :: x in h ==> h[x] == Count(s, x)
  {
    map x | x in s :: Count(s, x)
  }

  /** The distinct elements of `s` in order of first occurrence (the key order of the
      histogram when it is read back as a list of entries). */
  function Distinct<T(==)>(s: seq<T>): (d: seq<T>)
    ensures NoDup(d)
    ensures Elements(d) == Elements(s)
  {
    if s == [] then []
    else
      var init := s[..|s| - 1];
      var d := Distinct(init);
      var t := s[|s| - 1];
      assert s == init + [t];
      assert Elements(s) == Elements(init) + {t};
      if t in d then d
      else
        assert Elements(d + [t]) == Elements(d) + {t};
        d + [t]
  }

  /** The sum of `m[k]` over the keys listed in `keys`. */
  function SumOver<T>(keys: seq<T>, m: map<T, nat>): nat
    requires forall k :: k in keys ==> k in m
  {
    if keys == [] then 0 else SumOver(keys[..|keys| - 1], m) + m[keys[|keys| - 1]]
  }

  /** The sum of the counts in `s` of the elements of `keys`. */
  function SumCounts<T(==)>(keys: seq<T>, s: seq<T>): nat {
    if keys == [] then 0 else SumCounts(keys[..|keys| - 1], s) + Count(s, keys[|keys| - 1])
  }

  lemma {:induction false} CountAppend<T>(s: seq<T>, t: T, x: T)
    ensures Count(s + [t], x) == Count(s, x) + (if t == x then 1 else 0)
  {
    assert (s + [t])[..|s|] == s;
  }

  lemma {:induction false} CountAbsent<T>(s: seq<T>, x: T)
    requires x !in s
    ensures Count(s, x) == 0
  {
    if s != [] {
      CountAbsent(s[..|s| - 1], x);
    }
  }

  /** In a list without duplicates, an element that occurs occurs once. */
  lemma {:induction false} CountInNoDup<T>(s: seq<T>, x: T)
    requires NoDup(s) && x in s
    ensures Count(s, x) == 1
  {
    var init := s[..|s| - 1];
    assert s == init + [s[|s| - 1]];
    if s[|s| - 1] == x {
      CountAbsent(init, x);
    } else {
      CountInNoDup(init, x);
    }
  }

  lemma {:induction false} SumCountsEmpty<T>(keys: seq<T>)
    ensures SumCounts(keys, []) == 0
  {
    if keys != [] {
      SumCountsEmpty(keys[..|keys| - 1]);
    }
  }

  lemma {:induction false} SumCountsAppend<T>(keys: seq<T>, s: seq<T>, t: T)
    ensures SumCounts(keys, s + [t]) == SumCounts(keys, s) + Count(keys, t)
  {
    if keys != [] {
      SumCountsAppend(keys[..|keys| - 1], s, t);
      CountAppend(s, t, keys[|keys| - 1]);
    }
  }

  /** Summing the counts over a duplicate-free list of keys that covers `s` gives `|s|`. */
  lemma {:induction false} SumCountsCovering<T>(keys: seq<T>, s: seq<T>)
    requires NoDup(keys)
    requires forall x :: x in s ==> x in keys
    ensures SumCounts(keys, s) == |s|
  {
    if s == [] {
      SumCountsEmpty(keys);
    } else {
      var init := s[..|s| - 1];
      assert s == init + [s[|s| - 1]];
      SumCountsCovering(keys, init);
      SumCountsAppend(keys, init, s[|s| - 1]);
      CountInNoDup(keys, s[|s| - 1]);
    }
  }

  lemma {:induction false} SumOverHistogram<T>(keys: seq<T>, s: seq<T>)
    requires forall k :: k in keys ==> k in s
    ensures SumOver(keys, Histogram(s)) == SumCounts(keys, s)
  {
    if keys != [] {
      SumOverHistogram(keys[..|keys| - 1], s);
    }
  }

  /** Counting one more element bumps its entry, starting from 0 when it is new, and
      leaves every other entry alone: the update `m[x] = (m[x] || 0) + 1`. */
  lemma HistogramAppend<T>(s: seq<T>, t: T)
    ensures Histogram(s + [t])
         == Histogram(s)[t := (if t in Histogram(s) then Histogram(s)[t] else 0) + 1]
  {
    var h, h' := Histogram(s), Histogram(s + [t]);
    assert Elements(s + [t]) == Elements(s) + {t};
    forall x | x in h' ensures h'[x] == h[t := (if t in h then h[t] else 0) + 1][x] {
      CountAppend(s, t, x);
      if x == t && t !in h {
        CountAbsent(s, t);
      }
    }
  }

  /** The values of a histogram sum to the length of the list it counts. */
  lemma HistogramTotal<T>(s: seq<T>)
    ensures SumOver(Distinct(s), Histogram(s)) == |s|
  {
    var d := Distinct(s);
    forall k | k in d ensures k in s {
      assert k in Elements(d);
    }
    forall x | x in s ensures x in d {
      assert x in Elements(s);
    }
    SumOverHistogram(d, s);
    SumCountsCovering(d, s);
  }

  /** A set built from a list has at most as many elements as the list, and exactly as
      many when the list has no duplicates. */
  lemma {:induction false} ElementsSize<T>(s: seq<T>)
    ensures |Elements(s)| <= |s|
    ensures |Elements(s)| == |s| <==> NoDup(s)
  {
    if s != [] {
      var init := s[..|s| - 1];
      var t := s[|s| - 1];
      assert s == init + [t];
      ElementsSize(init);
      assert Elements(s) == Elements(init) + {t};
      if t in init {
        assert Elements(s) == Elements(init);
        var j :| 0 <= j < |init| && init[j] == t;
        assert s[j] == s[|s| - 1];
      } else {
        assert NoDup(s) <==> NoDup(init);
      }
    }
  }
}
