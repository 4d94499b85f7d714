/** Sequence helpers shared by the stores: duplicate-freedom and the
    `[...new Set(xs)]` idiom (first-occurrence order). */
module Lists {

  /** No element occurs twice. */
  ghost predicate NoDup<T>(s: seq<T>)
  {
    forall i, j :: 0 <= i < j < |s| ==> s[i] != s[j]
  }

  /** `[...new Set(s)]`: every distinct element once, in the order of its
      first occurrence in `s`. */
  function Dedup<T(==, !new)>(s: seq<T>): (r: seq<T>)
    ensures NoDup(r)
    ensures forall x :: x in r <==> x in s
    ensures |r| <= |s|
    decreases |s|
  {
    if s == [] then []
    else
      var d := Dedup(s[..|s| - 1]);
      var last := s[|s| - 1];
      if last in d then d else d + [last]
  }

  /** Appending one element and deduplicating keeps the deduplicated prefix
      and adds the element at the end exactly when it is new. */
  lemma DedupSnoc<T(!new)>(s: seq<T>, x: T)
    ensures Dedup(s + [x]) == if x in s then Dedup(s) else Dedup(s) + [x]
  {
    assert (s + [x])[..|s + [x]| - 1] == s;
  }

  /** A list that is already duplicate-free is left as it is. */
  lemma {:induction false} DedupOfNoDup<T(!new)>(s: seq<T>)
    requires NoDup(s)
    ensures Dedup(s) == s
  {
    if s != [] {
      var init := s[..|s| - 1];
      assert NoDup(init);
      DedupOfNoDup(init);
      assert s[|s| - 1] !in init;
      assert init + [s[|s| - 1]] == s;
    }
  }

  /** Deduplication never reorders: the result for a prefix is a prefix of
      the result for the whole list. */
  lemma {:induction false} DedupPrefix<T(!new)>(s: seq<T>, t: seq<T>)
    ensures Dedup(s) <= Dedup(s + t)
    decreases |t|
  {
    if t != [] {
      var t' := t[..|t| - 1];
      assert s + t == (s + t') + [t[|t| - 1]];
      DedupPrefix(s, t');
      DedupSnoc(s + t', t[|t| - 1]);
    } else {
      assert s + t == s;
    }
  }

  /** Adding an element to a set-like list: present afterwards, no
      duplicates, and adding it a second time changes nothing. */
  lemma AddUniqueIdempotent<T(!new)>(s: seq<T>, x: T)
    ensures x in Dedup(s + [x]) && NoDup(Dedup(s + [x]))
    ensures Dedup(Dedup(s + [x]) + [x]) == Dedup(s + [x])
  {
    var d := Dedup(s + [x]);
    DedupSnoc(d, x);
    DedupOfNoDup(d);
  }

  /** Keeps the elements different from `x`, in order (`filter(t => t !== x)`). */
  function Remove<T(==, !new)>(s: seq<T>, x: T): (r: seq<T>)
    ensures x !in r
    ensures forall y :: y in r <==> y in s && y != x
    ensures |r| <= |s|
  {
    if s == [] then []
    else if s[0] == x then Remove(s[1..], x)
    else [s[0]] + Remove(s[1..], x)
  }

  /** Removing distributes over concatenation, so relative order is kept. */
  lemma {:induction false} RemoveAppend<T(!new)>(a: seq<T>, b: seq<T>, x: T)
    ensures Remove(a + b, x) == Remove(a, x) + Remove(b, x)
  {
    if a == [] {
      assert a + b == b;
    } else {
      assert (a + b)[1..] == a[1..] + b;
      RemoveAppend(a[1..], b, x);
    }
  }
}
