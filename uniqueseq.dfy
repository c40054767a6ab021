/** Lists kept free of duplicates by "append unless already present", the
    rule of mechlib's `Container.add` and of the buckets filled by
    geometry's `Rod.D`. */
module UniqueSeq {

  predicate NoDup<T(==)>(s: seq<T>) {
    forall i, j :: 0 <= i < j < |s| ==> s[i] != s[j]
  }

  /** `if x not in s: s.append(x)`. */
  function AddOne<T(==)>(s: seq<T>, x: T): (r: seq<T>)
    ensures x in r
    ensures r == s || r == s + [x]
    ensures x in s ==> r == s
    ensures NoDup(s) ==> NoDup(r)
  {
    if x in s then s else s + [x]
  }

  /** `for x in xs: add(x)`, written as the fold the loop performs. */
  function AddAll<T(==)>(s: seq<T>, xs: seq<T>): seq<T>
    decreases |xs|
  {
    if |xs| == 0 then s else AddAll(AddOne(s, xs[0]), xs[1..])
  }

  /** Adding a list keeps what was there, in its place, at the front. */
  lemma {:induction false} AddAllKeepsPrefix<T>(s: seq<T>, xs: seq<T>)
    ensures |AddAll(s, xs)| >= |s| && AddAll(s, xs)[..|s|] == s
    decreases |xs|
  {
    if |xs| > 0 {
      var s' := AddOne(s, xs[0]);
      AddAllKeepsPrefix(s', xs[1..]);
      assert s'[..|s|] == s;
    }
  }

  /** The members afterwards are exactly the old ones and the added ones. */
  lemma {:induction false} AddAllMembers<T>(s: seq<T>, xs: seq<T>)
    ensures forall y :: y in AddAll(s, xs) <==> y in s || y in xs
    decreases |xs|
  {
    if |xs| > 0 {
      AddAllMembers(AddOne(s, xs[0]), xs[1..]);
      assert forall y :: y in xs <==> y == xs[0] || y in xs[1..];
    }
  }

  /** Adding never creates a duplicate. */
  lemma {:induction false} AddAllNoDup<T>(s: seq<T>, xs: seq<T>)
    requires NoDup(s)
    ensures NoDup(AddAll(s, xs))
    decreases |xs|
  {
    if |xs| > 0 {
      AddAllNoDup(AddOne(s, xs[0]), xs[1..]);
    }
  }

  /** Adding things already present changes nothing, so a second `containing`
      with the same arguments is a no-op. */
  lemma {:induction false} AddAllPresent<T>(s: seq<T>, xs: seq<T>)
    requires forall i :: 0 <= i < |xs| ==> xs[i] in s
    ensures AddAll(s, xs) == s
    decreases |xs|
  {
    if |xs| > 0 {
      AddAllPresent(AddOne(s, xs[0]), xs[1..]);
    }
  }

  lemma AddAllIdempotent<T>(s: seq<T>, xs: seq<T>)
    ensures AddAll(AddAll(s, xs), xs) == AddAll(s, xs)
  {
    AddAllMembers(s, xs);
    AddAllPresent(AddAll(s, xs), xs);
  }

  /** Adding one more element after a list. */
  lemma {:induction false} AddAllSnoc<T>(s: seq<T>, xs: seq<T>, x: T)
    ensures AddAll(s, xs + [x]) == AddOne(AddAll(s, xs), x)
    decreases |xs|
  {
    if |xs| == 0 {
      assert xs + [x] == [x];
    } else {
      assert (xs + [x])[1..] == xs[1..] + [x];
      AddAllSnoc(AddOne(s, xs[0]), xs[1..], x);
    }
  }

  /** Distinct additions to an empty list keep their argument order. */
  lemma {:induction false} AddAllDistinct<T>(xs: seq<T>)
    requires NoDup(xs)
    ensures AddAll([], xs) == xs
    decreases |xs|
  {
    if |xs| > 0 {
      var init := xs[..|xs| - 1];
      assert xs == init + [xs[|xs| - 1]];
      assert NoDup(init);
      AddAllDistinct(init);
      AddAllSnoc([], init, xs[|xs| - 1]);
    }
  }
}
