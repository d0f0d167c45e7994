/** The list patches every page and form applies to a cached list after a
    confirmed mutation: drop the entries with a slug (`filter`), replace the
    entries with the returned entity's slug (`map`), and look one up
    (`find`). Entries are identified only through `slugOf`. */
module SlugLists {
  import opened Base

  /** Number of entries of `xs` whose slug is `slug`. */
  function Count<T>(xs: seq<T>, slugOf: T -> string, slug: string): nat {
    if xs == [] then 0
    else (if slugOf(xs[0]) == slug then 1 else 0) + Count(xs[1..], slugOf, slug)
  }

  lemma {:induction false} CountAppend<T>(xs: seq<T>, ys: seq<T>, slugOf: T -> string, slug: string)
    ensures Count(xs + ys, slugOf, slug) == Count(xs, slugOf, slug) + Count(ys, slugOf, slug)
  {
    if xs != [] {
      var zs := xs + ys;
      assert zs[0] == xs[0] && zs[1..] == xs[1..] + ys;
      CountAppend(xs[1..], ys, slugOf, slug);
    } else {
      assert xs + ys == ys;
    }
  }

  /** No entry carries `slug` exactly when the count is zero. */
  lemma {:induction false} CountZero<T>(xs: seq<T>, slugOf: T -> string, slug: string)
    ensures Count(xs, slugOf, slug) == 0 <==> forall i :: 0 <= i < |xs| ==> slugOf(xs[i]) != slug
  {
    if xs != [] {
      CountZero(xs[1..], slugOf, slug);
      assert forall i :: 1 <= i < |xs| ==> xs[i] == xs[1..][i - 1];
    }
  }

  /** `a` lists a selection of the entries of `b`, in `b`'s order. */
  ghost predicate Subsequence<T>(a: seq<T>, b: seq<T>) {
    if b == [] then a == []
    else (a != [] && a[0] == b[0] && Subsequence(a[1..], b[1..])) || Subsequence(a, b[1..])
  }

  /** `xs.filter((x) => x.slug !== slug)`. */
  function RemoveBySlug<T>(xs: seq<T>, slugOf: T -> string, slug: string): (r: seq<T>)
    ensures |r| <= |xs|
    ensures forall x :: x in r ==> x in xs && slugOf(x) != slug
    ensures forall x :: x in xs && slugOf(x) != slug ==> x in r
  {
    if xs == [] then []
    else (if slugOf(xs[0]) == slug then [] else [xs[0]]) + RemoveBySlug(xs[1..], slugOf, slug)
  }

  /** After a delete no entry with the deleted slug is left, every other
      slug keeps all its entries, and the survivors keep their order. */
  lemma {:induction false} RemoveBySlugSpec<T>(xs: seq<T>, slugOf: T -> string, slug: string)
    ensures Count(RemoveBySlug(xs, slugOf, slug), slugOf, slug) == 0
    ensures forall other :: other != slug ==>
      Count(RemoveBySlug(xs, slugOf, slug), slugOf, other) == Count(xs, slugOf, other)
    ensures Subsequence(RemoveBySlug(xs, slugOf, slug), xs)
    ensures |RemoveBySlug(xs, slugOf, slug)| == |xs| - Count(xs, slugOf, slug)
  {
    if xs != [] {
      RemoveBySlugSpec(xs[1..], slugOf, slug);
      var rest := RemoveBySlug(xs[1..], slugOf, slug);
      if slugOf(xs[0]) == slug {
        assert RemoveBySlug(xs, slugOf, slug) == rest;
      } else {
        var r := RemoveBySlug(xs, slugOf, slug);
        assert r == [xs[0]] + rest;
        assert r[0] == xs[0] && r[1..] == rest;
      }
    }
  }

  /** Deleting a slug that is not in the list changes nothing. */
  lemma {:induction false} RemoveAbsentSlug<T>(xs: seq<T>, slugOf: T -> string, slug: string)
    requires Count(xs, slugOf, slug) == 0
    ensures RemoveBySlug(xs, slugOf, slug) == xs
  {
    if xs != [] {
      RemoveAbsentSlug(xs[1..], slugOf, slug);
    }
  }

  /** `xs.map((x) => (x.slug === e.slug ? e : x))`. */
  function ReplaceBySlug<T>(xs: seq<T>, slugOf: T -> string, e: T): (r: seq<T>)
    ensures |r| == |xs|
    ensures forall i :: 0 <= i < |xs| ==> r[i] == if slugOf(xs[i]) == slugOf(e) then e else xs[i]
  {
    if xs == [] then []
    else [if slugOf(xs[0]) == slugOf(e) then e else xs[0]] + ReplaceBySlug(xs[1..], slugOf, e)
  }

  /** Replacing keeps the number of entries of every slug, so a slug that
      was unique stays unique and its one entry is now the returned
      entity; replacing twice is replacing once. */
  lemma {:induction false} ReplaceBySlugSpec<T>(xs: seq<T>, slugOf: T -> string, e: T)
    ensures forall s :: Count(ReplaceBySlug(xs, slugOf, e), slugOf, s) == Count(xs, slugOf, s)
    ensures ReplaceBySlug(ReplaceBySlug(xs, slugOf, e), slugOf, e) == ReplaceBySlug(xs, slugOf, e)
    ensures Count(xs, slugOf, slugOf(e)) == 0 ==> ReplaceBySlug(xs, slugOf, e) == xs
  {
    if xs != [] {
      ReplaceBySlugSpec(xs[1..], slugOf, e);
      assert ReplaceBySlug(xs, slugOf, e)[1..] == ReplaceBySlug(xs[1..], slugOf, e);
    }
  }

  /** With a unique slug, exactly one entry carries it after the update and
      that entry is the returned entity. */
  lemma UniqueSlugReplaced<T>(xs: seq<T>, slugOf: T -> string, e: T, k: nat)
    requires k < |xs| && slugOf(xs[k]) == slugOf(e) && Count(xs, slugOf, slugOf(e)) == 1
    ensures ReplaceBySlug(xs, slugOf, e)[k] == e
    ensures Count(ReplaceBySlug(xs, slugOf, e), slugOf, slugOf(e)) == 1
    ensures forall i :: 0 <= i < |xs| && i != k ==> slugOf(ReplaceBySlug(xs, slugOf, e)[i]) != slugOf(e)
  {
    ReplaceBySlugSpec(xs, slugOf, e);
    forall i | 0 <= i < |xs| && i != k
      ensures slugOf(xs[i]) != slugOf(e)
    {
      if slugOf(xs[i]) == slugOf(e) {
        TwoEntriesCountTwo(xs, slugOf, slugOf(e), i, k);
      }
    }
  }

  lemma {:induction false} TwoEntriesCountTwo<T>(xs: seq<T>, slugOf: T -> string, slug: string, i: nat, j: nat)
    requires i < |xs| && j < |xs| && i != j && slugOf(xs[i]) == slug && slugOf(xs[j]) == slug
    ensures Count(xs, slugOf, slug) >= 2
  {
    var lo, hi := if i < j then i else j, if i < j then j else i;
    assert xs == xs[..hi] + xs[hi..];
    CountAppend(xs[..hi], xs[hi..], slugOf, slug);
    assert xs[..hi] == xs[..lo] + xs[lo..hi];
    CountAppend(xs[..lo], xs[lo..hi], slugOf, slug);
    assert xs[lo..hi][0] == xs[lo];
    assert xs[hi..][0] == xs[hi];
  }

  /** `xs.find((x) => x.slug === slug)`: the first entry with that slug. */
  function FindBySlug<T>(xs: seq<T>, slugOf: T -> string, slug: string): (r: Option<T>)
    ensures r.None? <==> forall i :: 0 <= i < |xs| ==> slugOf(xs[i]) != slug
    ensures r.Some? ==> exists k :: 0 <= k < |xs| && xs[k] == r.value && slugOf(r.value) == slug
                           && (forall i :: 0 <= i < k ==> slugOf(xs[i]) != slug)
  {
    if xs == [] then None
    else if slugOf(xs[0]) == slug then Some(xs[0])
    else
      var r := FindBySlug(xs[1..], slugOf, slug);
      assert r.Some? ==> exists k :: 0 <= k < |xs| && xs[k] == r.value && slugOf(r.value) == slug
                             && (forall i :: 0 <= i < k ==> slugOf(xs[i]) != slug) by {
        if r.Some? {
          var k :| 0 <= k < |xs| - 1 && xs[1..][k] == r.value && slugOf(r.value) == slug
                   && (forall i :: 0 <= i < k ==> slugOf(xs[1..][i]) != slug);
          assert forall i :: 1 <= i < k + 1 ==> xs[i] == xs[1..][i - 1];
          assert xs[k + 1] == r.value;
        }
      }
      r
  }
}
