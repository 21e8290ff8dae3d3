/** Sequence helpers that the palette is built from: the deduplication that
    lodash's `uniq` performs (first occurrence of each element kept, in order)
    and the "index of first occurrence" used to state what that order is. */
module Collections {

  /** No element occurs twice in `s`. */
  ghost predicate NoDuplicates<T>(s: seq<T>) {
    forall i, j :: 0 <= i < j < |s| ==> s[i] != s[j]
  }

  /** Position of the first occurrence of `x` in `s`. */
  function FirstIndex<T(==)>(s: seq<T>, x: T): (k: nat)
    requires x in s
    ensures k < |s| && s[k] == x
    ensures x !in s[..k]
  {
    if s[0] == x then 0 else 1 + FirstIndex(s[1..], x)
  }

  /** `s` with every element after its first occurrence dropped.  The last
      element is kept exactly when it did not occur earlier. */
  function Uniq<T(==, !new)>(s: seq<T>): (r: seq<T>)
    ensures NoDuplicates(r)
    ensures forall x :: x in r <==> x in s
    ensures |r| <= |s|
    decreases |s|
  {
    if |s| == 0 then []
    else
      var u := Uniq(s[..|s| - 1]);
      if s[|s| - 1] in u then u else u + [s[|s| - 1]]
  }

  /** Every indexed element is a member.  Stated as a lemma so that a proof
      can bring `s[k] in s` into a branch that this fact then closes. */
  lemma ElementAt<T>(s: seq<T>, k: int)
    requires 0 <= k < |s|
    ensures s[k] in s
  {
  }

  /** One instance of the ordering hypothesis of UniqIsDeterminedByItsProperties. */
  lemma OrderedAt<T>(s: seq<T>, r: seq<T>, i: int, j: int)
    requires forall x :: x in r ==> x in s
    requires forall i, j :: 0 <= i < j < |r| ==> FirstIndex(s, r[i]) < FirstIndex(s, r[j])
    requires 0 <= i < j < |r|
    ensures r[i] in s && r[j] in s
    ensures FirstIndex(s, r[i]) < FirstIndex(s, r[j])
  {
    assert r[i] in r && r[j] in r;
  }

  /** The first occurrence is the only occurrence with no earlier copy. */
  lemma FirstIndexIsUnique<T>(s: seq<T>, x: T, k: nat)
    requires k < |s| && s[k] == x && x !in s[..k]
    ensures FirstIndex(s, x) == k
  {
  }

  /** Appending never moves the first occurrence of an element already present. */
  lemma FirstIndexOfPrefix<T>(s: seq<T>, t: seq<T>, x: T)
    requires x in s
    ensures x in s + t
    ensures FirstIndex(s + t, x) == FirstIndex(s, x)
  {
    var k := FirstIndex(s, x);
    assert (s + t)[k] == x;
    assert (s + t)[..k] == s[..k];
    FirstIndexIsUnique(s + t, x, k);
  }

  /** Uniq lists the elements in the order of their first occurrence in `s`. */
  lemma {:induction false} UniqKeepsFirstOccurrenceOrder<T(!new)>(s: seq<T>)
    ensures forall i, j :: 0 <= i < j < |Uniq(s)| ==>
      FirstIndex(s, Uniq(s)[i]) < FirstIndex(s, Uniq(s)[j])
  {
    if |s| > 0 {
      var s', last := s[..|s| - 1], s[|s| - 1];
      assert s == s' + [last];
      var u := Uniq(s');
      UniqKeepsFirstOccurrenceOrder(s');
      forall y | y in s'
        ensures FirstIndex(s, y) == FirstIndex(s', y)
      {
        FirstIndexOfPrefix(s', [last], y);
      }
      if last !in u {
        assert last !in s';
        assert s[..|s| - 1] == s';
        FirstIndexIsUnique(s, last, |s| - 1);
        forall i, j | 0 <= i < j < |Uniq(s)|
          ensures FirstIndex(s, Uniq(s)[i]) < FirstIndex(s, Uniq(s)[j])
        {
          assert Uniq(s)[i] == u[i];
          assert u[i] in u;
          if j < |u| {
            assert Uniq(s)[j] == u[j];
            assert u[j] in u;
          } else {
            assert Uniq(s)[j] == last;
          }
        }
      } else {
        forall i, j | 0 <= i < j < |Uniq(s)|
          ensures FirstIndex(s, Uniq(s)[i]) < FirstIndex(s, Uniq(s)[j])
        {
          assert u[i] in u && u[j] in u;
        }
      }
    }
  }

  /** The three properties above determine Uniq: a duplicate-free sequence
      holding exactly the elements of `s`, in the order of their first
      occurrence in `s`, is Uniq(s). */
  lemma {:induction false} UniqIsDeterminedByItsProperties<T(!new)>(s: seq<T>, r: seq<T>)
    requires NoDuplicates(r)
    requires forall x :: x in r <==> x in s
    requires forall i, j :: 0 <= i < j < |r| ==> FirstIndex(s, r[i]) < FirstIndex(s, r[j])
    ensures r == Uniq(s)
    decreases |s|
  {
    if |s| == 0 {
      if r != [] {
        ElementAt(r, 0);
      }
    } else {
      var s', last := s[..|s| - 1], s[|s| - 1];
      assert s == s' + [last];
      forall y | y in s'
        ensures FirstIndex(s, y) == FirstIndex(s', y)
      {
        FirstIndexOfPrefix(s', [last], y);
      }
      if last in s' {
        assert Uniq(s') == Uniq(s) by {
          assert last in Uniq(s');
        }
        forall x ensures x in r <==> x in s' {
          assert x in s <==> x in s' || x == last;
        }
        forall i, j | 0 <= i < j < |r|
          ensures FirstIndex(s', r[i]) < FirstIndex(s', r[j])
        {
          assert r[i] in r && r[j] in r;
        }
        UniqIsDeterminedByItsProperties(s', r);
      } else {
        assert s[..|s| - 1] == s';
        FirstIndexIsUnique(s, last, |s| - 1);
        assert last in r;
        var p :| 0 <= p < |r| && r[p] == last;
        if p < |r| - 1 {
          OrderedAt(s, r, p, |r| - 1);
        }
        var r' := r[..|r| - 1];
        assert r == r' + [last];
        forall x ensures x in r' <==> x in s' {
          assert x in r <==> x in r' || x == last;
          assert x in s <==> x in s' || x == last;
        }
        forall i, j | 0 <= i < j < |r'|
          ensures FirstIndex(s', r'[i]) < FirstIndex(s', r'[j])
        {
          assert r'[i] == r[i] && r'[j] == r[j];
          assert r'[i] in r' && r'[j] in r';
        }
        UniqIsDeterminedByItsProperties(s', r');
        assert last !in Uniq(s');
      }
    }
  }

  /** A sequence without duplicates is left as it is. */
  lemma {:induction false} UniqOfDistinct<T(!new)>(s: seq<T>)
    requires NoDuplicates(s)
    ensures Uniq(s) == s
  {
    forall i, j | 0 <= i < j < |s|
      ensures FirstIndex(s, s[i]) < FirstIndex(s, s[j])
    {
      assert s[i] !in s[..i];
      FirstIndexIsUnique(s, s[i], i);
      assert s[j] !in s[..j];
      FirstIndexIsUnique(s, s[j], j);
    }
    UniqIsDeterminedByItsProperties(s, s);
  }

  /** Deduplicating twice is deduplicating once. */
  lemma UniqIsIdempotent<T(!new)>(s: seq<T>)
    ensures Uniq(Uniq(s)) == Uniq(s)
  {
    UniqOfDistinct(Uniq(s));
  }
}
