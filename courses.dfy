/** The course recommender: the track's catalog is shuffled in place, then
    the names of its first entries are collected until the requested count
    is reached. */
module Courses {

  /** One catalog entry: a course name and its link. */
  datatype Course = Course(name: string, link: string)

  /** The course names of a list of entries, in order. */
  function Names(cs: seq<Course>): (names: seq<string>)
    ensures |names| == |cs|
    ensures forall i :: 0 <= i < |cs| ==> names[i] == cs[i].name
  {
    seq(|cs|, i requires 0 <= i < |cs| => cs[i].name)
  }

  function Min(a: int, b: int): int {
    if a <= b then a else b
  }

  /** `s` with the elements at `i` and `j` exchanged (the same `s` when `i == j`). */
  function Swap<T>(s: seq<T>, i: nat, j: nat): (r: seq<T>)
    requires i < |s| && j < |s|
    ensures |r| == |s| && r[i] == s[j] && r[j] == s[i]
    ensures forall k :: 0 <= k < |s| && k != i && k != j ==> r[k] == s[k]
    ensures multiset(r) == multiset(s)
  {
    var r := s[i := s[j]][j := s[i]];
    assert r == s || multiset(r) == multiset(s);
    r
  }

  /** The random numbers the shuffle draws: for every position `k` below `n`,
      a number from 0 to `k`, as `randbelow(k + 1)` returns. */
  predicate ValidDraws(draws: seq<nat>, n: nat) {
    |draws| >= n && forall k :: 0 <= k < n ==> draws[k] <= k
  }

  /** The in-place shuffle, as a value: from position `hi - 1` down to
      position 1, swap position `k` with the drawn position `draws[k]`.
      The result is a permutation of `s` and a function of the draws alone. */
  function Shuffled<T>(s: seq<T>, draws: seq<nat>, hi: nat): (r: seq<T>)
    requires hi <= |s| && ValidDraws(draws, hi)
    ensures |r| == |s| && multiset(r) == multiset(s)
    decreases hi
  {
    if hi <= 1 then s
    else Shuffled(Swap(s, hi - 1, draws[hi - 1]), draws, hi - 1)
  }

  /** `random.shuffle(course_list)`, the loop of swaps run on the catalog itself. */
  method Shuffle<T>(a: array<T>, draws: seq<nat>)
    requires ValidDraws(draws, a.Length)
    modifies a
    ensures a[..] == Shuffled(old(a[..]), draws, a.Length)
    ensures multiset(a[..]) == multiset(old(a[..]))
  {
    var i := a.Length;
    while i > 1
      invariant 0 <= i <= a.Length
      invariant Shuffled(a[..], draws, i) == Shuffled(old(a[..]), draws, a.Length)
    {
      i := i - 1;
      var j := draws[i];
      ghost var before := a[..];
      var t := a[i];
      a[i] := a[j];
      a[j] := t;
      assert a[..] == Swap(before, i, j);
    }
  }

  /** The `enumerate` loop: collect course names from the front of the
      catalog, stopping when the counter reaches `n` or the catalog ends. */
  method TakeNames(a: array<Course>, n: nat) returns (names: seq<string>)
    ensures |names| == Min(n, a.Length)
    ensures forall k :: 0 <= k < |names| ==> names[k] == a[k].name
  {
    names := [];
    var idx := 0;
    while idx < a.Length
      invariant 0 <= idx <= a.Length && idx <= n
      invariant names == Names(a[..idx])
    {
      if idx == n {
        break;
      }
      assert a[..idx + 1] == a[..idx] + [a[idx]];
      names := names + [a[idx].name];
      idx := idx + 1;
    }
  }

  /** `course_recommender`: shuffle the catalog in place, then return the
      names of its first `n` entries (all of them when there are fewer). */
  method CourseRecommender(catalog: array<Course>, draws: seq<nat>, n: nat) returns (names: seq<string>)
    requires ValidDraws(draws, catalog.Length)
    modifies catalog
    ensures catalog[..] == Shuffled(old(catalog[..]), draws, catalog.Length)
    ensures multiset(catalog[..]) == multiset(old(catalog[..]))
    ensures names == Names(catalog[..])[..Min(n, catalog.Length)]
  {
    Shuffle(catalog, draws);
    names := TakeNames(catalog, n);
  }

  /** Shuffling the entries and then reading their names is shuffling the names. */
  lemma {:induction false} ShuffledNames(s: seq<Course>, draws: seq<nat>, hi: nat)
    requires hi <= |s| && ValidDraws(draws, hi)
    ensures Names(Shuffled(s, draws, hi)) == Shuffled(Names(s), draws, hi)
    decreases hi
  {
    if hi > 1 {
      var s' := Swap(s, hi - 1, draws[hi - 1]);
      assert Names(s') == Swap(Names(s), hi - 1, draws[hi - 1]);
      ShuffledNames(s', draws, hi - 1);
    }
  }

  /** No value occurs twice in `s`. */
  predicate NoDuplicates<T(==)>(s: seq<T>) {
    forall i, j :: 0 <= i < j < |s| ==> s[i] != s[j]
  }

  /** In a list without duplicates every value occurs at most once. */
  lemma {:induction false} NoDuplicatesCount<T>(s: seq<T>, v: T)
    requires NoDuplicates(s)
    ensures multiset(s)[v] <= 1
    decreases |s|
  {
    if s != [] {
      assert s == [s[0]] + s[1..];
      assert NoDuplicates(s[1..]);
      NoDuplicatesCount(s[1..], v);
      if v == s[0] {
        assert v !in s[1..];
      }
    }
  }

  /** A value found at two positions occurs at least twice. */
  lemma DuplicateCount<T>(s: seq<T>, i: nat, j: nat)
    requires i < j < |s| && s[i] == s[j]
    ensures multiset(s)[s[i]] >= 2
  {
    assert s == s[..j] + s[j..];
    assert s[i] in s[..j] && s[j] in s[j..];
  }

  /** A permutation of a list without duplicates has no duplicates either. */
  lemma PermutationKeepsNoDuplicates<T>(s: seq<T>, t: seq<T>)
    requires NoDuplicates(s) && multiset(s) == multiset(t)
    ensures NoDuplicates(t)
  {
    forall i, j | 0 <= i < j < |t| ensures t[i] != t[j] {
      if t[i] == t[j] {
        DuplicateCount(t, i, j);
        NoDuplicatesCount(s, t[i]);
      }
    }
  }

  /** What the recommender returns, for any draws: exactly `min(n, len)`
      names, each the name of an entry of the original catalog, and no name
      twice when the catalog's names are distinct. */
  lemma RecommendationIsFromCatalog(catalog: seq<Course>, draws: seq<nat>, n: nat)
    requires ValidDraws(draws, |catalog|)
    ensures var names := Names(Shuffled(catalog, draws, |catalog|))[..Min(n, |catalog|)];
      && |names| == Min(n, |catalog|)
      && (forall k :: 0 <= k < |names| ==> names[k] in Names(catalog))
      && (NoDuplicates(Names(catalog)) ==> NoDuplicates(names))
  {
    var shuffled := Names(Shuffled(catalog, draws, |catalog|));
    ShuffledNames(catalog, draws, |catalog|);
    assert multiset(shuffled) == multiset(Names(catalog));
    var names := shuffled[..Min(n, |catalog|)];
    forall k | 0 <= k < |names| ensures names[k] in Names(catalog) {
      assert names[k] in multiset(shuffled);
    }
    if NoDuplicates(Names(catalog)) {
      PermutationKeepsNoDuplicates(Names(catalog), shuffled);
    }
  }
}
