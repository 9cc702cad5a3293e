/**
 * The array operations the core leans on: `filter`, `find`, stable `sort` with a comparator,
 * concatenation of per-server results, and "keep the first element for each key" through a
 * `Set` of seen keys.
 */
module Seqs {

  /** `a` is `b` with some elements deleted (order kept). */
  predicate SubseqOf<T(==)>(a: seq<T>, b: seq<T>)
    decreases |b|
  {
    if a == [] then true
    else if b == [] then false
    else (a[0] == b[0] && SubseqOf(a[1..], b[1..])) || SubseqOf(a, b[1..])
  }

  lemma {:induction false} SubseqRefl<T>(s: seq<T>)
    ensures SubseqOf(s, s)
  {
    if s != [] {
      SubseqRefl(s[1..]);
    }
  }

  lemma {:induction false} SubseqElements<T>(a: seq<T>, b: seq<T>)
    requires SubseqOf(a, b)
    ensures forall x :: x in a ==> x in b
    decreases |b|
  {
    if a != [] {
      if a[0] == b[0] && SubseqOf(a[1..], b[1..]) {
        SubseqElements(a[1..], b[1..]);
        assert forall x :: x in a ==> x == a[0] || x in a[1..];
      } else {
        SubseqElements(a, b[1..]);
      }
    }
  }

  /** Every element of `s` is one of `u`. */
  ghost predicate Within<T>(s: seq<T>, u: seq<T>)
  {
    forall x :: x in s ==> x in u
  }

  ghost predicate SortedBy<T>(s: seq<T>, le: (T, T) -> bool)
  {
    forall i, j :: 0 <= i < j < |s| ==> le(s[i], s[j])
  }

  lemma {:induction false} SubseqSorted<T>(a: seq<T>, b: seq<T>, le: (T, T) -> bool)
    requires SubseqOf(a, b) && SortedBy(b, le)
    ensures SortedBy(a, le)
    decreases |b|
  {
    if a != [] {
      if a[0] == b[0] && SubseqOf(a[1..], b[1..]) {
        SubseqSorted(a[1..], b[1..], le);
        SubseqElements(a[1..], b[1..]);
        forall j | 1 <= j < |a| ensures le(a[0], a[j]) {
          assert a[j] in a[1..];
          var k :| 0 <= k < |b[1..]| && b[1..][k] == a[j];
          assert b[k + 1] == a[j];
        }
        forall i, j | 0 <= i < j < |a| ensures le(a[i], a[j]) {
          if i > 0 {
            assert a[i] == a[1..][i - 1] && a[j] == a[1..][j - 1];
          }
        }
      } else {
        SubseqSorted(a, b[1..], le);
      }
    }
  }

  /** `le` is total on the elements of `u`. */
  ghost predicate TotalOn<T>(le: (T, T) -> bool, u: seq<T>)
  {
    forall a, b :: a in u && b in u ==> le(a, b) || le(b, a)
  }

  /** `le` is transitive on the elements of `u`. */
  ghost predicate TransitiveOn<T>(le: (T, T) -> bool, u: seq<T>)
  {
    forall a, b, c :: a in u && b in u && c in u && le(a, b) && le(b, c) ==> le(a, c)
  }

  /** Whatever `key` orders strictly, `le` orders the same way strictly. */
  ghost predicate RefinesOn<T>(le: (T, T) -> bool, key: (T, T) -> bool, u: seq<T>)
  {
    forall a, b :: a in u && b in u && key(a, b) && !key(b, a) ==> le(a, b) && !le(b, a)
  }

  /**
   * Insertion of `x`, which came before every element of `s` in the input, into the sorted
   * `s`: it goes in front of the first element it does not compare greater than, so
   * equal elements keep their input order, as in JavaScript's stable `Array.prototype.sort`
   * (`le(a, b)` stands for `compare(a, b) <= 0`).
   */
  function Insert<T>(x: T, s: seq<T>, le: (T, T) -> bool): (r: seq<T>)
    ensures multiset(r) == multiset(s) + multiset{x}
  {
    if s == [] then [x]
    else if le(x, s[0]) then [x] + s
    else
      assert s == [s[0]] + s[1..];
      [s[0]] + Insert(x, s[1..], le)
  }

  /** `s.sort(compare)` where `le(a, b)` is `compare(a, b) <= 0`. */
  function Sort<T>(s: seq<T>, le: (T, T) -> bool): (r: seq<T>)
    ensures multiset(r) == multiset(s)
  {
    if s == [] then []
    else
      assert s == [s[0]] + s[1..];
      Insert(s[0], Sort(s[1..], le), le)
  }

  lemma SortedCons<T>(y: T, t: seq<T>, key: (T, T) -> bool)
    requires SortedBy(t, key) && forall z :: z in t ==> key(y, z)
    ensures SortedBy([y] + t, key)
  {
    var r := [y] + t;
    forall i, j | 0 <= i < j < |r| ensures key(r[i], r[j]) {
      assert r[j] == t[j - 1];
      if i > 0 {
        assert r[i] == t[i - 1];
      }
    }
  }

  lemma SortedTail<T>(s: seq<T>, key: (T, T) -> bool)
    requires SortedBy(s, key) && s != []
    ensures SortedBy(s[1..], key) && forall z :: z in s[1..] ==> key(s[0], z)
  {
    forall z | z in s[1..] ensures key(s[0], z) {
      var k :| 0 <= k < |s[1..]| && s[1..][k] == z;
      assert s[k + 1] == z;
    }
  }

  lemma {:induction false} InsertSorted<T>(x: T, s: seq<T>, le: (T, T) -> bool, key: (T, T) -> bool, u: seq<T>)
    requires SortedBy(s, key) && x in u && Within(s, u)
    requires TotalOn(key, u) && TransitiveOn(key, u) && RefinesOn(le, key, u)
    ensures SortedBy(Insert(x, s, le), key)
    decreases |s|
  {
    if s != [] {
      SortedTail(s, key);
      assert s[0] in s;
      if le(x, s[0]) {
        assert key(x, s[0]);
        forall z | z in s ensures key(x, z) {
          if z != s[0] {
            assert z in s[1..];
          }
        }
        SortedCons(x, s, key);
      } else {
        assert key(s[0], x);
        InsertSorted(x, s[1..], le, key, u);
        var t := Insert(x, s[1..], le);
        forall y | y in t ensures key(s[0], y) {
          assert y in multiset(t);
        }
        SortedCons(s[0], t, key);
      }
    }
  }

  /**
   * Sorting with comparator `le` orders the result by any total preorder `key` that `le`
   * agrees with on strict comparisons; with `key == le` this says the result is sorted.
   */
  lemma {:induction false} SortSorted<T>(s: seq<T>, le: (T, T) -> bool, key: (T, T) -> bool, u: seq<T>)
    requires Within(s, u)
    requires TotalOn(key, u) && TransitiveOn(key, u) && RefinesOn(le, key, u)
    ensures SortedBy(Sort(s, le), key)
  {
    if s != [] {
      assert Within(s[1..], u) by {
        forall y | y in s[1..] ensures y in u {
          assert y in s;
        }
      }
      SortSorted(s[1..], le, key, u);
      var t := Sort(s[1..], le);
      assert Within(t, u) by {
        forall y | y in t ensures y in u {
          assert y in multiset(t);
          assert y in s[1..];
        }
      }
      assert s[0] in s;
      InsertSorted(s[0], t, le, key, u);
    }
  }

  /** The elements that `le` ties with `c`: `compare(z, c) == 0` when `le` stands for `compare <= 0`. */
  function Tied<T>(le: (T, T) -> bool, c: T): T -> bool
  {
    z => le(z, c) && le(c, z)
  }

  /** What `Filter` keeps of one element. */
  function Keep<T>(y: T, p: T -> bool): seq<T>
  {
    if p(y) then [y] else []
  }

  /** Filtering a sequence with a given head. */
  lemma FilterCons<T>(y: T, r: seq<T>, p: T -> bool)
    ensures Filter([y] + r, p) == Keep(y, p) + Filter(r, p)
  {
    assert ([y] + r)[1..] == r;
  }

  /** Two elements that tie with `c` are ordered by `le`. */
  lemma TiedBefore<T>(x: T, z: T, le: (T, T) -> bool, c: T, u: seq<T>)
    requires x in u && z in u && c in u && TransitiveOn(le, u)
    ensures Tied(le, c)(x) && Tied(le, c)(z) ==> le(x, z)
  {
  }

  /** Inserting `x` skips only elements that `p` does not share with it, so `p`'s elements keep their order. */
  lemma {:induction false} InsertFilter<T>(x: T, t: seq<T>, le: (T, T) -> bool, p: T -> bool)
    requires forall z :: z in t && p(x) && p(z) ==> le(x, z)
    ensures Filter(Insert(x, t, le), p) == Filter([x] + t, p)
    decreases |t|
  {
    if t == [] {
      assert Insert(x, t, le) == [x] + t;
    } else if le(x, t[0]) {
      assert Insert(x, t, le) == [x] + t;
    } else {
      assert t[0] in t;
      forall z | z in t[1..] ensures z in t {
      }
      InsertFilter(x, t[1..], le, p);
      InsertFilterStep(x, t, le, p);
    }
  }

  /** The step of InsertFilter: `x` goes past `t[0]`, which is not one of `p`'s elements when `x` is. */
  lemma InsertFilterStep<T>(x: T, t: seq<T>, le: (T, T) -> bool, p: T -> bool)
    requires t != [] && !le(x, t[0]) && !(p(x) && p(t[0]))
    requires Filter(Insert(x, t[1..], le), p) == Filter([x] + t[1..], p)
    ensures Filter(Insert(x, t, le), p) == Filter([x] + t, p)
  {
    var i := Insert(x, t[1..], le);
    var f := Filter(t[1..], p);
    var kx, kt := Keep(x, p), Keep(t[0], p);
    assert Filter(Insert(x, t, le), p) == kt + Filter(i, p) by {
      assert Insert(x, t, le) == [t[0]] + i;
      FilterCons(t[0], i, p);
    }
    assert Filter(i, p) == kx + f by {
      FilterCons(x, t[1..], p);
    }
    assert Filter([x] + t, p) == kx + (kt + f) by {
      FilterCons(x, t, p);
    }
    SwapKept(Filter(Insert(x, t, le), p), Filter(i, p), Filter([x] + t, p), f, kx, kt);
  }

  /** `kt + (kx + f) == kx + (kt + f)` when one of `kx` and `kt` is empty. */
  lemma SwapKept<T>(a: seq<T>, b: seq<T>, c: seq<T>, f: seq<T>, kx: seq<T>, kt: seq<T>)
    requires a == kt + b && b == kx + f && c == kx + (kt + f) && (kx == [] || kt == [])
    ensures a == c
  {
    if kx == [] {
      assert b == f && c == kt + f;
    } else {
      assert a == b && c == kx + f;
    }
  }

  /** Inserting `x` puts it after no element it ties with `c`, as long as `x` ties with `c` too. */
  lemma InsertStable<T>(x: T, t: seq<T>, le: (T, T) -> bool, c: T, u: seq<T>)
    requires x in u && c in u && Within(t, u) && TransitiveOn(le, u)
    ensures Filter(Insert(x, t, le), Tied(le, c)) == Filter([x] + t, Tied(le, c))
  {
    var p := Tied(le, c);
    forall z | z in t && p(x) && p(z) ensures le(x, z) {
      TiedBefore(x, z, le, c, u);
    }
    InsertFilter(x, t, le, p);
  }

  /**
   * The sort is stable: the elements that tie with any `c` come out in their input order, as
   * with JavaScript's `Array.prototype.sort`; only transitivity of `le` is needed.
   */
  lemma {:induction false} SortStable<T>(s: seq<T>, le: (T, T) -> bool, c: T, u: seq<T>)
    requires Within(s, u) && c in u && TransitiveOn(le, u)
    ensures Filter(Sort(s, le), Tied(le, c)) == Filter(s, Tied(le, c))
  {
    if s != [] {
      assert Within(s[1..], u) by {
        forall y | y in s[1..] ensures y in u {
          assert y in s;
        }
      }
      SortStable(s[1..], le, c, u);
      var t := Sort(s[1..], le);
      assert Within(t, u) by {
        forall y | y in t ensures y in u {
          assert y in multiset(t);
          assert y in s[1..];
        }
      }
      assert s[0] in s;
      InsertStable(s[0], t, le, c, u);
      assert ([s[0]] + t)[1..] == t;
    }
  }

  predicate Distinct<T(==)>(s: seq<T>)
  {
    forall i, j :: 0 <= i < j < |s| ==> s[i] != s[j]
  }

  lemma {:induction false} SubseqDistinct<T>(a: seq<T>, b: seq<T>)
    requires SubseqOf(a, b) && Distinct(b)
    ensures Distinct(a)
    decreases |b|
  {
    if a != [] {
      DistinctTail(b);
      if a[0] == b[0] && SubseqOf(a[1..], b[1..]) {
        SubseqDistinct(a[1..], b[1..]);
        SubseqElements(a[1..], b[1..]);
        assert a == [a[0]] + a[1..];
        DistinctCons(a[0], a[1..]);
      } else {
        SubseqDistinct(a, b[1..]);
      }
    }
  }

  lemma DistinctCons<T>(y: T, t: seq<T>)
    requires Distinct(t) && y !in t
    ensures Distinct([y] + t)
  {
    var r := [y] + t;
    forall i, j | 0 <= i < j < |r| ensures r[i] != r[j] {
      assert r[j] == t[j - 1];
      if i > 0 {
        assert r[i] == t[i - 1];
      }
    }
  }

  lemma DistinctTail<T>(s: seq<T>)
    requires Distinct(s) && s != []
    ensures Distinct(s[1..]) && s[0] !in s[1..]
  {
    forall k | 0 <= k < |s[1..]| ensures s[1..][k] != s[0] {
      assert s[1..][k] == s[k + 1];
    }
  }

  lemma {:induction false} InsertDistinct<T>(x: T, s: seq<T>, le: (T, T) -> bool)
    requires Distinct(s) && x !in s
    ensures Distinct(Insert(x, s, le))
    decreases |s|
  {
    if s != [] {
      DistinctTail(s);
      if le(x, s[0]) {
        DistinctCons(x, s);
      } else {
        InsertDistinct(x, s[1..], le);
        var t := Insert(x, s[1..], le);
        assert s[0] !in multiset(t);
        DistinctCons(s[0], t);
      }
    }
  }

  lemma {:induction false} SortDistinct<T>(s: seq<T>, le: (T, T) -> bool)
    ensures Distinct(s) ==> Distinct(Sort(s, le))
  {
    if s != [] && Distinct(s) {
      DistinctTail(s);
      SortDistinct(s[1..], le);
      var t := Sort(s[1..], le);
      assert s[0] !in multiset(t);
      InsertDistinct(s[0], t, le);
    }
  }

  /** `s.filter(p)`. */
  function Filter<T>(s: seq<T>, p: T -> bool): (r: seq<T>)
    ensures forall i :: 0 <= i < |r| ==> r[i] in s && p(r[i])
    ensures forall i :: 0 <= i < |s| && p(s[i]) ==> s[i] in r
    ensures |r| <= |s|
  {
    if s == [] then []
    else
      var t := Filter(s[1..], p);
      assert forall i :: 1 <= i < |s| ==> s[i] == s[1..][i - 1];
      (if p(s[0]) then [s[0]] else []) + t
  }

  lemma FilterMembers<T>(s: seq<T>, p: T -> bool)
    ensures forall x :: x in Filter(s, p) <==> x in s && p(x)
  {
    var r := Filter(s, p);
    forall x | x in r ensures x in s && p(x) {
      var i :| 0 <= i < |r| && r[i] == x;
    }
    forall x | x in s && p(x) ensures x in r {
      var i :| 0 <= i < |s| && s[i] == x;
    }
  }

  lemma {:induction false} FilterSubseq<T>(s: seq<T>, p: T -> bool)
    ensures SubseqOf(Filter(s, p), s)
  {
    if s != [] {
      FilterSubseq(s[1..], p);
      var f := Filter(s[1..], p);
      if p(s[0]) {
        assert ([s[0]] + f)[1..] == f;
      } else if f != [] {
        assert Filter(s, p) == f;
      }
    }
  }

  /** The index of the first element satisfying `p` at or after `from`, or -1 (`findIndex`). */
  function FindFrom<T>(s: seq<T>, p: T -> bool, from: nat): (r: int)
    ensures r == -1 || (from <= r < |s| && p(s[r]))
    ensures forall j :: from <= j < |s| && (r == -1 || j < r) ==> !p(s[j])
    decreases |s| - from
  {
    if from >= |s| then -1 else if p(s[from]) then from else FindFrom(s, p, from + 1)
  }

  /** The concatenation of the parts, in order. */
  function Concat<T>(parts: seq<seq<T>>): seq<T>
  {
    if parts == [] then [] else parts[0] + Concat(parts[1..])
  }

  /**
   * Keep the first element for each key, skipping keys already in `seen`: a loop that
   * adds each new key to a `Set` and pushes its element.
   */
  function DedupFrom<T, K(==)>(s: seq<T>, key: T -> K, seen: set<K>): seq<T>
  {
    if s == [] then []
    else if key(s[0]) in seen then DedupFrom(s[1..], key, seen)
    else [s[0]] + DedupFrom(s[1..], key, seen + {key(s[0])})
  }

  function Dedup<T, K(==)>(s: seq<T>, key: T -> K): seq<T>
  {
    DedupFrom(s, key, {})
  }

  /** The keys of the elements, in order. */
  function Keys<T, K>(s: seq<T>, key: T -> K): (r: seq<K>)
    ensures |r| == |s| && forall i :: 0 <= i < |s| ==> r[i] == key(s[i])
  {
    if s == [] then [] else [key(s[0])] + Keys(s[1..], key)
  }

  lemma {:induction false} DedupKeysFresh<T, K>(s: seq<T>, key: T -> K, seen: set<K>)
    ensures var r := DedupFrom(s, key, seen);
      Distinct(Keys(r, key)) && forall i :: 0 <= i < |r| ==> key(r[i]) !in seen
  {
    if s != [] {
      if key(s[0]) in seen {
        DedupKeysFresh(s[1..], key, seen);
      } else {
        var seen' := seen + {key(s[0])};
        DedupKeysFresh(s[1..], key, seen');
        var t := DedupFrom(s[1..], key, seen');
        var r := [s[0]] + t;
        forall i | 0 <= i < |r| ensures key(r[i]) !in seen {
          if i > 0 {
            assert r[i] == t[i - 1];
          }
        }
        forall i, j | 0 <= i < j < |r| ensures key(r[i]) != key(r[j]) {
          assert r[j] == t[j - 1];
          if i > 0 {
            assert r[i] == t[i - 1];
            assert Keys(t, key)[i - 1] != Keys(t, key)[j - 1];
          }
        }
      }
    }
  }

  lemma {:induction false} DedupSubseq<T, K>(s: seq<T>, key: T -> K, seen: set<K>)
    ensures SubseqOf(DedupFrom(s, key, seen), s)
  {
    if s != [] {
      if key(s[0]) in seen {
        DedupSubseq(s[1..], key, seen);
      } else {
        DedupSubseq(s[1..], key, seen + {key(s[0])});
        var t := DedupFrom(s[1..], key, seen + {key(s[0])});
        assert ([s[0]] + t)[1..] == t;
      }
    }
  }

  lemma {:induction false} DedupKeepsFirst<T, K>(s: seq<T>, key: T -> K, seen: set<K>, i: nat)
    requires i < |s| && key(s[i]) !in seen
    requires forall j :: 0 <= j < i ==> key(s[j]) != key(s[i])
    ensures s[i] in DedupFrom(s, key, seen)
  {
    if i > 0 {
      var seen' := if key(s[0]) in seen then seen else seen + {key(s[0])};
      assert s[1..][i - 1] == s[i];
      DedupKeepsFirst(s[1..], key, seen', i - 1);
    }
  }

  lemma {:induction false} DedupOfFresh<T, K>(s: seq<T>, key: T -> K, seen: set<K>)
    requires Distinct(Keys(s, key)) && forall i :: 0 <= i < |s| ==> key(s[i]) !in seen
    ensures DedupFrom(s, key, seen) == s
  {
    if s != [] {
      var seen' := seen + {key(s[0])};
      forall i | 0 <= i < |s[1..]| ensures key(s[1..][i]) !in seen' {
        assert Keys(s, key)[0] != Keys(s, key)[i + 1];
      }
      assert Distinct(Keys(s[1..], key)) by {
        forall i, j | 0 <= i < j < |s[1..]| ensures Keys(s[1..], key)[i] != Keys(s[1..], key)[j] {
          assert Keys(s, key)[i + 1] != Keys(s, key)[j + 1];
        }
      }
      DedupOfFresh(s[1..], key, seen');
      assert s == [s[0]] + s[1..];
    }
  }

  /** Deduplicating twice gives what deduplicating once gives. */
  lemma DedupIdempotent<T, K>(s: seq<T>, key: T -> K)
    ensures Dedup(Dedup(s, key), key) == Dedup(s, key)
  {
    DedupKeysFresh(s, key, {});
    DedupOfFresh(Dedup(s, key), key, {});
  }

  /** Every key of the input is either already seen or the key of some element of the output. */
  lemma {:induction false} DedupCovers<T, K>(s: seq<T>, key: T -> K, seen: set<K>)
    ensures forall i :: 0 <= i < |s| ==> key(s[i]) in seen || key(s[i]) in Keys(DedupFrom(s, key, seen), key)
  {
    if s != [] {
      var seen' := if key(s[0]) in seen then seen else seen + {key(s[0])};
      DedupCovers(s[1..], key, seen');
      var t := DedupFrom(s[1..], key, seen');
      var r := DedupFrom(s, key, seen);
      forall i | 0 <= i < |s| ensures key(s[i]) in seen || key(s[i]) in Keys(r, key) {
        if key(s[i]) !in seen {
          if key(s[0]) !in seen {
            assert r == [s[0]] + t;
            if key(s[i]) == key(s[0]) {
              assert Keys(r, key)[0] == key(s[i]);
            } else {
              assert s[i] == s[1..][i - 1];
              var j :| 0 <= j < |t| && Keys(t, key)[j] == key(s[i]);
              assert Keys(r, key)[j + 1] == key(t[j]);
            }
          } else {
            assert r == t;
            assert s[i] == s[1..][i - 1];
          }
        }
      }
    }
  }

  /** Filtering by a test every element passes changes nothing. */
  lemma {:induction false} FilterAll<T>(s: seq<T>, p: T -> bool)
    requires forall i :: 0 <= i < |s| ==> p(s[i])
    ensures Filter(s, p) == s
  {
    if s != [] {
      assert forall i :: 0 <= i < |s[1..]| ==> p(s[1..][i]) by {
        forall i | 0 <= i < |s[1..]| ensures p(s[1..][i]) {
          assert s[1..][i] == s[i + 1];
        }
      }
      FilterAll(s[1..], p);
    }
  }

  /** Sorting what is already in order changes nothing. */
  lemma {:induction false} SortOfSorted<T>(s: seq<T>, le: (T, T) -> bool)
    requires SortedBy(s, le)
    ensures Sort(s, le) == s
  {
    if s != [] {
      SortedTail(s, le);
      SortOfSorted(s[1..], le);
      if |s| > 1 {
        assert le(s[0], s[1..][0]);
      }
      assert [s[0]] + s[1..] == s;
    }
  }

  /** The empty sequence in front changes nothing. */
  lemma EmptyAppend<T>(a: seq<T>)
    ensures [] + a == a
  {
  }

  /** Concatenation regroups freely. */
  lemma AppendAssoc<T>(a: seq<T>, b: seq<T>, c: seq<T>)
    ensures a + (b + c) == (a + b) + c
  {
  }
}
