/** The price table: one row per one-minute bar, oldest first, as the indicator step sees it. */
module Frames {
  import opened Wrappers

  /** A computed indicator column, named MA_<period> or RSI_<period> in the table. */
  datatype Column = MovingAverage(period: nat) | Rsi(period: nat)

  /** One row of the table: its timestamp (the table's index), its closing price (None when
      missing or not a number) and the indicator columns present, each None where it is NaN. */
  datatype Row = Row(time: int, close: Option<real>, columns: map<Column, Option<real>>)

  /** The part of a row that comes from the fetched bar rather than from indicator code. */
  datatype Bar = Bar(time: int, close: Option<real>)

  function Origin(row: Row): Bar {
    Bar(row.time, row.close)
  }

  function Origins(t: seq<Row>): seq<Bar> {
    seq(|t|, i requires 0 <= i < |t| => Origin(t[i]))
  }

  function Last<T>(s: seq<T>): T
    requires s != []
  {
    s[|s| - 1]
  }

  /** The rows of `s` that `keep` accepts, in the order they have in `s` (pandas `dropna`). */
  function Filter<T(==)>(keep: T -> bool, s: seq<T>): (r: seq<T>)
    ensures |r| <= |s|
    ensures forall x :: x in r ==> x in s && keep(x)
    ensures forall x :: x in s && keep(x) ==> x in r
  {
    if s == [] then []
    else if keep(s[0]) then [s[0]] + Filter(keep, s[1..])
    else Filter(keep, s[1..])
  }

  /** Filtering keeps every copy of an accepted row and no copy of a rejected one. */
  lemma {:induction false} FilterCounts<T>(keep: T -> bool, s: seq<T>)
    ensures forall x :: x in s ==> multiset(Filter(keep, s))[x] == (if keep(x) then multiset(s)[x] else 0)
    decreases |s|
  {
    if s != [] {
      FilterCounts(keep, s[1..]);
      assert s == [s[0]] + s[1..];
      forall x | x in s
        ensures multiset(Filter(keep, s))[x] == (if keep(x) then multiset(s)[x] else 0)
      {
        if x !in s[1..] {
          assert multiset(s[1..])[x] == 0;
          assert multiset(Filter(keep, s[1..]))[x] == 0;
        }
      }
    }
  }

  /** `a` is `b` with some elements left out and none reordered. */
  ghost predicate Subseq<T>(a: seq<T>, b: seq<T>)
    decreases |b|
  {
    && |a| <= |b|
    && (|| a == []
        || (a[0] == b[0] && Subseq(a[1..], b[1..]))
        || Subseq(a, b[1..]))
  }

  /** Timestamps strictly increase down the table. */
  ghost predicate Chronological(t: seq<Row>) {
    forall i, j :: 0 <= i < j < |t| ==> t[i].time < t[j].time
  }

  lemma {:induction false} SubseqReflexive<T>(a: seq<T>)
    ensures Subseq(a, a)
    decreases |a|
  {
    if a != [] {
      SubseqReflexive(a[1..]);
    }
  }

  lemma {:induction false} SubseqMembers<T>(a: seq<T>, b: seq<T>, x: T)
    requires Subseq(a, b) && x in a
    ensures x in b
    decreases |b|
  {
    if a[0] == b[0] && Subseq(a[1..], b[1..]) {
      if x != a[0] {
        assert x in a[1..];
        SubseqMembers(a[1..], b[1..], x);
      }
    } else {
      SubseqMembers(a, b[1..], x);
    }
  }

  lemma {:induction false} SubseqTransitive<T>(a: seq<T>, b: seq<T>, c: seq<T>)
    requires Subseq(a, b) && Subseq(b, c)
    ensures Subseq(a, c)
    decreases |c|
  {
    if a == [] {
    } else if Subseq(b, c[1..]) {
      SubseqTransitive(a, b, c[1..]);
    } else if a[0] == b[0] && Subseq(a[1..], b[1..]) {
      SubseqTransitive(a[1..], b[1..], c[1..]);
    } else {
      SubseqTransitive(a, b[1..], c[1..]);
    }
  }

  /** Filtering drops rows and never reorders the ones it keeps. */
  lemma {:induction false} FilterIsSubseq<T>(keep: T -> bool, s: seq<T>)
    ensures Subseq(Filter(keep, s), s)
    decreases |s|
  {
    if s != [] {
      FilterIsSubseq(keep, s[1..]);
      var rest := Filter(keep, s[1..]);
      if keep(s[0]) {
        assert ([s[0]] + rest)[1..] == rest;
      }
    }
  }

  /** A filtered chronological table is still chronological. */
  lemma {:induction false} FilterChronological(keep: Row -> bool, t: seq<Row>)
    requires Chronological(t)
    ensures Chronological(Filter(keep, t))
    decreases |t|
  {
    if t != [] {
      var rest := Filter(keep, t[1..]);
      FilterChronological(keep, t[1..]);
      if keep(t[0]) {
        var r := [t[0]] + rest;
        forall i, j | 0 <= i < j < |r|
          ensures r[i].time < r[j].time
        {
          assert r[j] == rest[j - 1];
          if i == 0 {
            assert rest[j - 1] in t[1..];
            var k :| 0 <= k < |t[1..]| && t[1..][k] == rest[j - 1];
            assert t[k + 1] == r[j];
          } else {
            assert r[i] == rest[i - 1];
          }
        }
      }
    }
  }

  /** In a chronological table the last row is the newest one. */
  lemma LastIsNewest(t: seq<Row>)
    requires t != []
    ensures Chronological(t) ==> forall b :: b in Origins(t) ==> b.time <= Last(Origins(t)).time
  {
  }

  /** Dropping rows of a table drops the matching bars from its origins. */
  lemma {:induction false} SubseqOrigins(a: seq<Row>, b: seq<Row>)
    requires Subseq(a, b)
    ensures Subseq(Origins(a), Origins(b))
    decreases |b|
  {
    if a == [] {
    } else if a[0] == b[0] && Subseq(a[1..], b[1..]) {
      SubseqOrigins(a[1..], b[1..]);
      assert Origins(a)[1..] == Origins(a[1..]);
      assert Origins(b)[1..] == Origins(b[1..]);
    } else {
      SubseqOrigins(a, b[1..]);
      assert Origins(b)[1..] == Origins(b[1..]);
    }
  }
}
