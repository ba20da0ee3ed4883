/**
 * Sequence operations the client relies on from Rust's standard library:
 * `into_iter().filter(p).collect()` and `join(sep)` on a vector of strings.
 */
module Seqs {

  /** The elements of `s` that satisfy `p`, in their original order. */
  function Filter<T>(s: seq<T>, p: T -> bool): (r: seq<T>)
    ensures |r| <= |s|
    ensures forall x :: x in r ==> x in s && p(x)
    ensures forall x :: x in s && p(x) ==> x in r
  {
    if s == [] then []
    else if p(s[0]) then [s[0]] + Filter(s[1..], p)
    else Filter(s[1..], p)
  }

  /** `a` is `b` with some elements removed and the rest kept in order. */
  predicate IsSubsequence<T(==)>(a: seq<T>, b: seq<T>)
  {
    if a == [] then true
    else if b == [] then false
    else if a[0] == b[0] then IsSubsequence(a[1..], b[1..])
    else IsSubsequence(a, b[1..])
  }

  lemma {:induction false} FilterIsSubsequence<T>(s: seq<T>, p: T -> bool)
    ensures IsSubsequence(Filter(s, p), s)
  {
    if s != [] {
      FilterIsSubsequence(s[1..], p);
      if !p(s[0]) {
        SkipHeadKeepsSubsequence(Filter(s[1..], p), s);
      }
    }
  }

  /** Dropping the head of the larger sequence keeps a subsequence a subsequence of it. */
  lemma {:induction false} SkipHeadKeepsSubsequence<T>(a: seq<T>, b: seq<T>)
    requires b != [] && IsSubsequence(a, b[1..])
    ensures IsSubsequence(a, b)
  {
    if a != [] && a[0] == b[0] {
      SubsequenceDropHead(a, b[1..]);
    }
  }

  lemma {:induction false} SubsequenceDropHead<T>(a: seq<T>, b: seq<T>)
    requires a != [] && IsSubsequence(a, b)
    ensures IsSubsequence(a[1..], b)
  {
    assert b != [];
    if a[0] == b[0] {
      if a[1..] != [] {
        SubsequenceDropHead(a[1..], b[1..]);
        SkipHeadKeepsSubsequence(a[1..], b);
      }
    } else {
      SubsequenceDropHead(a, b[1..]);
      if a[1..] != [] {
        SkipHeadKeepsSubsequence(a[1..], b);
      }
    }
  }

  /** Filtering keeps every satisfying element as often as it occurs, and no other element. */
  lemma {:induction false} FilterMultiplicity<T>(s: seq<T>, p: T -> bool, x: T)
    ensures multiset(Filter(s, p))[x] == if p(x) then multiset(s)[x] else 0
  {
    if s != [] {
      FilterMultiplicity(s[1..], p, x);
      assert s == [s[0]] + s[1..];
    }
  }

  /** Two successive filters are one filter on the conjunction of their conditions. */
  lemma {:induction false} FilterFilter<T>(s: seq<T>, p: T -> bool, q: T -> bool, pq: T -> bool)
    requires forall x :: pq(x) == (p(x) && q(x))
    ensures Filter(Filter(s, p), q) == Filter(s, pq)
  {
    if s != [] {
      FilterFilter(s[1..], p, q, pq);
      if p(s[0]) {
        assert Filter(s, p) == [s[0]] + Filter(s[1..], p);
        assert Filter(s, p)[1..] == Filter(s[1..], p);
      }
    }
  }

  /** A filter whose condition every element satisfies changes nothing. */
  lemma {:induction false} FilterAll<T>(s: seq<T>, p: T -> bool)
    requires forall x :: x in s ==> p(x)
    ensures Filter(s, p) == s
  {
    if s != [] {
      FilterAll(s[1..], p);
      assert s == [s[0]] + s[1..];
    }
  }

  /** Filters with the same condition on every element give the same result. */
  lemma {:induction false} FilterCongruent<T>(s: seq<T>, p: T -> bool, q: T -> bool)
    requires forall x :: x in s ==> p(x) == q(x)
    ensures Filter(s, p) == Filter(s, q)
  {
    if s != [] {
      FilterCongruent(s[1..], p, q);
    }
  }

  /** The head of a non-empty filter result is the first element that satisfies the condition. */
  lemma {:induction false} FilterHeadIsFirst<T>(s: seq<T>, p: T -> bool)
    requires Filter(s, p) != []
    ensures exists i :: 0 <= i < |s| && s[i] == Filter(s, p)[0] && p(s[i]) &&
                        forall j :: 0 <= j < i ==> !p(s[j])
  {
    if !p(s[0]) {
      FilterHeadIsFirst(s[1..], p);
      var i :| 0 <= i < |s[1..]| && s[1..][i] == Filter(s[1..], p)[0] && p(s[1..][i]) &&
               forall j :: 0 <= j < i ==> !p(s[1..][j]);
      assert s[i + 1] == s[1..][i];
      forall j | 0 <= j < i + 1 ensures !p(s[j]) {
        if j > 0 { assert s[j] == s[1..][j - 1]; }
      }
    } else {
      assert s[0] == Filter(s, p)[0];
    }
  }

  /** `needle` occurs in `hay` starting at position `i`. */
  predicate OccursAt<T(==)>(hay: seq<T>, needle: seq<T>, i: nat)
  {
    i + |needle| <= |hay| && hay[i..i + |needle|] == needle
  }

  /**
   * Where `s` continues from `i` with `tag`, then `field`, then `rest`:
   * both occur there, one after the other, and `rest` follows them.
   */
  lemma ReadPair<T>(s: seq<T>, i: nat, tag: seq<T>, field: seq<T>, rest: seq<T>)
    requires i <= |s| && s[i..] == tag + (field + rest)
    ensures OccursAt(s, tag, i) && OccursAt(s, field, i + |tag|)
    ensures s[i + |tag| + |field|..] == rest
  {
    var t := s[i..];
    assert s[i..i + |tag|] == t[..|tag|];
    assert s[i + |tag|..i + |tag| + |field|] == t[|tag|..][..|field|];
    assert s[i + |tag| + |field|..] == t[|tag|..][|field|..];
  }

  /** Three tag and field pairs in a row, read one after the other. */
  lemma ReadThreePairs<T>(s: seq<T>, i: nat, t0: seq<T>, f0: seq<T>, t1: seq<T>, f1: seq<T>,
                          t2: seq<T>, f2: seq<T>, rest: seq<T>)
    requires i <= |s| && s[i..] == t0 + (f0 + (t1 + (f1 + (t2 + (f2 + rest)))))
    ensures OccursAt(s, t0, i) && OccursAt(s, f0, i + |t0|)
    ensures OccursAt(s, t1, i + |t0| + |f0|) && OccursAt(s, f1, i + |t0| + |f0| + |t1|)
    ensures OccursAt(s, t2, i + |t0| + |f0| + |t1| + |f1|)
    ensures OccursAt(s, f2, i + |t0| + |f0| + |t1| + |f1| + |t2|)
    ensures s[i + |t0| + |f0| + |t1| + |f1| + |t2| + |f2|..] == rest
  {
    ReadPair(s, i, t0, f0, t1 + (f1 + (t2 + (f2 + rest))));
    ReadPair(s, i + |t0| + |f0|, t1, f1, t2 + (f2 + rest));
    ReadPair(s, i + |t0| + |f0| + |t1| + |f1|, t2, f2, rest);
  }

  /** Three tag and field pairs that end `s`, read one after the other. */
  lemma ReadLastThreePairs<T>(s: seq<T>, i: nat, t0: seq<T>, f0: seq<T>, t1: seq<T>, f1: seq<T>,
                              t2: seq<T>, f2: seq<T>)
    requires i <= |s| && s[i..] == t0 + (f0 + (t1 + (f1 + (t2 + f2))))
    ensures OccursAt(s, t0, i) && OccursAt(s, f0, i + |t0|)
    ensures OccursAt(s, t1, i + |t0| + |f0|) && OccursAt(s, f1, i + |t0| + |f0| + |t1|)
    ensures OccursAt(s, t2, i + |t0| + |f0| + |t1| + |f1|)
    ensures OccursAt(s, f2, i + |t0| + |f0| + |t1| + |f1| + |t2|)
    ensures i + |t0| + |f0| + |t1| + |f1| + |t2| + |f2| == |s|
  {
    assert f2 + [] == f2;
    ReadThreePairs(s, i, t0, f0, t1, f1, t2, f2, []);
  }

  /** Six tag and field pairs that make up all of `s`, read one after the other. */
  lemma ReadSixPairs<T>(s: seq<T>, t0: seq<T>, f0: seq<T>, t1: seq<T>, f1: seq<T>, t2: seq<T>, f2: seq<T>,
                        t3: seq<T>, f3: seq<T>, t4: seq<T>, f4: seq<T>, t5: seq<T>, f5: seq<T>)
    requires s == t0 + (f0 + (t1 + (f1 + (t2 + (f2 + (t3 + (f3 + (t4 + (f4 + (t5 + f5))))))))))
    ensures OccursAt(s, t0, 0) && OccursAt(s, f0, |t0|)
    ensures OccursAt(s, t1, |t0| + |f0|) && OccursAt(s, f1, |t0| + |f0| + |t1|)
    ensures OccursAt(s, t2, |t0| + |f0| + |t1| + |f1|)
    ensures OccursAt(s, f2, |t0| + |f0| + |t1| + |f1| + |t2|)
    ensures OccursAt(s, t3, |t0| + |f0| + |t1| + |f1| + |t2| + |f2|)
    ensures OccursAt(s, f3, |t0| + |f0| + |t1| + |f1| + |t2| + |f2| + |t3|)
    ensures OccursAt(s, t4, |t0| + |f0| + |t1| + |f1| + |t2| + |f2| + |t3| + |f3|)
    ensures OccursAt(s, f4, |t0| + |f0| + |t1| + |f1| + |t2| + |f2| + |t3| + |f3| + |t4|)
    ensures OccursAt(s, t5, |t0| + |f0| + |t1| + |f1| + |t2| + |f2| + |t3| + |f3| + |t4| + |f4|)
    ensures OccursAt(s, f5, |t0| + |f0| + |t1| + |f1| + |t2| + |f2| + |t3| + |f3| + |t4| + |f4| + |t5|)
    ensures |s| == |t0| + |f0| + |t1| + |f1| + |t2| + |f2| + |t3| + |f3| + |t4| + |f4| + |t5| + |f5|
  {
    var rest := t3 + (f3 + (t4 + (f4 + (t5 + f5))));
    assert s[0..] == s;
    ReadThreePairs(s, 0, t0, f0, t1, f1, t2, f2, rest);
    ReadLastThreePairs(s, |t0| + |f0| + |t1| + |f1| + |t2| + |f2|, t3, f3, t4, f4, t5, f5);
  }

  /** Rust's `join(sep)` on a vector of strings. */
  function Join(parts: seq<string>, sep: string): string
  {
    if parts == [] then ""
    else if |parts| == 1 then parts[0]
    else parts[0] + sep + Join(parts[1..], sep)
  }

  /** The sum of the lengths of `parts`. */
  function TotalLength(parts: seq<string>): nat
  {
    if parts == [] then 0 else |parts[0]| + TotalLength(parts[1..])
  }

  /** Joining `n` non-empty parts inserts exactly `n - 1` separators. */
  lemma {:induction false} JoinLength(parts: seq<string>, sep: string)
    requires parts != []
    ensures |Join(parts, sep)| == TotalLength(parts) + (|parts| - 1) * |sep|
  {
    if |parts| > 1 {
      JoinLength(parts[1..], sep);
    }
  }

  /** Joining a concatenation puts one separator between the two joined halves. */
  lemma {:induction false} JoinAppend(a: seq<string>, b: seq<string>, sep: string)
    requires a != [] && b != []
    ensures Join(a + b, sep) == Join(a, sep) + sep + Join(b, sep)
  {
    if |a| == 1 {
      assert (a + b)[1..] == b;
    } else {
      JoinAppend(a[1..], b, sep);
      assert (a + b)[1..] == a[1..] + b;
    }
  }

  /** The number of times `c` occurs in `s`. */
  function Count(c: char, s: string): nat
  {
    if s == [] then 0 else (if s[0] == c then 1 else 0) + Count(c, s[1..])
  }

  lemma {:induction false} CountAppend(c: char, s: string, t: string)
    ensures Count(c, s + t) == Count(c, s) + Count(c, t)
  {
    if s != [] {
      CountAppend(c, s[1..], t);
      assert (s + t)[1..] == s[1..] + t;
    } else {
      assert s + t == t;
    }
  }

  /** Splits `s` at every occurrence of `sep`, as Rust's `split(char)` does: `""` splits into `[""]`. */
  function Split(s: string, sep: char): (r: seq<string>)
    ensures r != []
  {
    if s == [] then [""]
    else
      var rest := Split(s[1..], sep);
      if s[0] == sep then [""] + rest else [[s[0]] + rest[0]] + rest[1..]
  }

  /** A leading run without the separator sticks to the first piece of what follows it. */
  lemma {:induction false} SplitPrefix(a: string, t: string, sep: char)
    requires sep !in a
    ensures Split(a + t, sep) == [a + Split(t, sep)[0]] + Split(t, sep)[1..]
  {
    if a == [] {
      assert a + t == t;
      var r := Split(t, sep);
      assert r == [r[0]] + r[1..];
      assert a + r[0] == r[0];
    } else {
      var r := Split(t, sep);
      SplitPrefix(a[1..], t, sep);
      assert (a + t)[1..] == a[1..] + t;
      var rest := Split(a[1..] + t, sep);
      assert rest[0] == a[1..] + r[0] && rest[1..] == r[1..];
      assert (a + t)[0] == a[0] != sep;
      assert [a[0]] + (a[1..] + r[0]) == a + r[0];
    }
  }

  /** Splitting undoes joining when no part contains the separator. */
  lemma {:induction false} SplitJoin(parts: seq<string>, sep: char)
    requires parts != []
    requires forall i :: 0 <= i < |parts| ==> sep !in parts[i]
    ensures Split(Join(parts, [sep]), sep) == parts
  {
    if |parts| == 1 {
      SplitPrefix(parts[0], "", sep);
      assert parts[0] + "" == parts[0];
    } else {
      var rest := Join(parts[1..], [sep]);
      SplitJoin(parts[1..], sep);
      assert parts[0] + [sep] + rest == parts[0] + ([sep] + rest);
      SplitPrefix(parts[0], [sep] + rest, sep);
      assert ([sep] + rest)[1..] == rest;
      assert parts[0] + "" == parts[0];
      assert parts == [parts[0]] + parts[1..];
    }
  }

  /** The number of times `c` occurs in all of `parts` together. */
  function CountAll(c: char, parts: seq<string>): nat
  {
    if parts == [] then 0 else Count(c, parts[0]) + CountAll(c, parts[1..])
  }

  /** Joining `n` parts with `[c]` adds exactly `n - 1` occurrences of `c`. */
  lemma {:induction false} JoinCount(parts: seq<string>, c: char)
    requires parts != []
    ensures Count(c, Join(parts, [c])) == CountAll(c, parts) + |parts| - 1
  {
    if |parts| == 1 {
      assert parts[1..] == [];
    } else {
      JoinCount(parts[1..], c);
      CountAppend(c, parts[0] + [c], Join(parts[1..], [c]));
      CountAppend(c, parts[0], [c]);
      assert [c][1..] == [];
    }
  }

  /** Length and separator count of a join, for a possibly empty list of parts. */
  lemma JoinFacts(parts: seq<string>, c: char)
    ensures parts != [] ==>
              |Join(parts, [c])| == TotalLength(parts) + |parts| - 1 &&
              Count(c, Join(parts, [c])) == CountAll(c, parts) + |parts| - 1
  {
    if parts != [] {
      JoinLength(parts, [c]);
      JoinCount(parts, c);
    }
  }

  /** Filtering a sequence extended by one element filters that element on its own. */
  lemma {:induction false} FilterAppendOne<T>(s: seq<T>, x: T, p: T -> bool)
    ensures Filter(s + [x], p) == Filter(s, p) + (if p(x) then [x] else [])
  {
    if s == [] {
      assert s + [x] == [x];
      assert [x][1..] == [];
    } else {
      FilterAppendOne(s[1..], x, p);
      assert (s + [x])[1..] == s[1..] + [x];
    }
  }

  /** The order of two filters does not matter. */
  lemma FilterCommute<T>(s: seq<T>, p: T -> bool, q: T -> bool)
    ensures Filter(Filter(s, p), q) == Filter(Filter(s, q), p)
  {
    var pq := (x: T) => p(x) && q(x);
    var qp := (x: T) => q(x) && p(x);
    FilterFilter(s, p, q, pq);
    FilterFilter(s, q, p, qp);
    FilterCongruent(s, pq, qp);
  }
}
