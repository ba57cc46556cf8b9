/** Lists of dated records kept newest first, and what they say about the files they index. */
module RecordIndexes {
  import opened Wrappers

  /** A stored record; times are ordered as their text. */
  datatype Record<V> = Record(id: string, updatedAt: int, data: V)

  ghost predicate Descending<V>(s: seq<Record<V>>) {
    forall i, j :: 0 <= i < j < |s| ==> s[i].updatedAt >= s[j].updatedAt
  }

  ghost predicate Distinct<V>(s: seq<Record<V>>) {
    forall i, j :: 0 <= i < j < |s| ==> s[i].id != s[j].id
  }

  // Sorting, newest first; records of one time keep their order.

  function InsertDesc<V>(s: seq<Record<V>>, r: Record<V>): seq<Record<V>> {
    if s == [] then [r]
    else if s[0].updatedAt >= r.updatedAt then [s[0]] + InsertDesc(s[1..], r)
    else [r] + s
  }

  function SortDesc<V>(s: seq<Record<V>>): seq<Record<V>> {
    if s == [] then [] else InsertDesc(SortDesc(s[..|s| - 1]), s[|s| - 1])
  }

  /** The records of a list that satisfy p, in their order. */
  function Where<V>(s: seq<Record<V>>, p: Record<V> -> bool): seq<Record<V>> {
    if s == [] then [] else (if p(s[0]) then [s[0]] else []) + Where(s[1..], p)
  }

  /** The records of one moment, in their order. */
  function At<V>(s: seq<Record<V>>, t: int): seq<Record<V>> {
    if s == [] then [] else (if s[0].updatedAt == t then [s[0]] else []) + At(s[1..], t)
  }

  lemma {:induction false} InsertPermutes<V>(s: seq<Record<V>>, r: Record<V>)
    ensures multiset(InsertDesc(s, r)) == multiset(s) + multiset{r}
  {
    if s != [] {
      assert s == [s[0]] + s[1..];
      if s[0].updatedAt >= r.updatedAt {
        InsertPermutes(s[1..], r);
      }
    }
  }

  lemma InsertMembers<V>(s: seq<Record<V>>, r: Record<V>, x: Record<V>)
    ensures x in InsertDesc(s, r) <==> x in s || x == r
  {
    InsertPermutes(s, r);
    assert x in InsertDesc(s, r) <==> x in multiset(InsertDesc(s, r));
    assert x in s <==> x in multiset(s);
  }

  lemma {:induction false} InsertDescends<V>(s: seq<Record<V>>, r: Record<V>)
    requires Descending(s)
    ensures Descending(InsertDesc(s, r))
  {
    if s != [] && s[0].updatedAt >= r.updatedAt {
      InsertDescends(s[1..], r);
      var rest := InsertDesc(s[1..], r);
      forall j | 0 <= j < |rest| ensures s[0].updatedAt >= rest[j].updatedAt {
        InsertMembers(s[1..], r, rest[j]);
      }
    }
  }

  lemma {:induction false} AtConcat<V>(a: seq<Record<V>>, b: seq<Record<V>>, t: int)
    ensures At(a + b, t) == At(a, t) + At(b, t)
  {
    if a == [] {
      assert a + b == b;
    } else {
      var x, rest := a[0], a[1..];
      AtConcat(rest, b, t);
      AtFirst(x, rest, t);
      AtFirst(x, rest + b, t);
      assert a == [x] + rest && a + b == [x] + (rest + b);
    }
  }

  lemma {:induction false} NoneAt<V>(s: seq<Record<V>>, t: int)
    requires forall r <- s :: r.updatedAt != t
    ensures At(s, t) == []
  {
    if s != [] {
      NoneAt(s[1..], t);
    }
  }

  /** An insertion puts a record behind those of its moment. */
  lemma {:induction false} InsertAt<V>(s: seq<Record<V>>, r: Record<V>, t: int)
    requires Descending(s)
    ensures At(InsertDesc(s, r), t) == At(s + [r], t)
  {
    if s != [] {
      if s[0].updatedAt >= r.updatedAt {
        InsertAt(s[1..], r, t);
        AtFirst(s[0], InsertDesc(s[1..], r), t);
        assert s + [r] == [s[0]] + (s[1..] + [r]);
        AtFirst(s[0], s[1..] + [r], t);
      } else {
        AtConcat(s, [r], t);
        AtFirst(r, s, t);
        if t == r.updatedAt {
          NoneAt(s, t);
        }
      }
    }
  }

  lemma AtFirst<V>(x: Record<V>, rest: seq<Record<V>>, t: int)
    ensures At([x] + rest, t) == (if x.updatedAt == t then [x] else []) + At(rest, t)
  {
    assert ([x] + rest)[1..] == rest;
  }

  /** What sorting does: the same records, newest first, those of one moment in the order they were in. */
  lemma {:induction false} SortSorts<V>(s: seq<Record<V>>)
    ensures Descending(SortDesc(s)) && multiset(SortDesc(s)) == multiset(s)
    ensures forall t :: At(SortDesc(s), t) == At(s, t)
  {
    if s != [] {
      var front, last := s[..|s| - 1], s[|s| - 1];
      assert s == front + [last];
      SortSorts(front);
      InsertPermutes(SortDesc(front), last);
      InsertDescends(SortDesc(front), last);
      forall t ensures At(SortDesc(s), t) == At(s, t) {
        InsertAt(SortDesc(front), last, t);
        AtConcat(SortDesc(front), [last], t);
        AtConcat(front, [last], t);
      }
    }
  }

  lemma {:induction false} AtHead<V>(s: seq<Record<V>>, t: int)
    requires At(s, t) != []
    ensures exists r <- s :: r.updatedAt == t
  {
    if s[0].updatedAt != t {
      AtHead(s[1..], t);
      var r :| r in s[1..] && r.updatedAt == t;
      assert r in s;
    }
  }

  lemma SameMomentsNonempty<V>(a: seq<Record<V>>, b: seq<Record<V>>)
    requires (forall t :: At(a, t) == At(b, t)) && a != []
    ensures b != []
  {
    assert At(a, a[0].updatedAt) == At(b, a[0].updatedAt);
  }

  /** No other list is that. */
  lemma {:induction false} SortIsUnique<V>(a: seq<Record<V>>, b: seq<Record<V>>)
    requires Descending(a) && Descending(b) && forall t :: At(a, t) == At(b, t)
    ensures a == b
  {
    if a != [] || b != [] {
      SameMomentsNonempty(a, b);
      SameMomentsNonempty(b, a);
      assert At(a, a[0].updatedAt)[0] == a[0];
      AtHead(b, a[0].updatedAt);
      assert At(a, b[0].updatedAt) == At(b, b[0].updatedAt) != [];
      AtHead(a, b[0].updatedAt);
      assert a[0].updatedAt == b[0].updatedAt;
      var moment := a[0].updatedAt;
      forall t ensures At(a[1..], t) == At(b[1..], t) {
        assert At(a, t) == At(b, t);
        assert At(a, t) == (if a[0].updatedAt == t then [a[0]] else []) + At(a[1..], t);
        assert At(b, t) == (if b[0].updatedAt == t then [b[0]] else []) + At(b[1..], t);
        if t == moment {
          assert At(a[1..], t) == At(a, t)[1..];
          assert At(b[1..], t) == At(b, t)[1..];
        } else {
          assert At(a[1..], t) == At(a, t);
          assert At(b[1..], t) == At(b, t);
        }
      }
      SortIsUnique(a[1..], b[1..]);
    }
  }

  lemma SortMember<V>(s: seq<Record<V>>, x: Record<V>)
    ensures x in SortDesc(s) <==> x in s
  {
    SortSorts(s);
    assert x in SortDesc(s) <==> x in multiset(SortDesc(s));
    assert x in s <==> x in multiset(s);
  }

  lemma SortLength<V>(s: seq<Record<V>>)
    ensures |SortDesc(s)| == |s|
  {
    SortSorts(s);
    assert |multiset(SortDesc(s))| == |multiset(s)|;
  }

  // Ids.

  lemma DistinctEnds<V>(s: seq<Record<V>>)
    requires Distinct(s) && s != []
    ensures Distinct(s[1..]) && Distinct(s[..|s| - 1])
    ensures forall x <- s[1..] :: x.id != s[0].id
    ensures forall x <- s[..|s| - 1] :: x.id != s[|s| - 1].id
  {
  }

  lemma DistinctCons<V>(s: seq<Record<V>>)
    requires s != [] && Distinct(s[1..]) && forall x <- s[1..] :: x.id != s[0].id
    ensures Distinct(s)
  {
    forall i, j | 0 <= i < j < |s| ensures s[i].id != s[j].id {
      assert s[j] == s[1..][j - 1];
      if i > 0 {
        assert s[i] == s[1..][i - 1];
      }
    }
  }

  lemma {:induction false} DistinctInsert<V>(s: seq<Record<V>>, r: Record<V>)
    requires Distinct(s) && forall x <- s :: x.id != r.id
    ensures Distinct(InsertDesc(s, r))
  {
    if s != [] && s[0].updatedAt >= r.updatedAt {
      assert forall x <- s[1..] :: x in s;
      DistinctInsert(s[1..], r);
      var rest := InsertDesc(s[1..], r);
      forall j | 0 <= j < |rest| ensures s[0].id != rest[j].id {
        InsertMembers(s[1..], r, rest[j]);
      }
    }
  }

  lemma {:induction false} DistinctSort<V>(s: seq<Record<V>>)
    requires Distinct(s)
    ensures Distinct(SortDesc(s))
  {
    if s != [] {
      var front, last := s[..|s| - 1], s[|s| - 1];
      DistinctEnds(s);
      DistinctSort(front);
      forall x | x in SortDesc(front) ensures x.id != last.id {
        SortMember(front, x);
      }
      DistinctInsert(SortDesc(front), last);
    }
  }

  lemma {:induction false} WhereMember<V>(s: seq<Record<V>>, p: Record<V> -> bool, x: Record<V>)
    ensures x in Where(s, p) <==> x in s && p(x)
  {
    if s != [] {
      WhereMember(s[1..], p, x);
      assert s == [s[0]] + s[1..];
    }
  }

  lemma {:induction false} WhereDistinct<V>(s: seq<Record<V>>, p: Record<V> -> bool)
    requires Distinct(s)
    ensures Distinct(Where(s, p))
  {
    if s != [] {
      DistinctEnds(s);
      WhereDistinct(s[1..], p);
      if p(s[0]) {
        assert Where(s, p)[1..] == Where(s[1..], p);
        forall x | x in Where(s[1..], p) ensures x.id != s[0].id {
          WhereMember(s[1..], p, x);
        }
        DistinctCons(Where(s, p));
      }
    }
  }

  lemma {:induction false} DistinctCount<V>(s: seq<Record<V>>)
    requires Distinct(s)
    ensures |(set r | r in s)| == |s|
  {
    if s != [] {
      DistinctCount(s[1..]);
      assert (set r | r in s) == (set r | r in s[1..]) + {s[0]};
    }
  }

  // An index of files.

  /** The entries of an index that are not about this record. */
  function Others<V>(index: seq<Record<V>>, id: string): seq<Record<V>> {
    if index == [] then [] else (if index[0].id != id then [index[0]] else []) + Others(index[1..], id)
  }

  /** The index after saving a record: its old entry goes, its new one is sorted in. */
  function Put<V>(index: seq<Record<V>>, r: Record<V>): seq<Record<V>> {
    SortDesc(Others(index, r.id) + [r])
  }

  function Entry<V, W>(r: Record<V>, summary: V -> W): Record<W> { Record(r.id, r.updatedAt, summary(r.data)) }

  ghost predicate CoversFiles<V, W>(index: seq<Record<W>>, files: map<string, Record<V>>, summary: V -> W) {
    forall k <- files :: files[k].id == k && Entry(files[k], summary) in index
  }

  ghost predicate HasFiles<V, W>(index: seq<Record<W>>, files: map<string, Record<V>>, summary: V -> W) {
    forall e <- index :: e.id in files && e == Entry(files[e.id], summary)
  }

  /** One entry for each file, saying what the file says, newest first. */
  ghost predicate Indexes<V, W>(index: seq<Record<W>>, files: map<string, Record<V>>, summary: V -> W) {
    CoversFiles(index, files, summary) && HasFiles(index, files, summary) && Distinct(index) && Descending(index)
  }

  lemma {:induction false} OthersMember<V>(index: seq<Record<V>>, id: string, x: Record<V>)
    ensures x in Others(index, id) <==> x in index && x.id != id
  {
    if index != [] {
      OthersMember(index[1..], id, x);
      assert index == [index[0]] + index[1..];
    }
  }

  lemma {:induction false} OthersDistinct<V>(index: seq<Record<V>>, id: string)
    requires Distinct(index)
    ensures Distinct(Others(index, id))
  {
    if index != [] {
      DistinctEnds(index);
      OthersDistinct(index[1..], id);
      if index[0].id != id {
        assert Others(index, id)[1..] == Others(index[1..], id);
        forall x | x in Others(index[1..], id) ensures x.id != index[0].id {
          OthersMember(index[1..], id, x);
        }
        DistinctCons(Others(index, id));
      }
    }
  }

  lemma PutMember<V>(index: seq<Record<V>>, r: Record<V>, x: Record<V>)
    ensures x in Put(index, r) <==> x == r || (x in index && x.id != r.id)
  {
    OthersMember(index, r.id, x);
    SortMember(Others(index, r.id) + [r], x);
  }

  lemma PutSorts<V>(index: seq<Record<V>>, r: Record<V>)
    requires Distinct(index)
    ensures Distinct(Put(index, r)) && Descending(Put(index, r))
  {
    var kept := Others(index, r.id);
    OthersDistinct(index, r.id);
    forall i | 0 <= i < |kept| ensures kept[i].id != r.id {
      OthersMember(index, r.id, kept[i]);
    }
    assert Distinct(kept + [r]);
    DistinctSort(kept + [r]);
    SortSorts(kept + [r]);
  }

  /** Saving keeps the index in agreement with the files. */
  lemma PutKeepsIndex<V, W>(index: seq<Record<W>>, files: map<string, Record<V>>, summary: V -> W, r: Record<V>)
    requires Indexes(index, files, summary)
    ensures Indexes(Put(index, Entry(r, summary)), files[r.id := r], summary)
  {
    var index1, files1 := Put(index, Entry(r, summary)), files[r.id := r];
    PutSorts(index, Entry(r, summary));
    forall e | e in index1 ensures e.id in files1 && e == Entry(files1[e.id], summary) {
      PutMember(index, Entry(r, summary), e);
    }
    forall k | k in files1 ensures files1[k].id == k && Entry(files1[k], summary) in index1 {
      PutMember(index, Entry(r, summary), Entry(files1[k], summary));
    }
  }

  // The newest records.

  function SliceLength(n: nat, limit: int): nat {
    if limit >= 0 then if limit <= n then limit else n
    else if n + limit >= 0 then n + limit else 0
  }

  /** r lists, newest first, as many of the records as the limit allows, and none that is left out is
      newer than one that is listed. */
  ghost predicate IsTop<V>(all: set<Record<V>>, r: seq<Record<V>>, limit: int) {
    && (forall x <- r :: x in all) && Distinct(r) && Descending(r)
    && |r| == SliceLength(|all|, limit)
    && (forall x <- all, y <- r :: x in r || x.updatedAt <= y.updatedAt)
  }

  lemma NotLeftOut<V>(s: seq<Record<V>>, n: nat, x: Record<V>, y: Record<V>)
    requires Descending(s) && n <= |s| && x in s && y in s[..n]
    ensures x in s[..n] || x.updatedAt <= y.updatedAt
  {
    var i :| 0 <= i < |s| && s[i] == x;
    var j :| 0 <= j < n && s[..n][j] == y;
    assert s[j] == y;
    if i < n {
      assert s[..n][i] == x;
    }
  }

  lemma SliceIsPrefix<V>(s: seq<Record<V>>, limit: int)
    ensures Slice(s, limit) == s[..SliceLength(|s|, limit)]
  {
  }

  /** Sorting and slicing gives the newest records of a list. */
  lemma TopOfSorted<V>(s: seq<Record<V>>, all: set<Record<V>>, limit: int)
    requires Distinct(s) && forall x :: x in all <==> x in s
    ensures IsTop(all, Slice(SortDesc(s), limit), limit)
  {
    var sorted, n := SortDesc(s), SliceLength(|s|, limit);
    SortLength(s);
    SortSorts(s);
    DistinctSort(s);
    DistinctCount(s);
    assert all == set r | r in s;
    SliceIsPrefix(sorted, limit);
    var top := sorted[..n];
    forall x | x in top ensures x in all {
      SortMember(s, x);
    }
    forall x, y | x in all && y in top ensures x in top || x.updatedAt <= y.updatedAt {
      SortMember(s, x);
      NotLeftOut(sorted, n, x, y);
    }
  }
}
