/** Query results over a store keyed by increasing ids: the matching records,
    newest first, and the skip/limit pagination the item directory applies
    to them. */
module Listing {

  /** The entries of `m` with id below `hi` whose value satisfies `keep`,
      in decreasing id order (newest first). */
  function Select<V>(m: map<nat, V>, keep: V -> bool, hi: nat): (r: seq<(nat, V)>)
    ensures |r| <= hi
    ensures forall k :: 0 <= k < |r| ==> r[k].0 < hi
    decreases hi
  {
    if hi == 0 then []
    else
      var rest := Select(m, keep, hi - 1);
      if hi - 1 in m && keep(m[hi - 1]) then [(hi - 1, m[hi - 1])] + rest else rest
  }

  /** An entry is selected exactly when it is stored, below the bound, and kept. */
  lemma {:induction false} SelectMembers<V>(m: map<nat, V>, keep: V -> bool, hi: nat, id: nat, v: V)
    ensures (id, v) in Select(m, keep, hi) <==> id < hi && id in m && m[id] == v && keep(v)
    decreases hi
  {
    if hi > 0 {
      SelectMembers(m, keep, hi - 1, id, v);
    }
  }

  /** The selection is sorted newest first, so no id appears twice. */
  lemma {:induction false} SelectDescending<V>(m: map<nat, V>, keep: V -> bool, hi: nat)
    ensures forall i, j :: 0 <= i < j < |Select(m, keep, hi)| ==> Select(m, keep, hi)[i].0 > Select(m, keep, hi)[j].0
    decreases hi
  {
    if hi > 0 {
      SelectDescending(m, keep, hi - 1);
      var rest := Select(m, keep, hi - 1);
      var s := Select(m, keep, hi);
      if hi - 1 in m && keep(m[hi - 1]) {
        // the new head hi - 1 is above every id of the older entries
        assert s == [(hi - 1, m[hi - 1])] + rest;
        forall i, j | 0 <= i < j < |s| ensures s[i].0 > s[j].0 {
          assert s[j] == rest[j - 1];
          assert rest[j - 1].0 < hi - 1;
          if i > 0 {
            assert s[i] == rest[i - 1];
          }
        }
      } else {
        assert s == rest;
      }
    }
  }

  /** Both facts about a selection, for every entry at once. */
  lemma {:induction false} SelectSpec<V>(m: map<nat, V>, keep: V -> bool, hi: nat)
    ensures forall k :: 0 <= k < |Select(m, keep, hi)| ==>
      && Select(m, keep, hi)[k].0 in m
      && m[Select(m, keep, hi)[k].0] == Select(m, keep, hi)[k].1
      && keep(Select(m, keep, hi)[k].1)
    ensures forall id :: id in m && id < hi && keep(m[id]) ==> (id, m[id]) in Select(m, keep, hi)
    ensures forall i, j :: 0 <= i < j < |Select(m, keep, hi)| ==> Select(m, keep, hi)[i].0 > Select(m, keep, hi)[j].0
  {
    var s := Select(m, keep, hi);
    forall k | 0 <= k < |s|
      ensures s[k].0 in m && m[s[k].0] == s[k].1 && keep(s[k].1)
    {
      SelectMembers(m, keep, hi, s[k].0, s[k].1);
    }
    forall id | id in m && id < hi && keep(m[id])
      ensures (id, m[id]) in s
    {
      SelectMembers(m, keep, hi, id, m[id]);
    }
    SelectDescending(m, keep, hi);
  }

  /** Number of results skipped before page `page` (pages count from 1). */
  function Skip(page: nat, limit: nat): nat
    requires page >= 1
  {
    (page - 1) * limit
  }

  /** Page `page` of `s`: skip (page - 1) * limit results, then take at most `limit`. */
  function Page<T>(s: seq<T>, page: nat, limit: nat): (r: seq<T>)
    requires page >= 1 && limit >= 1
    ensures |r| <= limit
    ensures Skip(page, limit) + |r| <= |s| || r == []
    ensures forall k :: 0 <= k < |r| ==> r[k] == s[Skip(page, limit) + k]
    ensures |r| < limit ==> Skip(page, limit) + |r| >= |s|
  {
    var skip := Skip(page, limit);
    if skip >= |s| then []
    else if skip + limit <= |s| then s[skip..skip + limit]
    else s[skip..]
  }

  /** ceil(count / limit): the number of pages needed to show `count` results. */
  function TotalPages(count: nat, limit: nat): (n: nat)
    requires limit >= 1
    ensures n * limit >= count
    ensures n == 0 || (n - 1) * limit < count
  {
    var n := (count + limit - 1) / limit;
    DivBounds(count + limit - 1, limit);
    n
  }

  /** Euclidean division brackets its dividend. */
  lemma DivBounds(a: nat, b: nat)
    requires b >= 1
    ensures (a / b) * b <= a < (a / b) * b + b
  {
  }

  /** Pages 1 to `n`, one after the other. */
  function Paged<T>(s: seq<T>, limit: nat, n: nat): seq<T>
    requires limit >= 1
  {
    if n == 0 then [] else Paged(s, limit, n - 1) + Page(s, n, limit)
  }

  /** The first `n` pages are exactly the first n * limit results. */
  lemma {:induction false} PagedPrefix<T>(s: seq<T>, limit: nat, n: nat)
    requires limit >= 1
    ensures Paged(s, limit, n) == s[..if n * limit <= |s| then n * limit else |s|]
  {
    if n > 0 {
      PagedPrefix(s, limit, n - 1);
      var skip := Skip(n, limit);
      assert skip == n * limit - limit;
      var before := if skip <= |s| then skip else |s|;
      var after := if n * limit <= |s| then n * limit else |s|;
      assert Paged(s, limit, n - 1) == s[..before];
      if skip < |s| {
        assert Page(s, n, limit) == s[skip..after];
        assert s[..skip] + s[skip..after] == s[..after];
      }
    }
  }

  /** Walking every page from 1 to the reported page count shows each result
      exactly once and in order. */
  lemma PagesCoverAll<T>(s: seq<T>, limit: nat)
    requires limit >= 1
    ensures Paged(s, limit, TotalPages(|s|, limit)) == s
  {
    PagedPrefix(s, limit, TotalPages(|s|, limit));
  }

  /** A page past the reported page count is empty. */
  lemma PageBeyondLast<T>(s: seq<T>, page: nat, limit: nat)
    requires limit >= 1 && page > TotalPages(|s|, limit)
    ensures Page(s, page, limit) == []
  {
    var n := TotalPages(|s|, limit);
    MulMonotone(n, page - 1, limit);
  }

  lemma MulMonotone(a: nat, b: nat, c: nat)
    requires a <= b
    ensures a * c <= b * c
  {
  }
}
