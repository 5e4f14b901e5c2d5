/** The little of SQL the relay's store uses: a table's rows by key, `WHERE`, `ORDER BY`, `LIMIT`. */
module Sql {
  import opened Common
  import opened Seqs

  /** `x as i64`: the upper half of the unsigned range turns negative. */
  function AsI64(x: nat): (i: int)
    ensures x <= I64_MAX ==> i == x
    ensures I64_MAX < x < U64 ==> i < 0
  {
    if x <= I64_MAX then x else x - U64
  }

  /** `i as u64`, undoing the cast. */
  function AsU64(i: int): (x: nat)
    ensures 0 <= i ==> x == i
    ensures i < 0 && -i <= I64_MAX + 1 ==> AsI64(x) == i
  {
    if 0 <= i then i else if i + U64 < 0 then 0 else i + U64
  }

  /** The rows a `WHERE` clause leaves in view, or a `DELETE` with the opposite clause leaves behind. */
  function Where<R>(rows: map<nat, R>, p: (nat, R) -> bool): (r: map<nat, R>)
  {
    map k | k in rows && p(k, rows[k]) :: rows[k]
  }

  /** `ORDER BY` the key, ascending, over the keys below `n`, each row read out. */
  function Ascending<R, E>(rows: map<nat, R>, read: (nat, R) -> E, n: nat): (s: seq<E>) {
    if n == 0 then []
    else Ascending(rows, read, n - 1) + if n - 1 in rows then [read(n - 1, rows[n - 1])] else []
  }

  /** `ORDER BY` the key, descending, over the keys below `n`. */
  function Descending<R, E>(rows: map<nat, R>, read: (nat, R) -> E, n: nat): (s: seq<E>) {
    if n == 0 then []
    else (if n - 1 in rows then [read(n - 1, rows[n - 1])] else []) + Descending(rows, read, n - 1)
  }

  function Limit<T>(s: seq<T>, n: nat): (r: seq<T>) { s[..Min(n, |s|)] }

  function Reverse<T>(s: seq<T>): (r: seq<T>)
    ensures |r| == |s|
    ensures forall i :: 0 <= i < |s| ==> r[i] == s[|s| - 1 - i]
  {
    seq(|s|, i requires 0 <= i < |s| => s[|s| - 1 - i])
  }

  /** A row condition and a condition on what is read that agree on every row. */
  ghost predicate Agree<R(!new), E>(rows: map<nat, R>, read: (nat, R) -> E, p: (nat, R) -> bool, q: E -> bool) {
    forall k :: k in rows ==> p(k, rows[k]) == q(read(k, rows[k]))
  }

  /** Selecting rows and then ordering is ordering and then filtering. */
  lemma {:induction false} WhereIsFilter<R(!new), E>(
    rows: map<nat, R>, read: (nat, R) -> E, p: (nat, R) -> bool, q: E -> bool, n: nat)
    requires Agree(rows, read, p, q)
    ensures Ascending(Where(rows, p), read, n) == Filter(q, Ascending(rows, read, n))
  {
    if n > 0 {
      WhereIsFilter(rows, read, p, q, n - 1);
      if n - 1 in rows {
        var e := read(n - 1, rows[n - 1]);
        FilterConcat(q, Ascending(rows, read, n - 1), [e]);
        assert Filter(q, [e]) == if q(e) then [e] else [];
      } else {
        assert Ascending(rows, read, n) == Ascending(rows, read, n - 1);
      }
    }
  }

  lemma {:induction false} DescendingIsReversed<R, E>(rows: map<nat, R>, read: (nat, R) -> E, n: nat)
    ensures Descending(rows, read, n) == Reverse(Ascending(rows, read, n))
  {
    if n > 0 { DescendingIsReversed(rows, read, n - 1); }
  }

  lemma {:induction false} AscendingSame<R, E>(a: map<nat, R>, b: map<nat, R>, read: (nat, R) -> E, n: nat)
    requires forall k :: k < n ==> (k in a <==> k in b)
    requires forall k :: k < n && k in a && k in b ==> a[k] == b[k]
    ensures Ascending(a, read, n) == Ascending(b, read, n)
  {
    if n > 0 { AscendingSame(a, b, read, n - 1); }
  }

  lemma {:induction false} AscendingEmpty<R, E>(rows: map<nat, R>, read: (nat, R) -> E, n: nat)
    requires forall k :: k in rows ==> n <= k
    ensures Ascending(rows, read, n) == []
  {
    if n > 0 { AscendingEmpty(rows, read, n - 1); }
  }

  /** One row too many tells whether any was left out, and costs nothing else. */
  lemma {:induction false} LimitTwice<E>(s: seq<E>, limit: nat)
    ensures Limit(Limit(s, limit + 1), limit) == s[..Min(limit, |s|)]
    ensures |Limit(s, limit + 1)| > limit <==> |s| > limit
  {
    assert Limit(s, limit + 1)[..Min(limit, |s|)] == s[..Min(limit, |s|)];
  }

  /** The same for a descending query read back in ascending order: it is the end of the list. */
  lemma {:induction false} LastOfReversed<E>(s: seq<E>, limit: nat)
    ensures var rows := Limit(Reverse(s), limit + 1);
            Reverse(Limit(rows, limit)) == s[Max(|s| - limit, 0)..] && (|rows| > limit <==> |s| > limit)
  {
    var rows := Limit(Reverse(s), limit + 1);
    assert |Limit(rows, limit)| == |s[Max(|s| - limit, 0)..]|;
  }
}
