/** Folding one device's circles over another's: `mergeBackups` of client/src/lib/circles.js. */
module Circles {
  import opened Seqs

  type Id = string

  /** A circle's shared half. An empty id stands for a missing one: both are falsy. */
  datatype Circle = Circle(id: Id, body: nat)

  /** An insertion-ordered map: overwriting a key keeps its place. */
  datatype Ordered = Ordered(order: seq<Id>, values: map<Id, Circle>)

  const EMPTY := Ordered([], map[])

  function Set(m: Ordered, c: Circle): (r: Ordered) {
    if c.id == "" then m
    else Ordered(if c.id in m.values then m.order else m.order + [c.id], m.values[c.id := c])
  }

  function SetAll(m: Ordered, cs: seq<Circle>): (r: Ordered) {
    if cs == [] then m else Set(SetAll(m, cs[..|cs| - 1]), cs[|cs| - 1])
  }

  ghost predicate Valid(m: Ordered) {
    && (forall k :: k in m.order <==> k in m.values)
    && (forall i, j :: 0 <= i < j < |m.order| ==> m.order[i] != m.order[j])
    && (forall k :: k in m.values ==> k != "" && m.values[k].id == k)
  }

  /** The values, in the order of first insertion. */
  function Values(m: Ordered): (cs: seq<Circle>)
    requires forall k :: k in m.order ==> k in m.values
    ensures |cs| == |m.order| && forall i :: 0 <= i < |cs| ==> cs[i] == m.values[m.order[i]]
  {
    seq(|m.order|, i requires 0 <= i < |m.order| => m.values[m.order[i]])
  }

  lemma {:induction false} SetAllValid(m: Ordered, cs: seq<Circle>)
    requires Valid(m)
    ensures Valid(SetAll(m, cs))
  {
    if cs != [] { SetAllValid(m, cs[..|cs| - 1]); }
  }

  function Merged(mine: seq<Circle>, theirs: seq<Circle>): (m: Ordered)
    ensures Valid(m)
  {
    SetAllValid(EMPTY, theirs);
    SetAllValid(SetAll(EMPTY, theirs), mine);
    SetAll(SetAll(EMPTY, theirs), mine)
  }

  function Merge(mine: seq<Circle>, theirs: seq<Circle>): (cs: seq<Circle>) { Values(Merged(mine, theirs)) }

  /** `mergeBackups`: either list may be missing. */
  method MergeBackups(mine: seq<Circle>, theirs: seq<Circle>) returns (cs: seq<Circle>)
    ensures cs == Merge(mine, theirs)
  {
    var byId := EMPTY;
    for i := 0 to |theirs|
      invariant byId == SetAll(EMPTY, theirs[..i])
    {
      assert theirs[..i + 1][..i] == theirs[..i];
      if theirs[i].id != "" { byId := Set(byId, theirs[i]); }
    }
    assert theirs[..|theirs|] == theirs;
    for i := 0 to |mine|
      invariant byId == SetAll(SetAll(EMPTY, theirs), mine[..i])
    {
      assert mine[..i + 1][..i] == mine[..i];
      if mine[i].id != "" { byId := Set(byId, mine[i]); }
    }
    assert mine[..|mine|] == mine;
    SetAllValid(EMPTY, theirs);
    SetAllValid(SetAll(EMPTY, theirs), mine);
    cs := Values(byId);
  }

  function Ids(cs: seq<Circle>): (ids: set<Id>) { set c | c in cs && c.id != "" :: c.id }

  /** The last circle of a list under an id: a later one overwrites an earlier one. */
  function Last(cs: seq<Circle>, id: Id): (c: Circle)
    requires id in Ids(cs)
    ensures c in cs && c.id == id
  {
    var c := cs[|cs| - 1];
    if c.id == id then c
    else
      assert cs == cs[..|cs| - 1] + [c];
      Last(cs[..|cs| - 1], id)
  }

  lemma {:induction false} IdsSnoc(cs: seq<Circle>)
    requires cs != []
    ensures Ids(cs) == Ids(cs[..|cs| - 1]) + if cs[|cs| - 1].id == "" then {} else {cs[|cs| - 1].id}
  {
    assert cs == cs[..|cs| - 1] + [cs[|cs| - 1]];
  }

  /** What a fold holds under each id: the list's last word on it, or what was there before. */
  lemma {:induction false} SetAllValues(m: Ordered, cs: seq<Circle>)
    ensures SetAll(m, cs).values.Keys == m.values.Keys + Ids(cs)
    ensures forall k :: k in Ids(cs) ==> SetAll(m, cs).values[k] == Last(cs, k)
    ensures forall k :: k in m.values && k !in Ids(cs) ==> SetAll(m, cs).values[k] == m.values[k]
  {
    if cs != [] {
      IdsSnoc(cs);
      SetAllValues(m, cs[..|cs| - 1]);
    }
  }

  /**
   A merge keeps every circle either side has, once: the ids are the union, nothing appears
   twice, and where both have a circle this device's copy wins.
   */
  lemma {:induction false} MergeKeepsAll(mine: seq<Circle>, theirs: seq<Circle>)
    ensures Ids(Merge(mine, theirs)) == Ids(mine) + Ids(theirs)
    ensures var cs := Merge(mine, theirs); forall i, j :: 0 <= i < j < |cs| ==> cs[i].id != cs[j].id
    ensures forall c :: c in Merge(mine, theirs) ==>
              c.id != "" && (c.id in Ids(mine) + Ids(theirs)) &&
              c == if c.id in Ids(mine) then Last(mine, c.id) else Last(theirs, c.id)
  {
    SetAllValues(EMPTY, theirs);
    SetAllValues(SetAll(EMPTY, theirs), mine);
    var m := Merged(mine, theirs);
    var cs := Merge(mine, theirs);
    assert m.values.Keys == Ids(mine) + Ids(theirs);
    forall c | c in cs ensures c.id in m.values && c == m.values[c.id] {
      var i :| 0 <= i < |cs| && cs[i] == c;
      assert m.order[i] in m.order;
    }
    forall k | k in m.values ensures k in Ids(cs) {
      var i :| 0 <= i < |m.order| && m.order[i] == k;
      assert cs[i] in cs;
    }
  }

  // ----------------------------------------------------------------------- associativity

  function Absent(m: map<Id, Circle>): Id -> bool { (k: Id) => k !in m }

  /** One map laid over another: its values win, and only its new keys are added, at the end. */
  function Lay(m: Ordered, n: Ordered): (r: Ordered) {
    Ordered(m.order + Filter(Absent(m.values), n.order), m.values + n.values)
  }

  lemma {:induction false} LayStep(m: Ordered, n: Ordered, c: Circle)
    ensures Set(Lay(m, n), c) == Lay(m, Set(n, c))
  {
    if c.id != "" {
      assert (m.values + n.values)[c.id := c] == m.values + n.values[c.id := c];
      if c.id !in n.values { AbsentSnoc(m.values, m.order, n.order, c.id); }
    }
  }

  lemma {:induction false} AbsentSnoc(m: map<Id, Circle>, order: seq<Id>, ks: seq<Id>, k: Id)
    ensures order + Filter(Absent(m), ks + [k]) ==
            if k in m then order + Filter(Absent(m), ks) else order + Filter(Absent(m), ks) + [k]
  {
    assert (ks + [k])[..|ks|] == ks;
  }

  /** Folding over a map is folding from nothing and laying the result over it. */
  lemma {:induction false} SetAllIsLay(m: Ordered, cs: seq<Circle>)
    ensures SetAll(m, cs) == Lay(m, SetAll(EMPTY, cs))
  {
    if cs == [] {
      assert m.values + map[] == m.values;
    } else {
      SetAllIsLay(m, cs[..|cs| - 1]);
      LayStep(m, SetAll(EMPTY, cs[..|cs| - 1]), cs[|cs| - 1]);
    }
  }

  lemma {:induction false} LayersAssociative(c: map<Id, Circle>, b: map<Id, Circle>, a: map<Id, Circle>)
    ensures (c + b) + a == c + (b + a)
  {
  }

  lemma {:induction false} LayAssociative(c: Ordered, b: Ordered, a: Ordered)
    ensures Lay(Lay(c, b), a) == Lay(c, Lay(b, a))
  {
    LayersAssociative(c.values, b.values, a.values);
    var second := Filter(Absent(c.values), b.order);
    var third := Filter(Absent(c.values), Filter(Absent(b.values), a.order));
    assert Filter(Absent(c.values), b.order + Filter(Absent(b.values), a.order)) == second + third by {
      FilterConcat(Absent(c.values), b.order, Filter(Absent(b.values), a.order));
    }
    assert Filter(Absent(c.values + b.values), a.order) == third by {
      FilterAnd(Absent(c.values), Absent(b.values), Absent(c.values + b.values), a.order);
    }
    assert (c.order + second) + third == c.order + (second + third);
  }

  /** The map's first `n` keys. */
  function First(m: Ordered, n: nat): (r: Ordered)
    requires n <= |m.order| && forall k :: k in m.order ==> k in m.values
  {
    Ordered(m.order[..n], map k | k in m.order[..n] :: m.values[k])
  }

  lemma {:induction false} FirstStep(m: Ordered, n: nat)
    requires Valid(m) && n < |m.order|
    ensures First(m, n + 1) == Set(First(m, n), m.values[m.order[n]])
  {
    var k := m.order[n];
    assert k in m.order && k !in m.order[..n];
    assert m.order[..n + 1] == m.order[..n] + [k];
    assert First(m, n + 1).values == First(m, n).values[k := m.values[k]];
  }

  /** Reading a map's values back in gives the map. */
  lemma {:induction false} PrefixRoundTrip(m: Ordered, n: nat)
    requires Valid(m) && n <= |m.order|
    ensures SetAll(EMPTY, Values(m)[..n]) == First(m, n)
  {
    if n > 0 {
      PrefixRoundTrip(m, n - 1);
      assert Values(m)[..n][..n - 1] == Values(m)[..n - 1];
      FirstStep(m, n - 1);
    }
  }

  lemma {:induction false} ValuesRoundTrip(m: Ordered)
    requires Valid(m)
    ensures SetAll(EMPTY, Values(m)) == m
  {
    PrefixRoundTrip(m, |m.order|);
    assert Values(m)[..|m.order|] == Values(m) && m.order[..|m.order|] == m.order;
    assert First(m, |m.order|).values == m.values;
  }

  lemma {:induction false} FilterAnd(p: Id -> bool, q: Id -> bool, r: Id -> bool, s: seq<Id>)
    requires forall k :: r(k) == (p(k) && q(k))
    ensures Filter(p, Filter(q, s)) == Filter(r, s)
  {
    if s != [] {
      var init, k := s[..|s| - 1], s[|s| - 1];
      FilterAnd(p, q, r, init);
      if q(k) { FilterConcat(p, Filter(q, init), [k]); }
    }
  }

  /** Three devices' circles fold to the same list, order included, however they are paired. */
  lemma {:induction false} MergeAssociative(a: seq<Circle>, b: seq<Circle>, c: seq<Circle>)
    ensures Merge(a, Merge(b, c)) == Merge(Merge(a, b), c)
  {
    var A, B, C := SetAll(EMPTY, a), SetAll(EMPTY, b), SetAll(EMPTY, c);
    calc {
      Merged(a, Merge(b, c));
      { ValuesRoundTrip(Merged(b, c)); }
      SetAll(SetAll(C, b), a);
      { SetAllIsLay(C, b); SetAllIsLay(Lay(C, B), a); }
      Lay(Lay(C, B), A);
      { LayAssociative(C, B, A); }
      Lay(C, Lay(B, A));
      { SetAllIsLay(B, a); ValuesRoundTrip(Merged(a, b)); }
      Lay(C, SetAll(EMPTY, Merge(a, b)));
      { SetAllIsLay(C, Merge(a, b)); }
      Merged(Merge(a, b), c);
    }
  }
}
