/** The bytes a safety number is a digest of (crypto-core/src/client.rs), and what equal ones prove. */
module SafetyNumber {
  import opened Common
  import BigEndian

  /** A member as the group knows them: a name and an identity key. */
  datatype Party = Party(name: Bytes, key: Bytes)

  datatype Number = Number(input: Bytes) | NoSuchMember

  const PREFIX: Bytes := [0x65, 0x32, 0x65, 0x65, 0x2d, 0x73, 0x61, 0x66, 0x65, 0x74, 0x79, 0x2d,
                          0x6e, 0x75, 0x6d, 0x62, 0x65, 0x72, 0x2d, 0x76, 0x31]

  /** Byte strings in dictionary order, a prefix first. */
  predicate AtMost(a: Bytes, b: Bytes) {
    a == [] || (b != [] && (a[0] < b[0] || (a[0] == b[0] && AtMost(a[1..], b[1..]))))
  }

  predicate PartyAtMost(x: Party, y: Party) {
    if x.name == y.name then AtMost(x.key, y.key) else AtMost(x.name, y.name)
  }

  function Part(p: Party): (bytes: Bytes) {
    BigEndian.Encode(|p.name|, 8) + p.name + BigEndian.Encode(|p.key|, 8) + p.key
  }

  /** Both parties, sorted, each field behind its length. */
  function Input(x: Party, y: Party): (bytes: Bytes) {
    PREFIX + if PartyAtMost(x, y) then Part(x) + Part(y) else Part(y) + Part(x)
  }

  function KeyOf(roster: seq<Party>, name: Bytes): (key: Option<Bytes>)
    ensures key.None? <==> forall p :: p in roster ==> p.name != name
    ensures key.Some? ==> exists i :: 0 <= i < |roster| && roster[i] == Party(name, key.value) &&
                                      forall j :: 0 <= j < i ==> roster[j].name != name
  {
    if roster == [] then None
    else if roster[0].name == name then Some(roster[0].key)
    else KeyOf(roster[1..], name)
  }

  /** `safety_number`, up to the digest and its twelve groups of digits. */
  function NumberOf(me: Party, roster: seq<Party>, peer: Bytes): (r: Number) {
    var key := KeyOf(roster, peer);
    if key.None? then NoSuchMember else Number(Input(me, Party(peer, key.value)))
  }

  // ----------------------------------------------------------------------------- order

  lemma {:induction false} AtMostTotal(a: Bytes, b: Bytes)
    ensures AtMost(a, b) || AtMost(b, a)
    ensures AtMost(a, b) && AtMost(b, a) ==> a == b
  {
    if a != [] && b != [] {
      AtMostTotal(a[1..], b[1..]);
      if a[0] == b[0] && a[1..] == b[1..] { assert a == [a[0]] + a[1..] && b == [b[0]] + b[1..]; }
    }
  }

  lemma {:induction false} PartyTotal(x: Party, y: Party)
    ensures PartyAtMost(x, y) || PartyAtMost(y, x)
    ensures PartyAtMost(x, y) && PartyAtMost(y, x) ==> x == y
  {
    AtMostTotal(x.name, y.name);
    AtMostTotal(x.key, y.key);
  }

  /** Both sides derive the same bytes, whoever asks. */
  lemma {:induction false} Symmetric(x: Party, y: Party)
    ensures Input(x, y) == Input(y, x)
  {
    PartyTotal(x, y);
  }

  /** `a` comes before `b`: they agree up to `k`, where `a` ends or has the smaller byte. */
  predicate DiffersAt(a: Bytes, b: Bytes, k: nat) {
    k <= |a| && k < |b| && a[..k] == b[..k] && (k == |a| || a[k] < b[k])
  }

  lemma {:induction false} DiffersMeansBefore(a: Bytes, b: Bytes, k: nat)
    requires DiffersAt(a, b, k)
    ensures AtMost(a, b) && a != b
  {
    if k > 0 {
      assert a[0] == a[..k][0] == b[..k][0] == b[0];
      assert a[1..][..k - 1] == a[..k][1..] && b[1..][..k - 1] == b[..k][1..];
      DiffersMeansBefore(a[1..], b[1..], k - 1);
    }
  }

  /** The party whose name comes first stands first, and between two of one name the one whose key does. */
  lemma {:induction false} SmallerFirst(x: Party, y: Party, k: nat)
    requires DiffersAt(x.name, y.name, k) || (x.name == y.name && DiffersAt(x.key, y.key, k))
    ensures Input(x, y) == PREFIX +
            (BigEndian.Encode(|x.name|, 8) + x.name + BigEndian.Encode(|x.key|, 8) + x.key +
             (BigEndian.Encode(|y.name|, 8) + y.name + BigEndian.Encode(|y.key|, 8) + y.key))
  {
    if x.name == y.name { DiffersMeansBefore(x.key, y.key, k); } else { DiffersMeansBefore(x.name, y.name, k); }
  }

  // ------------------------------------------------------------------------ injectivity

  predicate Fits(p: Party) { |p.name| < U64 && |p.key| < U64 }

  /** A field behind its length can be split off one way only. */
  lemma {:induction false} FieldSplits(a: Bytes, b: Bytes, s: Bytes, t: Bytes)
    requires |a| < U64 && |b| < U64
    requires BigEndian.Encode(|a|, 8) + a + s == BigEndian.Encode(|b|, 8) + b + t
    ensures a == b && s == t
  {
    var left, right := BigEndian.Encode(|a|, 8) + a + s, BigEndian.Encode(|b|, 8) + b + t;
    assert left[..8] == BigEndian.Encode(|a|, 8) && right[..8] == BigEndian.Encode(|b|, 8);
    BigEndian.Widths();
    BigEndian.RoundTrip(|a|, 8);
    BigEndian.RoundTrip(|b|, 8);
    assert a == left[8..8 + |a|] && b == right[8..8 + |b|];
    assert s == left[8 + |a|..] && t == right[8 + |b|..];
  }

  lemma {:induction false} PartSplits(x: Party, y: Party, s: Bytes, t: Bytes)
    requires Fits(x) && Fits(y) && Part(x) + s == Part(y) + t
    ensures x == y && s == t
  {
    var sx, sy := BigEndian.Encode(|x.key|, 8) + x.key + s, BigEndian.Encode(|y.key|, 8) + y.key + t;
    assert Part(x) + s == BigEndian.Encode(|x.name|, 8) + x.name + sx;
    assert Part(y) + t == BigEndian.Encode(|y.name|, 8) + y.name + sy;
    FieldSplits(x.name, y.name, sx, sy);
    FieldSplits(x.key, y.key, s, t);
  }

  lemma {:induction false} PairSplits(a: Party, b: Party, c: Party, d: Party)
    requires Fits(a) && Fits(b) && Fits(c) && Fits(d) && PREFIX + (Part(a) + Part(b)) == PREFIX + (Part(c) + Part(d))
    ensures a == c && b == d
  {
    var left, right := PREFIX + (Part(a) + Part(b)), PREFIX + (Part(c) + Part(d));
    assert left[|PREFIX|..] == Part(a) + Part(b) && right[|PREFIX|..] == Part(c) + Part(d);
    PartSplits(a, c, Part(b), Part(d));
    assert Part(b) + [] == Part(d) + [];
    PartSplits(b, d, [], []);
  }

  /** Equal bytes name the same two parties, in one order or the other: nothing else collides. */
  lemma {:induction false} Injective(x: Party, y: Party, u: Party, v: Party)
    requires Fits(x) && Fits(y) && Fits(u) && Fits(v)
    ensures Input(x, y) == Input(u, v) <==> (x == u && y == v) || (x == v && y == u)
  {
    if (x == u && y == v) || (x == v && y == u) {
      Symmetric(x, y);
    } else if Input(x, y) == Input(u, v) {
      var (a, b) := if PartyAtMost(x, y) then (x, y) else (y, x);
      var (c, d) := if PartyAtMost(u, v) then (u, v) else (v, u);
      PairSplits(a, b, c, d);
    }
  }

  /** Only a name nobody has is refused; any other gives the bytes for the first member who has it. */
  lemma {:induction false} NumberExactly(me: Party, roster: seq<Party>, peer: Bytes)
    ensures NumberOf(me, roster, peer) == NoSuchMember <==> forall p :: p in roster ==> p.name != peer
    ensures NumberOf(me, roster, peer).Number? ==>
            exists i :: 0 <= i < |roster| && roster[i].name == peer && (forall j :: 0 <= j < i ==> roster[j].name != peer) &&
                        NumberOf(me, roster, peer).input == Input(me, roster[i])
  {
  }

  /**
   What two members comparing numbers learn: they match exactly when each side's roster gives the
   other's own key, so a key substituted for either shows.
   */
  lemma {:induction false} MatchMeansNoSubstitution(a: Party, rosterA: seq<Party>, b: Party, rosterB: seq<Party>)
    requires a.name != b.name && Fits(a) && Fits(b)
    requires forall p :: p in rosterA || p in rosterB ==> Fits(p)
    requires KeyOf(rosterA, b.name).Some? && KeyOf(rosterB, a.name).Some?
    ensures NumberOf(a, rosterA, b.name) == NumberOf(b, rosterB, a.name) <==>
            KeyOf(rosterA, b.name) == Some(b.key) && KeyOf(rosterB, a.name) == Some(a.key)
  {
    Injective(a, Party(b.name, KeyOf(rosterA, b.name).value), b, Party(a.name, KeyOf(rosterB, a.name).value));
  }
}
