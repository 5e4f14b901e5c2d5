/**
 The client's state snapshot (crypto-core/src/client.rs): a length-prefixed header, then every
 key and value of the storage map, each behind its length.
 */
module Snapshot {
  import opened Common
  import opened Seqs
  import BigEndian

  type Store = map<Bytes, Bytes>

  /** The serialised header, kept as bytes, and the storage map. */
  datatype State = State(header: Bytes, store: Store)

  datatype Reason = Truncated | BadHeader | UnsupportedVersion

  datatype Import<+T> = Loaded(value: T) | BadState(reason: Reason)

  datatype Entry = Entry(key: Bytes, value: Bytes)

  /** `x as usize` on a platform whose usize has `usize` values. */
  function AsUsize(x: nat, usize: nat): (n: nat)
    requires usize >= 1
    ensures x < usize ==> n == x
  {
    if x < usize then x else x % usize
  }

  // ------------------------------------------------------------------------- writing

  function EncodeEntry(e: Entry): (bytes: Bytes) {
    BigEndian.Encode(|e.key|, 8) + BigEndian.Encode(|e.value|, 8) + e.key + e.value
  }

  function EncodeEntries(es: seq<Entry>): (bytes: Bytes) {
    if es == [] then [] else EncodeEntries(es[..|es| - 1]) + EncodeEntry(es[|es| - 1])
  }

  function Encode(header: Bytes, es: seq<Entry>): (bytes: Bytes) {
    BigEndian.Encode(|header|, 4) + header + BigEndian.Encode(|es|, 8) + EncodeEntries(es)
  }

  /** `export_state`; a hash map is written in whatever order `es` lists it. */
  method ExportState(header: Bytes, es: seq<Entry>) returns (out: Bytes)
    ensures out == Encode(header, es)
  {
    out := BigEndian.Encode(|header|, 4);
    out := out + header;
    out := out + BigEndian.Encode(|es|, 8);
    for i := 0 to |es|
      invariant out == BigEndian.Encode(|header|, 4) + header + BigEndian.Encode(|es|, 8) + EncodeEntries(es[..i])
    {
      assert es[..i + 1][..i] == es[..i];
      out := out + BigEndian.Encode(|es[i].key|, 8);
      out := out + BigEndian.Encode(|es[i].value|, 8);
      out := out + es[i].key;
      out := out + es[i].value;
      assert EncodeEntries(es[..i + 1]) == EncodeEntries(es[..i]) + EncodeEntry(es[i]);
    }
    assert es[..|es|] == es;
  }

  // ------------------------------------------------------------------------- reading

  /** The next `n` bytes and what follows them. */
  function Take(rest: Bytes, n: nat): (r: Import<(Bytes, Bytes)>) {
    if |rest| < n then BadState(Truncated) else Loaded((rest[..n], rest[n..]))
  }

  /** A length: eight bytes, cast to the platform's usize. */
  function TakeLength(rest: Bytes, usize: nat): (r: Import<(nat, Bytes)>)
    requires usize >= 1
  {
    if |rest| < 8 then BadState(Truncated) else Loaded((AsUsize(BigEndian.Decode(rest[..8]), usize), rest[8..]))
  }

  function TakeEntry(rest: Bytes, usize: nat): (r: Import<(Entry, Bytes)>)
    requires usize >= 1
  {
    var k := TakeLength(rest, usize);
    if k.BadState? then BadState(k.reason) else
    var v := TakeLength(k.value.1, usize);
    if v.BadState? then BadState(v.reason) else
    var key := Take(v.value.1, k.value.0);
    if key.BadState? then BadState(key.reason) else
    var value := Take(key.value.1, v.value.0);
    if value.BadState? then BadState(value.reason) else Loaded((Entry(key.value.0, value.value.0), value.value.1))
  }

  function DecodeEntries(rest: Bytes, count: nat, store: Store, usize: nat): (r: Import<Store>)
    requires usize >= 1
    decreases count
  {
    if count == 0 then Loaded(store)
    else
      var e := TakeEntry(rest, usize);
      if e.BadState? then BadState(e.reason)
      else DecodeEntries(e.value.1, count - 1, store[e.value.0.key := e.value.0.value], usize)
  }

  /** `versionOf` parses a header: no value for one that is malformed. */
  function Decode(bytes: Bytes, versionOf: Bytes -> Option<nat>, usize: nat): (r: Import<State>)
    requires usize >= 1
  {
    if |bytes| < 4 then BadState(Truncated) else
    var header := Take(bytes[4..], AsUsize(BigEndian.Decode(bytes[..4]), usize));
    if header.BadState? then BadState(header.reason) else
    if versionOf(header.value.0).None? then BadState(BadHeader) else
    if versionOf(header.value.0).value != 1 then BadState(UnsupportedVersion) else
    if |header.value.1| < 8 then BadState(Truncated) else
    var store := DecodeEntries(header.value.1[8..], BigEndian.Decode(header.value.1[..8]), map[], usize);
    if store.BadState? then BadState(store.reason) else Loaded(State(header.value.0, store.value))
  }

  /** The loop of `import_state` over the entries. */
  method ReadEntries(bytes: Bytes, count: nat, usize: nat) returns (r: Import<Store>)
    requires usize >= 1
    ensures r == DecodeEntries(bytes, count, map[], usize)
  {
    var rest, store: Store := bytes, map[];
    for i := 0 to count
      invariant DecodeEntries(rest, count - i, store, usize) == DecodeEntries(bytes, count, map[], usize)
    {
      var entry := TakeEntry(rest, usize);
      if entry.BadState? { return BadState(entry.reason); }
      store := store[entry.value.0.key := entry.value.0.value];
      rest := entry.value.1;
    }
    return Loaded(store);
  }

  /** `import_state`, up to reloading the groups from the storage map. */
  method ImportState(bytes: Bytes, versionOf: Bytes -> Option<nat>, usize: nat) returns (r: Import<State>)
    requires usize >= 1
    ensures r == Decode(bytes, versionOf, usize)
  {
    var rest := bytes;
    if |rest| < 4 { return BadState(Truncated); }
    var headerLen := AsUsize(BigEndian.Decode(rest[..4]), usize);
    rest := rest[4..];
    if |rest| < headerLen { return BadState(Truncated); }
    var header := rest[..headerLen];
    rest := rest[headerLen..];
    var version := versionOf(header);
    if version.None? { return BadState(BadHeader); }
    if version.value != 1 { return BadState(UnsupportedVersion); }
    if |rest| < 8 { return BadState(Truncated); }
    var count := BigEndian.Decode(rest[..8]);
    var store := ReadEntries(rest[8..], count, usize);
    if store.BadState? { return BadState(store.reason); }
    return Loaded(State(header, store.value));
  }

  // ------------------------------------------------------------------- one entry back

  /** Lengths the format and the platform can hold. */
  predicate Fits(e: Entry, usize: nat) { |e.key| < usize && |e.value| < usize && |e.key| < U64 && |e.value| < U64 }

  predicate AllFit(es: seq<Entry>, usize: nat) { forall e :: e in es ==> Fits(e, usize) }

  lemma {:induction false} LengthBack(n: nat, tail: Bytes, usize: nat)
    requires n < U64 && n < usize
    ensures TakeLength(BigEndian.Encode(n, 8) + tail, usize) == Loaded((n, tail))
  {
    BigEndian.Widths();
    BigEndian.RoundTrip(n, 8);
    var bytes := BigEndian.Encode(n, 8) + tail;
    assert bytes[..8] == BigEndian.Encode(n, 8) && bytes[8..] == tail;
  }

  lemma {:induction false} TakeBack(head: Bytes, tail: Bytes)
    ensures Take(head + tail, |head|) == Loaded((head, tail))
  {
    assert (head + tail)[..|head|] == head && (head + tail)[|head|..] == tail;
  }

  lemma {:induction false} EntryBack(e: Entry, tail: Bytes, usize: nat)
    requires Fits(e, usize)
    ensures TakeEntry(EncodeEntry(e) + tail, usize) == Loaded((e, tail))
  {
    var klen, vlen := BigEndian.Encode(|e.key|, 8), BigEndian.Encode(|e.value|, 8);
    LengthBack(|e.key|, vlen + (e.key + (e.value + tail)), usize);
    LengthBack(|e.value|, e.key + (e.value + tail), usize);
    TakeBack(e.key, e.value + tail);
    TakeBack(e.value, tail);
    assert EncodeEntry(e) + tail == klen + (vlen + (e.key + (e.value + tail)));
  }

  lemma {:induction false} EncodeCons(e: Entry, es: seq<Entry>)
    ensures EncodeEntries([e] + es) == EncodeEntry(e) + EncodeEntries(es)
  {
    if es == [] {
      assert [e] + es == [e] && [e][..0] == [];
      assert EncodeEntries([e]) == EncodeEntries([]) + EncodeEntry(e);
    } else {
      var init, last := es[..|es| - 1], es[|es| - 1];
      EncodeCons(e, init);
      assert ([e] + es)[..|es|] == [e] + init && ([e] + es)[|es|] == last;
      assert EncodeEntries([e] + es) == EncodeEntries([e] + init) + EncodeEntry(last);
      Regroup(EncodeEntry(e), EncodeEntries(init), EncodeEntry(last));
    }
  }

  function StoreOf(store: Store, es: seq<Entry>): (r: Store)
    decreases |es|
  {
    if es == [] then store else StoreOf(store[es[0].key := es[0].value], es[1..])
  }

  lemma {:induction false} EntriesBack(es: seq<Entry>, tail: Bytes, store: Store, usize: nat)
    requires usize >= 1 && AllFit(es, usize)
    ensures DecodeEntries(EncodeEntries(es) + tail, |es|, store, usize) == Loaded(StoreOf(store, es))
    decreases |es|
  {
    if es != [] {
      var more := EncodeEntries(es[1..]) + tail;
      assert EncodeEntries(es) + tail == EncodeEntry(es[0]) + more by {
        assert es == [es[0]] + es[1..];
        EncodeCons(es[0], es[1..]);
      }
      EntryBack(es[0], more, usize);
      EntriesBack(es[1..], tail, store[es[0].key := es[0].value], usize);
    }
  }

  /** `es` lists the map: every key once, with its value. */
  ghost predicate Lists(es: seq<Entry>, store: Store) {
    && (forall i, j :: 0 <= i < j < |es| ==> es[i].key != es[j].key)
    && (forall i :: 0 <= i < |es| ==> es[i].key in store && store[es[i].key] == es[i].value)
    && (forall k :: k in store ==> exists i :: 0 <= i < |es| && es[i].key == k)
  }

  lemma {:induction false} StoreKeeps(store: Store, es: seq<Entry>, k: Bytes)
    requires forall i :: 0 <= i < |es| ==> es[i].key != k
    ensures k in StoreOf(store, es) <==> k in store
    ensures k in store ==> StoreOf(store, es)[k] == store[k]
    decreases |es|
  {
    if es != [] { StoreKeeps(store[es[0].key := es[0].value], es[1..], k); }
  }

  lemma {:induction false} StoreHas(store: Store, es: seq<Entry>, i: nat)
    requires i < |es| && forall a, b :: 0 <= a < b < |es| ==> es[a].key != es[b].key
    ensures es[i].key in StoreOf(store, es) && StoreOf(store, es)[es[i].key] == es[i].value
    decreases |es|
  {
    if i == 0 {
      StoreKeeps(store[es[0].key := es[0].value], es[1..], es[0].key);
    } else {
      assert es[1..][i - 1] == es[i];
      StoreHas(store[es[0].key := es[0].value], es[1..], i - 1);
    }
  }

  /** Inserting a map's entries one by one, in any order, rebuilds it. */
  lemma {:induction false} StoreRebuilt(es: seq<Entry>, store: Store)
    requires Lists(es, store)
    ensures StoreOf(map[], es) == store
  {
    forall k ensures k in StoreOf(map[], es) <==> k in store {
      if i :| 0 <= i < |es| && es[i].key == k { StoreHas(map[], es, i); } else { StoreKeeps(map[], es, k); }
    }
    forall k | k in store ensures StoreOf(map[], es)[k] == store[k] {
      var i :| 0 <= i < |es| && es[i].key == k;
      StoreHas(map[], es, i);
    }
  }

  // ------------------------------------------------------------------ the whole snapshot

  /** What was written, as a header length, a header, a count and the entries, with `tail` behind. */
  lemma {:induction false} Laid(header: Bytes, es: seq<Entry>, tail: Bytes)
    ensures var bytes := Encode(header, es) + tail;
            && |bytes| >= 4 && bytes[..4] == BigEndian.Encode(|header|, 4)
            && bytes[4..] == header + (BigEndian.Encode(|es|, 8) + (EncodeEntries(es) + tail))
  {
    assert Encode(header, es) + tail ==
           BigEndian.Encode(|header|, 4) + (header + (BigEndian.Encode(|es|, 8) + (EncodeEntries(es) + tail)));
  }

  /** How many bytes the entries take. */
  function Size(es: seq<Entry>): (n: nat) {
    if es == [] then 0 else Size(es[..|es| - 1]) + 16 + |es[|es| - 1].key| + |es[|es| - 1].value|
  }

  lemma {:induction false} EntriesSize(es: seq<Entry>)
    ensures |EncodeEntries(es)| == Size(es)
  {
    if es != [] { EntriesSize(es[..|es| - 1]); }
  }

  lemma {:induction false} EntryLies(es: seq<Entry>, i: nat)
    requires i < |es|
    ensures var o, e, bytes := Size(es[..i]), es[i], EncodeEntries(es);
            o + 16 + |e.key| + |e.value| <= |bytes| && bytes[o..o + 16 + |e.key| + |e.value|] == EncodeEntry(e)
  {
    var init, last := es[..|es| - 1], es[|es| - 1];
    EntriesSize(init);
    if i < |init| {
      EntryLies(init, i);
      assert init[..i] == es[..i] && init[i] == es[i];
    } else {
      assert es[..i] == init;
    }
  }

  /** Where the first part lies: the header behind its length in four bytes, and the number of entries in eight. */
  lemma {:induction false} FrontLayout(header: Bytes, es: seq<Entry>)
    ensures var bytes, n := Encode(header, es), 12 + |header|;
            && |bytes| == n + Size(es) && bytes[..4] == BigEndian.Encode(|header|, 4) && bytes[4..4 + |header|] == header
            && bytes[4 + |header|..n] == BigEndian.Encode(|es|, 8) && bytes[n..] == EncodeEntries(es)
  {
    EntriesSize(es);
  }

  /** And each entry: as far along as those before it are long, its two lengths first, then its key, then its value. */
  lemma {:induction false} EntryLayout(header: Bytes, es: seq<Entry>, i: nat)
    requires i < |es|
    ensures var bytes, e := Encode(header, es), es[i];
            var o := 12 + |header| + Size(es[..i]);
            && o + 16 + |e.key| + |e.value| <= |bytes|
            && bytes[o..o + 16 + |e.key| + |e.value|] == BigEndian.Encode(|e.key|, 8) + BigEndian.Encode(|e.value|, 8) + e.key + e.value
  {
    FrontLayout(header, es);
    EntryBehind(Encode(header, es), 12 + |header|, es, i);
  }

  lemma {:induction false} EntryBehind(bytes: Bytes, n: nat, es: seq<Entry>, i: nat)
    requires i < |es| && n <= |bytes| && bytes[n..] == EncodeEntries(es)
    ensures var e, o := es[i], n + Size(es[..i]);
            o + 16 + |e.key| + |e.value| <= |bytes| && bytes[o..o + 16 + |e.key| + |e.value|] == EncodeEntry(e)
  {
    EntryLies(es, i);
    SliceBehind(bytes, n, Size(es[..i]), 16 + |es[i].key| + |es[i].value|);
  }

  lemma {:induction false} SliceBehind(bytes: Bytes, n: nat, o: nat, size: nat)
    requires n + o + size <= |bytes|
    ensures bytes[n + o..n + o + size] == bytes[n..][o..o + size]
  {
  }

  lemma {:induction false} SnapshotBack(
    header: Bytes, es: seq<Entry>, store: Store, tail: Bytes, versionOf: Bytes -> Option<nat>, usize: nat)
    requires Lists(es, store) && AllFit(es, usize) && |es| < U64 && |header| < usize && versionOf(header) == Some(1)
    requires |header| < 0x1_0000_0000
    ensures Decode(Encode(header, es) + tail, versionOf, usize) == Loaded(State(header, store))
  {
    BigEndian.Widths();
    BigEndian.RoundTrip(|header|, 4);
    Laid(header, es, tail);
    var rest := BigEndian.Encode(|es|, 8) + (EncodeEntries(es) + tail);
    TakeBack(header, rest);
    BigEndian.RoundTrip(|es|, 8);
    assert rest[..8] == BigEndian.Encode(|es|, 8) && rest[8..] == EncodeEntries(es) + tail;
    EntriesBack(es, tail, map[], usize);
    StoreRebuilt(es, store);
  }

  /** Nothing is loaded but under a header of version 1 ... */
  lemma {:induction false} OnlyVersionOne(bytes: Bytes, versionOf: Bytes -> Option<nat>, usize: nat)
    requires usize >= 1
    ensures var r := Decode(bytes, versionOf, usize); r.Loaded? ==> versionOf(r.value.header) == Some(1)
  {
  }

  /** ... and a snapshot whose header is malformed, or of another version, is refused as that. */
  lemma {:induction false} HeaderRefused(header: Bytes, es: seq<Entry>, tail: Bytes, versionOf: Bytes -> Option<nat>, usize: nat)
    requires |header| < 0x1_0000_0000 && |header| < usize && versionOf(header) != Some(1)
    ensures Decode(Encode(header, es) + tail, versionOf, usize) ==
            BadState(if versionOf(header).None? then BadHeader else UnsupportedVersion)
  {
    BigEndian.Widths();
    BigEndian.RoundTrip(|header|, 4);
    Laid(header, es, tail);
    TakeBack(header, BigEndian.Encode(|es|, 8) + (EncodeEntries(es) + tail));
  }

  /** What is read never has a header longer than its length field can say. */
  lemma {:induction false} HeaderBounded(bytes: Bytes, versionOf: Bytes -> Option<nat>, usize: nat)
    requires usize >= 0x1_0000_0000
    ensures var r := Decode(bytes, versionOf, usize); r.Loaded? ==> |r.value.header| < 0x1_0000_0000
  {
    BigEndian.Widths();
    if |bytes| >= 4 { BigEndian.DecodeFits(bytes[..4]); }
  }

  /**
   A snapshot reads back as it was written, whatever order its map was listed in and whatever
   bytes follow it, exactly when its header's length fits the four bytes it is written in.
   */
  lemma {:induction false} RoundTripExactly(
    header: Bytes, es: seq<Entry>, store: Store, tail: Bytes, versionOf: Bytes -> Option<nat>, usize: nat)
    requires Lists(es, store) && AllFit(es, usize) && |es| < U64 && |header| < usize && versionOf(header) == Some(1)
    requires usize >= 0x1_0000_0000
    ensures Decode(Encode(header, es) + tail, versionOf, usize) == Loaded(State(header, store)) <==> |header| < 0x1_0000_0000
  {
    if |header| < 0x1_0000_0000 {
      SnapshotBack(header, es, store, tail, versionOf, usize);
    } else {
      HeaderBounded(Encode(header, es) + tail, versionOf, usize);
    }
  }

  // ------------------------------------------------------------------- cut short

  lemma {:induction false} EntryCut(e: Entry, p: Bytes, usize: nat)
    requires Fits(e, usize) && |p| < |EncodeEntry(e)| && p == EncodeEntry(e)[..|p|]
    ensures TakeEntry(p, usize) == BadState(Truncated)
  {
    var klen, vlen := BigEndian.Encode(|e.key|, 8), BigEndian.Encode(|e.value|, 8);
    if |p| >= 8 {
      assert p == klen + p[8..];
      LengthBack(|e.key|, p[8..], usize);
      if |p| >= 16 {
        assert p[8..] == vlen + p[16..];
        LengthBack(|e.value|, p[16..], usize);
      }
    }
  }

  lemma {:induction false} EntriesCut(es: seq<Entry>, p: Bytes, store: Store, usize: nat)
    requires usize >= 1 && AllFit(es, usize) && |p| < |EncodeEntries(es)| && p == EncodeEntries(es)[..|p|]
    ensures DecodeEntries(p, |es|, store, usize) == BadState(Truncated)
    decreases |es|
  {
    var one, more := EncodeEntry(es[0]), EncodeEntries(es[1..]);
    assert es == [es[0]] + es[1..];
    EncodeCons(es[0], es[1..]);
    if |p| < |one| {
      assert p == one[..|p|];
      EntryCut(es[0], p, usize);
    } else {
      var q := p[|one|..];
      assert p == one + q;
      assert q == more[..|q|];
      EntryBack(es[0], q, usize);
      EntriesCut(es[1..], q, store[es[0].key := es[0].value], usize);
    }
  }

  /** How a prefix that reaches past the header divides. */
  lemma {:induction false} PrefixParts(header: Bytes, es: seq<Entry>, p: Bytes)
    requires 4 + |header| <= |p| < |Encode(header, es)| && p == Encode(header, es)[..|p|]
    ensures var rest := p[4 + |header|..];
            && p[4..] == header + rest
            && (|rest| >= 8 ==> rest[..8] == BigEndian.Encode(|es|, 8) &&
                                |rest[8..]| < |EncodeEntries(es)| && rest[8..] == EncodeEntries(es)[..|rest[8..]|])
  {
    var front := BigEndian.Encode(|header|, 4) + header + BigEndian.Encode(|es|, 8);
    assert Encode(header, es) == front + EncodeEntries(es);
    var rest := p[4 + |header|..];
    if |rest| >= 8 { assert rest[..8] == front[4 + |header|..]; }
  }

  /** No strict prefix of a snapshot is taken for one. */
  lemma {:induction false} PrefixRejected(header: Bytes, es: seq<Entry>, p: Bytes, versionOf: Bytes -> Option<nat>, usize: nat)
    requires AllFit(es, usize) && |es| < U64 && |header| < usize && |header| < 0x1_0000_0000 && versionOf(header) == Some(1)
    requires |p| < |Encode(header, es)| && p == Encode(header, es)[..|p|]
    ensures Decode(p, versionOf, usize) == BadState(Truncated)
  {
    BigEndian.Widths();
    BigEndian.RoundTrip(|header|, 4);
    if |p| >= 4 {
      assert p[..4] == BigEndian.Encode(|header|, 4);
      if |p| >= 4 + |header| {
        var rest := p[4 + |header|..];
        PrefixParts(header, es, p);
        TakeBack(header, rest);
        if |rest| >= 8 {
          BigEndian.RoundTrip(|es|, 8);
          EntriesCut(es, rest[8..], map[], usize);
        }
      }
    }
  }
}
