/** Big-endian integers, as `to_be_bytes` and `from_be_bytes` write and read them. */
module BigEndian {
  import opened Common

  function Power(width: nat): (p: nat)
    ensures p >= 1
  {
    if width == 0 then 1 else 256 * Power(width - 1)
  }

  /** The low `width` bytes of `n`, most significant first. */
  function Encode(n: nat, width: nat): (bytes: Bytes)
    ensures |bytes| == width
  {
    if width == 0 then [] else Encode(n / 256, width - 1) + [(n % 256) as byte]
  }

  function Decode(bytes: Bytes): (n: nat) {
    if bytes == [] then 0 else 256 * Decode(bytes[..|bytes| - 1]) + bytes[|bytes| - 1] as nat
  }

  /** Reading back gives the number, if it fits the width ... */
  lemma {:induction false} RoundTrip(n: nat, width: nat)
    requires n < Power(width)
    ensures Decode(Encode(n, width)) == n
  {
    if width > 0 {
      var bytes := Encode(n, width);
      assert bytes[..|bytes| - 1] == Encode(n / 256, width - 1);
      RoundTrip(n / 256, width - 1);
    }
  }

  /** ... and whatever is read fits it. */
  lemma {:induction false} DecodeFits(bytes: Bytes)
    ensures Decode(bytes) < Power(|bytes|)
  {
    if bytes != [] { DecodeFits(bytes[..|bytes| - 1]); }
  }

  /** The first byte is the most significant. */
  lemma {:induction false} MostSignificantFirst(first: byte, rest: Bytes)
    ensures Decode([first] + rest) == first as nat * Power(|rest|) + Decode(rest)
  {
    if rest == [] {
      assert [first] + rest == [first] && [first][..0] == [];
    } else {
      var init, bytes := rest[..|rest| - 1], [first] + rest;
      MostSignificantFirst(first, init);
      assert bytes[..|bytes| - 1] == [first] + init;
    }
  }

  lemma {:induction false} Widths()
    ensures Power(4) == 0x1_0000_0000 && Power(8) == U64
  {
    assert Power(2) == 0x1_0000 && Power(4) == 256 * (256 * Power(2)) && Power(6) == 256 * (256 * Power(4)) && Power(8) == 256 * (256 * Power(6));
  }
}
