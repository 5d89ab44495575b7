/** The bytes an oracle signs: building them, reading them back, and why no two reports share them. */
module OraclePreimage {
  import opened Base

  type Bytes = seq<byte>

  /** ASCII "VATIX_ORACLE_V" */
  const DOMAIN: Bytes := [86, 65, 84, 73, 88, 95, 79, 82, 65, 67, 76, 69, 95, 86]
  const ORACLE_DOMAIN_SEPARATOR: Bytes := DOMAIN + [49]
  const ORACLE_DOMAIN_SEPARATOR_V2: Bytes := DOMAIN + [50]
  const ORACLE_PREIMAGE_LEN: nat := 20
  const ORACLE_PREIMAGE_LEN_V2: nat := 64

  /** A network id or passphrase hash: 32 bytes. */
  type Hash32 = b: Bytes | |b| == 32 witness seq(32, _ => 0)

  /** The fields a second-version report binds. */
  datatype Report = Report(network: Hash32, marketId: u32, outcome: bool, validUntil: u64, epoch: u32)

  // ---- Fixed-width big-endian numbers ----

  function Pow256(width: nat): (p: nat)
    ensures p >= 1
  {
    if width == 0 then 1 else 256 * Pow256(width - 1)
  }

  function BigEndian(n: nat, width: nat): (b: Bytes)
    ensures |b| == width
  {
    if width == 0 then [] else BigEndian(n / 256, width - 1) + [n % 256]
  }

  function FromBigEndian(b: Bytes): nat {
    if b == [] then 0 else 256 * FromBigEndian(b[..|b| - 1]) + b[|b| - 1]
  }

  lemma {:induction false} ReadWritten(n: nat, width: nat)
    requires n < Pow256(width)
    ensures FromBigEndian(BigEndian(n, width)) == n
  {
    if width > 0 {
      ReadWritten(n / 256, width - 1);
      assert BigEndian(n, width)[..width - 1] == BigEndian(n / 256, width - 1);
    }
  }

  lemma {:induction false} WriteRead(b: Bytes)
    ensures FromBigEndian(b) < Pow256(|b|)
    ensures BigEndian(FromBigEndian(b), |b|) == b
  {
    if b != [] {
      WriteRead(b[..|b| - 1]);
      assert b == b[..|b| - 1] + [b[|b| - 1]];
    }
  }

  lemma Widths()
    ensures Pow256(4) == U32_MAX + 1 && Pow256(8) == U64_MAX + 1
  {
    assert Pow256(4) == 0x1_0000_0000;
    assert Pow256(8) == 256 * 256 * 256 * 256 * Pow256(4);
  }

  function OutcomeByte(outcome: bool): byte {
    if outcome then 1 else 0
  }

  // ---- The layouts ----

  function PreimageV1(marketId: u32, outcome: bool): Bytes {
    ORACLE_DOMAIN_SEPARATOR + BigEndian(marketId, 4) + [OutcomeByte(outcome)]
  }

  function PreimageV2(r: Report): Bytes {
    ORACLE_DOMAIN_SEPARATOR_V2 + r.network + BigEndian(r.marketId, 4) + [OutcomeByte(r.outcome)]
    + BigEndian(r.validUntil, 8) + BigEndian(r.epoch, 4)
  }

  /** What a first-version message says. */
  datatype Verdict = Verdict(marketId: u32, outcome: bool)

  /** Reads a first-version preimage back, byte 1 meaning YES; refuses any other byte string. */
  function DecodeV1(b: Bytes): Option<Verdict> {
    if |b| != 20 || b[..15] != ORACLE_DOMAIN_SEPARATOR || b[19] > 1 then None
    else
      Widths();
      WriteRead(b[15..19]);
      Some(Verdict(FromBigEndian(b[15..19]), b[19] == 1))
  }

  /** Reads a second-version preimage back; refuses any other byte string. */
  function DecodeV2(b: Bytes): Option<Report> {
    if |b| != ORACLE_PREIMAGE_LEN_V2 || b[..15] != ORACLE_DOMAIN_SEPARATOR_V2 || b[51] > 1 then None
    else
      Widths();
      WriteRead(b[47..51]);
      WriteRead(b[52..60]);
      WriteRead(b[60..]);
      Some(Report(b[15..47], FromBigEndian(b[47..51]), b[51] == 1, FromBigEndian(b[52..60]), FromBigEndian(b[60..])))
  }

  /** The builder appends field after field to a buffer. */
  method BuildOraclePreimageV2(r: Report) returns (preimage: Bytes)
    ensures preimage == PreimageV2(r) && |preimage| == ORACLE_PREIMAGE_LEN_V2
  {
    preimage := [];
    preimage := preimage + ORACLE_DOMAIN_SEPARATOR_V2;
    preimage := preimage + r.network;
    preimage := preimage + BigEndian(r.marketId, 4);
    preimage := preimage + [OutcomeByte(r.outcome)];
    preimage := preimage + BigEndian(r.validUntil, 8);
    preimage := preimage + BigEndian(r.epoch, 4);
  }

  method BuildOraclePreimage(marketId: u32, outcome: bool) returns (preimage: Bytes)
    ensures preimage == PreimageV1(marketId, outcome) && |preimage| == ORACLE_PREIMAGE_LEN
  {
    preimage := [];
    preimage := preimage + ORACLE_DOMAIN_SEPARATOR;
    preimage := preimage + BigEndian(marketId, 4);
    preimage := preimage + [OutcomeByte(outcome)];
  }

  /** Where each field of a second-version preimage lies. */
  lemma Fields(r: Report)
    ensures var b := PreimageV2(r);
            && |b| == ORACLE_PREIMAGE_LEN_V2
            && b[..15] == ORACLE_DOMAIN_SEPARATOR_V2 && b[15..47] == r.network
            && b[47..51] == BigEndian(r.marketId, 4) && b[51] == OutcomeByte(r.outcome)
            && b[52..60] == BigEndian(r.validUntil, 8) && b[60..] == BigEndian(r.epoch, 4)
  {
  }

  /** Decoding recovers every field. */
  lemma DecodeEncoded(r: Report)
    ensures DecodeV2(PreimageV2(r)) == Some(r)
  {
    Fields(r);
    Widths();
    ReadWritten(r.marketId, 4);
    ReadWritten(r.validUntil, 8);
    ReadWritten(r.epoch, 4);
  }

  /** What decodes is exactly what the builder can build. */
  lemma EncodeDecoded(b: Bytes)
    requires DecodeV2(b).Some?
    ensures PreimageV2(DecodeV2(b).value) == b
  {
    var r := DecodeV2(b).value;
    Fields(r);
    WriteRead(b[47..51]);
    WriteRead(b[52..60]);
    WriteRead(b[60..]);
    Pieces(b);
  }

  lemma Pieces(b: Bytes)
    requires |b| == ORACLE_PREIMAGE_LEN_V2
    ensures b == b[..15] + b[15..47] + b[47..51] + [b[51]] + b[52..60] + b[60..]
  {
  }

  /** Different reports never share a preimage. */
  lemma PreimageInjective(r: Report, q: Report)
    requires PreimageV2(r) == PreimageV2(q)
    ensures r == q
  {
    DecodeEncoded(r);
    DecodeEncoded(q);
  }

  /** The domain separators spell the protocol's name and version. */
  lemma DomainText(i: nat)
    requires i < 15
    ensures |ORACLE_DOMAIN_SEPARATOR| == 15 && ORACLE_DOMAIN_SEPARATOR[i] == "VATIX_ORACLE_V1"[i] as int
    ensures |ORACLE_DOMAIN_SEPARATOR_V2| == 15 && ORACLE_DOMAIN_SEPARATOR_V2[i] == "VATIX_ORACLE_V2"[i] as int
  {
  }

  /** A 32-bit number is written most significant byte first. */
  lemma BigEndianBytes(n: u32)
    ensures BigEndian(n, 4) == [n / 0x100_0000, n / 0x1_0000 % 256, n / 256 % 256, n % 256]
  {
    assert BigEndian(n / 256 / 256 / 256 / 256, 0) == [];
    assert BigEndian(n / 256 / 256 / 256, 1) == [n / 256 / 256 / 256 % 256];
    assert BigEndian(n / 256 / 256, 2) == [n / 256 / 256 / 256 % 256, n / 256 / 256 % 256];
    assert BigEndian(n / 256, 3) == [n / 256 / 256 / 256 % 256, n / 256 / 256 % 256, n / 256 % 256];
  }

  lemma DecodeEncodedV1(m: u32, o: bool)
    ensures DecodeV1(PreimageV1(m, o)) == Some(Verdict(m, o))
  {
    var b := PreimageV1(m, o);
    assert b[..15] == ORACLE_DOMAIN_SEPARATOR && b[15..19] == BigEndian(m, 4);
    Widths();
    ReadWritten(m, 4);
  }

  lemma EncodeDecodedV1(b: Bytes)
    requires DecodeV1(b).Some?
    ensures PreimageV1(DecodeV1(b).value.marketId, DecodeV1(b).value.outcome) == b
  {
    WriteRead(b[15..19]);
    assert b == b[..15] + b[15..19] + [b[19]];
  }

  lemma PreimageV1Injective(m: u32, o: bool, n: u32, p: bool)
    requires PreimageV1(m, o) == PreimageV1(n, p)
    ensures m == n && o == p
  {
    DecodeEncodedV1(m, o);
    DecodeEncodedV1(n, p);
  }

  /** No first-version preimage is a second-version one, so neither kind of signature can be replayed as the other. */
  lemma VersionsDisjoint(m: u32, o: bool, r: Report)
    ensures PreimageV1(m, o) != PreimageV2(r) && DecodeV2(PreimageV1(m, o)) == None
  {
    Fields(r);
  }
}
