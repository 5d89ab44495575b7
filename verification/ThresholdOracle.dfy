/** Quorum verification: exactly what it accepts, and why two quorums must overlap. */
module ThresholdOracle {
  import opened Base
  import opened OraclePreimage

  type Key = Bytes
  type Signature = Bytes

  datatype OracleError = UnauthorizedOracle | InvalidSignature

  /**
   The foreign cryptography: Ed25519 verification of a digest under a key, and keccak256. Everything below
   holds whatever these two functions are.
   */
  datatype Crypto = Crypto(verifies: (Key, Bytes, Signature) -> bool, digest: Bytes -> Bytes)

  ghost predicate Distinct(keys: seq<Key>) {
    forall i, j :: 0 <= i < j < |keys| ==> keys[i] != keys[j]
  }

  /** The `i`-th signature verifies for `message` under the `i`-th key. */
  predicate Valid(crypto: Crypto, keys: seq<Key>, signatures: seq<Signature>, message: Bytes, i: nat)
    requires i < |keys| && i < |signatures|
  {
    crypto.verifies(keys[i], message, signatures[i])
  }

  function ValidCount(crypto: Crypto, keys: seq<Key>, signatures: seq<Signature>, message: Bytes, k: nat): (n: nat)
    requires k <= |keys| && k <= |signatures|
    ensures n <= k
  {
    if k == 0 then 0
    else
      ValidCount(crypto, keys, signatures, message, k - 1)
      + (if Valid(crypto, keys, signatures, message, k - 1) then 1 else 0)
  }

  /** A prefix of the signatures holds a quorum for `target` and nothing valid for `opposite`. */
  ghost predicate QuorumIn(crypto: Crypto, keys: seq<Key>, signatures: seq<Signature>, target: Bytes, opposite: Bytes,
                           quorum: nat, k: nat)
    requires k <= |keys| && k <= |signatures|
  {
    && ValidCount(crypto, keys, signatures, target, k) >= quorum
    && forall i :: 0 <= i < k ==> !Valid(crypto, keys, signatures, opposite, i)
  }

  ghost predicate HasQuorum(crypto: Crypto, keys: seq<Key>, signatures: seq<Signature>, target: Bytes, opposite: Bytes,
                            quorum: nat)
  {
    exists k :: 0 <= k <= |keys| && k <= |signatures| && QuorumIn(crypto, keys, signatures, target, opposite, quorum, k)
  }

  predicate QuorumInRange(keys: seq<Key>, quorum: nat) {
    1 <= quorum <= |keys|
  }

  // ---- The verifiers ----

  method HasDuplicates(keys: seq<Key>) returns (found: bool)
    ensures found <==> !Distinct(keys)
  {
    for i := 0 to |keys|
      invariant forall a, b :: 0 <= a < i && a < b < |keys| ==> keys[a] != keys[b]
    {
      for j := i + 1 to |keys|
        invariant forall b :: i < b < j ==> keys[i] != keys[b]
      {
        if keys[i] == keys[j] {
          return true;
        }
      }
    }
    return false;
  }

  /** The counting loop: stops at the first opposite signature, or as soon as the quorum is reached. */
  method CountQuorum(crypto: Crypto, keys: seq<Key>, signatures: seq<Signature>, target: Bytes, opposite: Bytes,
                     quorum: nat)
    returns (reached: bool)
    requires quorum >= 1
    ensures reached <==> HasQuorum(crypto, keys, signatures, target, opposite, quorum)
  {
    var valid: nat := 0;
    var len := Min(|keys|, |signatures|);
    for i := 0 to len
      invariant valid == ValidCount(crypto, keys, signatures, target, i) < quorum
      invariant forall j :: 0 <= j < i ==> !Valid(crypto, keys, signatures, opposite, j)
    {
      if crypto.verifies(keys[i], opposite, signatures[i]) {
        forall k | 0 <= k <= len ensures !QuorumIn(crypto, keys, signatures, target, opposite, quorum, k) {
          if k <= i {
            CountMonotone(crypto, keys, signatures, target, k, i);
          } else {
            assert Valid(crypto, keys, signatures, opposite, i);
          }
        }
        return false;
      }
      if crypto.verifies(keys[i], target, signatures[i]) {
        valid := valid + 1;
        if valid >= quorum {
          assert QuorumIn(crypto, keys, signatures, target, opposite, quorum, i + 1);
          return true;
        }
      }
    }
    forall k | 0 <= k <= len ensures !QuorumIn(crypto, keys, signatures, target, opposite, quorum, k) {
      CountMonotone(crypto, keys, signatures, target, k, len);
    }
    return false;
  }

  lemma {:induction false} CountMonotone(crypto: Crypto, keys: seq<Key>, signatures: seq<Signature>, message: Bytes,
                                         j: nat, k: nat)
    requires j <= k <= |keys| && k <= |signatures|
    ensures ValidCount(crypto, keys, signatures, message, j) <= ValidCount(crypto, keys, signatures, message, k)
  {
    if j < k {
      CountMonotone(crypto, keys, signatures, message, j, k - 1);
    }
  }

  /** `verify_threshold_signatures` accepts exactly this. */
  ghost predicate Accepts(crypto: Crypto, adaptersEnabled: bool, marketId: u32, outcome: bool, keys: seq<Key>,
                          signatures: seq<Signature>, quorum: nat)
  {
    && !adaptersEnabled && QuorumInRange(keys, quorum) && Distinct(keys)
    && HasQuorum(crypto, keys, signatures, crypto.digest(PreimageV1(marketId, outcome)),
                 crypto.digest(PreimageV1(marketId, !outcome)), quorum)
  }

  method VerifyThresholdSignatures(crypto: Crypto, adaptersEnabled: bool, marketId: u32, outcome: bool,
                                   keys: seq<Key>, signatures: seq<Signature>, quorum: nat)
    returns (r: Result<(), OracleError>)
    ensures r.Success? <==> Accepts(crypto, adaptersEnabled, marketId, outcome, keys, signatures, quorum)
    ensures r == Failure(UnauthorizedOracle) <==> adaptersEnabled || !QuorumInRange(keys, quorum)
  {
    if adaptersEnabled {
      return Failure(UnauthorizedOracle);
    }
    if |keys| == 0 || quorum == 0 || quorum > |keys| {
      return Failure(UnauthorizedOracle);
    }
    var duplicates := HasDuplicates(keys);
    if duplicates {
      return Failure(InvalidSignature);
    }
    var target := BuildOraclePreimage(marketId, outcome);
    var opposite := BuildOraclePreimage(marketId, !outcome);
    var reached := CountQuorum(crypto, keys, signatures, crypto.digest(target), crypto.digest(opposite), quorum);
    return if reached then Success(()) else Failure(InvalidSignature);
  }

  /** `verify_threshold_signatures_v2` accepts exactly this. */
  ghost predicate AcceptsV2(crypto: Crypto, adaptersEnabled: bool, network: Hash32, now: nat, report: Report,
                            keys: seq<Key>, signatures: seq<Signature>, quorum: nat)
  {
    && !adaptersEnabled && report.network == network && QuorumInRange(keys, quorum) && now <= report.validUntil
    && Distinct(keys)
    && HasQuorum(crypto, keys, signatures, crypto.digest(PreimageV2(report)),
                 crypto.digest(PreimageV2(report.(outcome := !report.outcome))), quorum)
  }

  method VerifyThresholdSignaturesV2(crypto: Crypto, adaptersEnabled: bool, network: Hash32, now: nat, report: Report,
                                     keys: seq<Key>, signatures: seq<Signature>, quorum: nat)
    returns (r: Result<(), OracleError>)
    ensures r.Success? <==> AcceptsV2(crypto, adaptersEnabled, network, now, report, keys, signatures, quorum)
    ensures r == Failure(UnauthorizedOracle)
            <==> adaptersEnabled || (report.network == network && !QuorumInRange(keys, quorum))
  {
    if adaptersEnabled {
      return Failure(UnauthorizedOracle);
    }
    if report.network != network {
      return Failure(InvalidSignature);
    }
    if |keys| == 0 || quorum == 0 || quorum > |keys| {
      return Failure(UnauthorizedOracle);
    }
    if now > report.validUntil {
      return Failure(InvalidSignature);
    }
    var duplicates := HasDuplicates(keys);
    if duplicates {
      return Failure(InvalidSignature);
    }
    var target := BuildOraclePreimageV2(report);
    var opposite := BuildOraclePreimageV2(report.(outcome := !report.outcome));
    var reached := CountQuorum(crypto, keys, signatures, crypto.digest(target), crypto.digest(opposite), quorum);
    return if reached then Success(()) else Failure(InvalidSignature);
  }

  /** The messages of a market's two outcomes, read back from their bytes. */
  predicate Messages(target: Bytes, opposite: Bytes, marketId: u32, outcome: bool) {
    DecodeV1(target) == Some(Verdict(marketId, outcome)) && DecodeV1(opposite) == Some(Verdict(marketId, !outcome))
  }

  ghost predicate QuorumFor(crypto: Crypto, keys: seq<Key>, signatures: seq<Signature>, quorum: nat, target: Bytes,
                            opposite: Bytes)
  {
    HasQuorum(crypto, keys, signatures, crypto.digest(target), crypto.digest(opposite), quorum)
  }

  /** What is accepted is a quorum on a message that reads as this market and this outcome. */
  lemma AcceptanceMeaning(crypto: Crypto, adaptersEnabled: bool, marketId: u32, outcome: bool, keys: seq<Key>,
                          signatures: seq<Signature>, quorum: nat)
    ensures Accepts(crypto, adaptersEnabled, marketId, outcome, keys, signatures, quorum)
            <==> && !adaptersEnabled && 1 <= quorum <= |keys| && Distinct(keys)
                 && exists target, opposite ::
                      Messages(target, opposite, marketId, outcome)
                      && QuorumFor(crypto, keys, signatures, quorum, target, opposite)
  {
    var t, o := PreimageV1(marketId, outcome), PreimageV1(marketId, !outcome);
    DecodeEncodedV1(marketId, outcome);
    DecodeEncodedV1(marketId, !outcome);
    assert Messages(t, o, marketId, outcome);
    if target, opposite :| Messages(target, opposite, marketId, outcome)
                           && QuorumFor(crypto, keys, signatures, quorum, target, opposite) {
      EncodeDecodedV1(target);
      EncodeDecodedV1(opposite);
    }
    if Accepts(crypto, adaptersEnabled, marketId, outcome, keys, signatures, quorum) {
      assert QuorumFor(crypto, keys, signatures, quorum, t, o);
    }
  }

  predicate MessagesV2(target: Bytes, opposite: Bytes, report: Report) {
    DecodeV2(target) == Some(report) && DecodeV2(opposite) == Some(report.(outcome := !report.outcome))
  }

  /** The same for the second version: this network, market, outcome, expiry and epoch. */
  lemma AcceptanceMeaningV2(crypto: Crypto, adaptersEnabled: bool, network: Hash32, now: nat, report: Report,
                            keys: seq<Key>, signatures: seq<Signature>, quorum: nat)
    ensures AcceptsV2(crypto, adaptersEnabled, network, now, report, keys, signatures, quorum)
            <==> && !adaptersEnabled && report.network == network && 1 <= quorum <= |keys| && now <= report.validUntil
                 && Distinct(keys)
                 && exists target, opposite ::
                      MessagesV2(target, opposite, report)
                      && QuorumFor(crypto, keys, signatures, quorum, target, opposite)
  {
    var other := report.(outcome := !report.outcome);
    DecodeEncoded(report);
    DecodeEncoded(other);
    assert MessagesV2(PreimageV2(report), PreimageV2(other), report);
    if target, opposite :| MessagesV2(target, opposite, report)
                           && QuorumFor(crypto, keys, signatures, quorum, target, opposite) {
      EncodeDecoded(target);
      EncodeDecoded(opposite);
    }
    if AcceptsV2(crypto, adaptersEnabled, network, now, report, keys, signatures, quorum) {
      assert QuorumFor(crypto, keys, signatures, quorum, PreimageV2(report), PreimageV2(other));
    }
  }

  // ---- Quorum intersection ----

  /** The positions whose signature verifies for `message`. */
  function ValidPositions(crypto: Crypto, keys: seq<Key>, signatures: seq<Signature>, message: Bytes, k: nat): set<nat>
    requires k <= |keys| && k <= |signatures|
  {
    set i: nat | i < k && Valid(crypto, keys, signatures, message, i)
  }

  lemma {:induction false} CountIsSize(crypto: Crypto, keys: seq<Key>, signatures: seq<Signature>, message: Bytes,
                                       k: nat)
    requires k <= |keys| && k <= |signatures|
    ensures |ValidPositions(crypto, keys, signatures, message, k)| == ValidCount(crypto, keys, signatures, message, k)
  {
    if k > 0 {
      CountIsSize(crypto, keys, signatures, message, k - 1);
      var before, now := ValidPositions(crypto, keys, signatures, message, k - 1),
                         ValidPositions(crypto, keys, signatures, message, k);
      if Valid(crypto, keys, signatures, message, k - 1) {
        assert now == before + {k - 1};
      } else {
        assert now == before;
      }
    }
  }

  function Below(n: nat): (s: set<nat>)
    ensures |s| == n && forall i :: i in s <==> 0 <= i < n
  {
    if n == 0 then {} else Below(n - 1) + {n - 1}
  }

  /** Inclusion and exclusion for two sets of positions. */
  lemma Overlap(a: set<nat>, b: set<nat>, n: nat)
    requires a <= Below(n) && b <= Below(n)
    ensures |a * b| >= |a| + |b| - n
  {
    var all := Below(n);
    var rest := all - (a + b);
    assert a + b + rest == all;
    assert |a + b| <= n by {
      assert (a + b) !! rest;
      assert |a + b + rest| == |a + b| + |rest|;
    }
    assert a + b == (a - a * b) + b && (a - a * b) !! b;
    assert (a - a * b) + a * b == a && (a - a * b) !! (a * b);
  }

  /** Distinct positions of a duplicate-free list hold distinct keys. */
  lemma {:induction false} KeysOfPositions(keys: seq<Key>, positions: set<nat>)
    requires Distinct(keys) && forall i :: i in positions ==> i < |keys|
    ensures |set i | i in positions :: keys[i]| == |positions|
    decreases |positions|
  {
    var image := set i | i in positions :: keys[i];
    if positions != {} {
      var p :| p in positions;
      var rest := positions - {p};
      KeysOfPositions(keys, rest);
      var restImage := set i | i in rest :: keys[i];
      assert image == restImage + {keys[p]};
      assert keys[p] !in restImage;
    }
  }

  /** A key that produced valid signatures for two messages. */
  ghost predicate DoubleSigns(crypto: Crypto, key: Key, yes: Bytes, no: Bytes) {
    (exists s :: crypto.verifies(key, yes, s)) && (exists s :: crypto.verifies(key, no, s))
  }

  ghost function DoubleSigners(crypto: Crypto, keys: seq<Key>, yes: Bytes, no: Bytes): set<Key> {
    set key | key in keys && DoubleSigns(crypto, key, yes, no)
  }

  lemma SubsetSize<T>(a: set<T>, b: set<T>)
    requires a <= b
    ensures |a| <= |b|
  {
    assert a + (b - a) == b && a !! (b - a);
  }

  /** Two quorums for different messages share at least `2 * quorum - n` double-signing keys. */
  lemma QuorumsIntersect(crypto: Crypto, keys: seq<Key>, yesSigs: seq<Signature>, noSigs: seq<Signature>, yes: Bytes,
                         no: Bytes, quorum: nat)
    requires Distinct(keys)
    requires HasQuorum(crypto, keys, yesSigs, yes, no, quorum) && HasQuorum(crypto, keys, noSigs, no, yes, quorum)
    ensures |DoubleSigners(crypto, keys, yes, no)| >= 2 * quorum - |keys|
  {
    var j :| 0 <= j <= |keys| && j <= |yesSigs| && QuorumIn(crypto, keys, yesSigs, yes, no, quorum, j);
    var k :| 0 <= k <= |keys| && k <= |noSigs| && QuorumIn(crypto, keys, noSigs, no, yes, quorum, k);
    var a, b := ValidPositions(crypto, keys, yesSigs, yes, j), ValidPositions(crypto, keys, noSigs, no, k);
    CountIsSize(crypto, keys, yesSigs, yes, j);
    CountIsSize(crypto, keys, noSigs, no, k);
    Overlap(a, b, |keys|);
    KeysOfPositions(keys, a * b);
    var both := set i | i in a * b :: keys[i];
    forall key | key in both ensures key in DoubleSigners(crypto, keys, yes, no) {
      var i :| i in a * b && keys[i] == key;
      assert Valid(crypto, keys, yesSigs, yes, i) && Valid(crypto, keys, noSigs, no, i);
    }
    SubsetSize(both, DoubleSigners(crypto, keys, yes, no));
  }

  /** If fewer keys than that sign both ways, the two outcomes of a market cannot both be accepted. */
  lemma NoConflictingOutcomes(crypto: Crypto, marketId: u32, keys: seq<Key>, yesSigs: seq<Signature>,
                              noSigs: seq<Signature>, quorum: nat)
    requires Accepts(crypto, false, marketId, true, keys, yesSigs, quorum)
    requires Accepts(crypto, false, marketId, false, keys, noSigs, quorum)
    ensures |DoubleSigners(crypto, keys, crypto.digest(PreimageV1(marketId, true)),
                           crypto.digest(PreimageV1(marketId, false)))| >= 2 * quorum - |keys|
  {
    QuorumsIntersect(crypto, keys, yesSigs, noSigs, crypto.digest(PreimageV1(marketId, true)),
                     crypto.digest(PreimageV1(marketId, false)), quorum);
  }

  lemma NoConflictingOutcomesV2(crypto: Crypto, network: Hash32, now: nat, report: Report, keys: seq<Key>,
                                sigs: seq<Signature>, otherSigs: seq<Signature>, quorum: nat)
    requires AcceptsV2(crypto, false, network, now, report, keys, sigs, quorum)
    requires AcceptsV2(crypto, false, network, now, report.(outcome := !report.outcome), keys, otherSigs, quorum)
    ensures |DoubleSigners(crypto, keys, crypto.digest(PreimageV2(report)),
                           crypto.digest(PreimageV2(report.(outcome := !report.outcome))))| >= 2 * quorum - |keys|
  {
    QuorumsIntersect(crypto, keys, sigs, otherSigs, crypto.digest(PreimageV2(report)),
                     crypto.digest(PreimageV2(report.(outcome := !report.outcome))), quorum);
  }

  ghost predicate Collide(crypto: Crypto, x: Bytes, y: Bytes) {
    x != y && crypto.digest(x) == crypto.digest(y)
  }

  /** Unless the preimages concerned collide, a digest belongs to one report only and to no first-version message. */
  lemma ReportBinding(crypto: Crypto, r: Report, q: Report, m: u32, o: bool)
    requires !Collide(crypto, PreimageV2(r), PreimageV2(q)) && !Collide(crypto, PreimageV1(m, o), PreimageV2(r))
    ensures crypto.digest(PreimageV2(r)) == crypto.digest(PreimageV2(q)) <==> r == q
    ensures crypto.digest(PreimageV1(m, o)) != crypto.digest(PreimageV2(r))
  {
    VersionsDisjoint(m, o, r);
    if PreimageV2(r) == PreimageV2(q) {
      PreimageInjective(r, q);
    }
  }
}
