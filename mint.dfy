/**
 * Minting from a Candy Machine (src/lib/solana/mint.ts): the mint request
 * handler with its parameter check and result shaping, the wallet check and
 * the cost estimate. The clock reading (`Date.now()`) and the text of the
 * random number (`Math.random().toString(36)`) are parameters.
 */
module Mint {
  import opened Wrappers
  import opened NumberText

  /** What a mint request carries; an absent string is the empty string. */
  datatype MintOptions = MintOptions(
    candyMachineId: string,
    collectionMint: string,
    treasuryWallet: string,
    serviceFeeAmount: real)

  /** The tagged outcome of a mint request; the optional fields may be absent. */
  datatype MintResult = MintResult(
    success: bool,
    assetId: Option<string>,
    transactionSignature: Option<string>,
    error: Option<string>)

  const MissingParameters: string := "Missing required parameters"
  const SignaturePrefix: string := "mock_signature_"
  const AssetPrefix: string := "mock_asset_"
  /** `substr(2, 9)` keeps at most this many characters of the random text. */
  const AssetSuffixLength: nat := 9

  /** A success carries both identifiers and no error; a failure carries an error and neither identifier. */
  predicate WellShaped(r: MintResult) {
    if r.success then
      r.assetId.Some? && r.transactionSignature.Some? && r.error.None?
    else
      r.error.Some? && r.assetId.None? && r.transactionSignature.None?
  }

  /** A request is rejected when one of the three identifiers is the empty (falsy) string. */
  predicate HasMissingParameter(options: MintOptions) {
    options.candyMachineId == "" || options.collectionMint == "" || options.treasuryWallet == ""
  }

  /**
   * `String.prototype.substr(start, length)` for a non-negative start and
   * length: the characters from `start` on, at most `length` of them, and
   * nothing when `start` is past the end.
   */
  function Substr(s: string, start: nat, length: nat): (t: string)
    ensures |t| <= length
    ensures start + |t| <= |s| || t == []
    ensures forall i :: 0 <= i < |t| ==> t[i] == s[start + i]
    ensures start <= |s| ==> |t| == if |s| - start < length then |s| - start else length
  {
    if start >= |s| then []
    else if |s| - start < length then s[start..]
    else s[start..start + length]
  }

  /**
   * The signature suffix is the decimal clock reading in milliseconds;
   * the asset suffix is `substr(2, 9)` of the random number's base-36 text.
   */
  function MintNft(options: MintOptions, now: nat, randomText: string): (r: MintResult)
    ensures WellShaped(r)
    ensures r.success <==> !HasMissingParameter(options)
    ensures !r.success ==> r.error == Some(MissingParameters)
    ensures r.success ==> r.transactionSignature == Some(SignaturePrefix + NatToDecimal(now))
    ensures r.success ==> r.assetId == Some(AssetPrefix + Substr(randomText, 2, AssetSuffixLength))
  {
    if HasMissingParameter(options) then
      MintResult(false, None, None, Some(MissingParameters))
    else
      MintResult(true,
        Some(AssetPrefix + Substr(randomText, 2, AssetSuffixLength)),
        Some(SignaturePrefix + NatToDecimal(now)),
        None)
  }

  /** The service fee is never consulted: any two fees give the same result. */
  lemma MintIgnoresServiceFee(options: MintOptions, fee: real, now: nat, randomText: string)
    ensures MintNft(options.(serviceFeeAmount := fee), now, randomText) == MintNft(options, now, randomText)
  {
  }

  /** A successful mint's signature ends in exactly the clock reading, which can be read back from it. */
  lemma SignatureEncodesClock(options: MintOptions, now: nat, randomText: string)
    requires !HasMissingParameter(options)
    ensures var sig := MintNft(options, now, randomText).transactionSignature.value;
      |sig| > |SignaturePrefix| &&
      sig[..|SignaturePrefix|] == SignaturePrefix &&
      AllDigits(sig[|SignaturePrefix|..]) &&
      DecimalValue(sig[|SignaturePrefix|..]) == now
  {
    var sig := MintNft(options, now, randomText).transactionSignature.value;
    assert sig[|SignaturePrefix|..] == NatToDecimal(now);
    DecimalRoundTrip(now);
  }

  /**
   * Two successful mints at different clock readings get different
   * signatures; mints within the same millisecond may share one.
   */
  lemma SignaturesDifferAcrossClock(options: MintOptions, now1: nat, now2: nat, text1: string, text2: string)
    requires !HasMissingParameter(options)
    requires now1 != now2
    ensures MintNft(options, now1, text1).transactionSignature != MintNft(options, now2, text2).transactionSignature
  {
    var s1 := MintNft(options, now1, text1).transactionSignature.value;
    var s2 := MintNft(options, now2, text2).transactionSignature.value;
    if s1 == s2 {
      assert s1[|SignaturePrefix|..] == NatToDecimal(now1);
      assert s2[|SignaturePrefix|..] == NatToDecimal(now2);
      NatToDecimalInjective(now1, now2);
    }
  }

  /**
   * For base-36 text of the form "0." followed by digits, the asset suffix is
   * the first nine of those digits (all of them when there are fewer).
   */
  lemma AssetIdTakesFractionDigits(options: MintOptions, now: nat, digits: string)
    requires !HasMissingParameter(options)
    ensures var id := MintNft(options, now, "0." + digits).assetId.value;
      id == AssetPrefix + (if |digits| <= AssetSuffixLength then digits else digits[..AssetSuffixLength])
  {
    var text := "0." + digits;
    if |digits| <= AssetSuffixLength {
      assert text[2..] == digits;
    } else {
      assert text[2..2 + AssetSuffixLength] == digits[..AssetSuffixLength];
    }
  }

  /** `validateMintingWallet`: every wallet passes, whatever the amount. */
  function ValidateMintingWallet(walletAddress: string, requiredAmount: real): (ok: bool)
    ensures ok
  {
    true
  }

  /** The network fee in SOL added to every mint estimate. */
  const NetworkFee: real := 0.00225

  datatype CostBreakdown = CostBreakdown(serviceFee: real, networkFee: real, total: real)

  /** The estimate passes the service fee through and adds the fixed network fee. */
  function EstimatedMintCost(serviceFeeAmount: real): (c: CostBreakdown)
    ensures c.serviceFee == serviceFeeAmount && c.networkFee == NetworkFee
    ensures c.total == c.serviceFee + c.networkFee
  {
    CostBreakdown(serviceFeeAmount, NetworkFee, serviceFeeAmount + NetworkFee)
  }

  /**
   * In exact real arithmetic, the service fee is recovered from the total,
   * the total always exceeds the service fee, and a larger fee gives a
   * larger total.
   */
  lemma EstimatedCostOrder(f: real, g: real)
    ensures EstimatedMintCost(f).total - NetworkFee == f
    ensures EstimatedMintCost(f).total > f
    ensures f < g <==> EstimatedMintCost(f).total < EstimatedMintCost(g).total
  {
  }

  /**
   * Worked examples: a rejected request, an accepted one, and the estimate
   * for a fee of 0.1 SOL in exact real arithmetic.
   */
  lemma MintScenarios(now: nat, randomText: string)
    ensures MintNft(MintOptions("", "c", "t", 0.1), now, randomText) ==
            MintResult(false, None, None, Some(MissingParameters))
    ensures MintNft(MintOptions("cm1", "col1", "tw1", 0.1), now, randomText).success
    ensures EstimatedMintCost(0.1) == CostBreakdown(0.1, 0.00225, 0.10225)
  {
  }
}
