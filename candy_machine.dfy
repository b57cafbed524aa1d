/**
 * The candy machine (the on-chain minting program instance) as this system
 * configures it: validation of the operator's configuration, the data the
 * machine is created with, and the placeholder statistics.
 */
module CandyMachine {

  import opened Wrappers
  import opened CheckOrder

  /**
   * The operator's configuration. Public keys are given by their base-58
   * text and may be absent; dates are millisecond timestamps.
   */
  datatype CandyMachineConfig = CandyMachineConfig(
    collectionMint: Option<string>,
    treasuryWallet: Option<string>,
    serviceFeeAmount: real,
    itemsAvailable: Option<int>,
    startDate: Option<int>,
    endDate: Option<int>)

  /** JavaScript truthiness of an optional number: present and not zero. */
  predicate IsTruthy(n: Option<int>) {
    n.Some? && n.value != 0
  }

  // ---------------------------------------------------------------------------
  // validateCandyMachineConfig

  const CollectionMintRequired := "Collection mint is required"
  const TreasuryWalletRequired := "Treasury wallet is required"
  const ServiceFeePositive := "Service fee must be greater than 0"
  const ItemsAvailablePositive := "Items available must be greater than 0"
  const StartBeforeEnd := "Start date must be before end date"

  /** The messages of the configuration checks, in the order the checks run. */
  const ConfigChecks := [CollectionMintRequired, TreasuryWalletRequired, ServiceFeePositive,
                         ItemsAvailablePositive, StartBeforeEnd]

  /** A supply is rejected only when it is given and negative; zero counts as not given. */
  predicate HasNegativeSupply(config: CandyMachineConfig) {
    config.itemsAvailable.Some? && config.itemsAvailable.value < 0
  }

  /** Both dates are given and the start is not before the end. */
  predicate HasInvertedDates(config: CandyMachineConfig) {
    config.startDate.Some? && config.endDate.Some? && config.startDate.value >= config.endDate.value
  }

  /** The list the validator reports: one message per failed check, in check order. */
  function ConfigErrors(config: CandyMachineConfig): seq<string> {
    FailedChecks(config.collectionMint.None?, config.treasuryWallet.None?, config.serviceFeeAmount <= 0.0,
                 HasNegativeSupply(config), HasInvertedDates(config))
  }

  /** The messages of the failed checks, given whether each of the five checks fails. */
  function FailedChecks(mint: bool, treasury: bool, fee: bool, items: bool, dates: bool): seq<string> {
    IfFailed(mint, CollectionMintRequired) + IfFailed(treasury, TreasuryWalletRequired) +
    IfFailed(fee, ServiceFeePositive) + IfFailed(items, ItemsAvailablePositive) +
    IfFailed(dates, StartBeforeEnd)
  }

  /** Each message is reported exactly when its check fails. */
  lemma FailedChecksMembers(mint: bool, treasury: bool, fee: bool, items: bool, dates: bool)
    ensures CollectionMintRequired in FailedChecks(mint, treasury, fee, items, dates) <==> mint
    ensures TreasuryWalletRequired in FailedChecks(mint, treasury, fee, items, dates) <==> treasury
    ensures ServiceFeePositive in FailedChecks(mint, treasury, fee, items, dates) <==> fee
    ensures ItemsAvailablePositive in FailedChecks(mint, treasury, fee, items, dates) <==> items
    ensures StartBeforeEnd in FailedChecks(mint, treasury, fee, items, dates) <==> dates
  {
    assert CollectionMintRequired != TreasuryWalletRequired && CollectionMintRequired != ServiceFeePositive;
    assert CollectionMintRequired != ItemsAvailablePositive && CollectionMintRequired != StartBeforeEnd;
    assert TreasuryWalletRequired != ServiceFeePositive && TreasuryWalletRequired != ItemsAvailablePositive;
    assert TreasuryWalletRequired != StartBeforeEnd && ServiceFeePositive != ItemsAvailablePositive;
    assert ServiceFeePositive != StartBeforeEnd && ItemsAvailablePositive != StartBeforeEnd;
  }

  lemma ConfigRanks()
    ensures Rank(ConfigChecks, CollectionMintRequired) == 0
    ensures Rank(ConfigChecks, TreasuryWalletRequired) == 1
    ensures Rank(ConfigChecks, ServiceFeePositive) == 2
    ensures Rank(ConfigChecks, ItemsAvailablePositive) == 3
    ensures Rank(ConfigChecks, StartBeforeEnd) == 4
  {
    var order := ConfigChecks;
    assert order[1..][1..][1..][1..] == [StartBeforeEnd];
  }

  /** The messages come in check order, each at most once, so there are at most five. */
  lemma FailedChecksInOrder(mint: bool, treasury: bool, fee: bool, items: bool, dates: bool)
    ensures InCheckOrder(FailedChecks(mint, treasury, fee, items, dates), ConfigChecks)
    ensures |FailedChecks(mint, treasury, fee, items, dates)| <= 5
  {
    ConfigRanks();
    var order := ConfigChecks;
    var s0: seq<string> := [];
    Then(s0, order, mint, CollectionMintRequired);
    var s1 := s0 + IfFailed(mint, CollectionMintRequired);
    Then(s1, order, treasury, TreasuryWalletRequired);
    var s2 := s1 + IfFailed(treasury, TreasuryWalletRequired);
    Then(s2, order, fee, ServiceFeePositive);
    var s3 := s2 + IfFailed(fee, ServiceFeePositive);
    Then(s3, order, items, ItemsAvailablePositive);
    var s4 := s3 + IfFailed(items, ItemsAvailablePositive);
    Then(s4, order, dates, StartBeforeEnd);
    assert s0 + IfFailed(mint, CollectionMintRequired) == IfFailed(mint, CollectionMintRequired);
    InCheckOrderBound(FailedChecks(mint, treasury, fee, items, dates), order);
  }

  /**
   * What the reported list says: each message appears exactly when its check
   * fails, in check order, and the list is empty exactly for an acceptable
   * configuration.
   */
  lemma ConfigErrorsMeaning(config: CandyMachineConfig)
    ensures ConfigErrors(config) == [] <==>
      config.collectionMint.Some? && config.treasuryWallet.Some? && config.serviceFeeAmount > 0.0 &&
      !HasNegativeSupply(config) && !HasInvertedDates(config)
    ensures InCheckOrder(ConfigErrors(config), ConfigChecks) && |ConfigErrors(config)| <= 5
    ensures CollectionMintRequired in ConfigErrors(config) <==> config.collectionMint.None?
    ensures TreasuryWalletRequired in ConfigErrors(config) <==> config.treasuryWallet.None?
    ensures ServiceFeePositive in ConfigErrors(config) <==> config.serviceFeeAmount <= 0.0
    ensures ItemsAvailablePositive in ConfigErrors(config) <==> HasNegativeSupply(config)
    ensures StartBeforeEnd in ConfigErrors(config) <==> HasInvertedDates(config)
  {
    var mint, treasury, fee := config.collectionMint.None?, config.treasuryWallet.None?, config.serviceFeeAmount <= 0.0;
    FailedChecksMembers(mint, treasury, fee, HasNegativeSupply(config), HasInvertedDates(config));
    FailedChecksInOrder(mint, treasury, fee, HasNegativeSupply(config), HasInvertedDates(config));
  }

  /**
   * The reported list is the only one of its kind: any list of check
   * messages in check order that holds exactly the messages of the failed
   * checks is the validator's list.
   */
  lemma ConfigErrorsDetermined(config: CandyMachineConfig, errors: seq<string>)
    requires InCheckOrder(errors, ConfigChecks)
    requires CollectionMintRequired in errors <==> config.collectionMint.None?
    requires TreasuryWalletRequired in errors <==> config.treasuryWallet.None?
    requires ServiceFeePositive in errors <==> config.serviceFeeAmount <= 0.0
    requires ItemsAvailablePositive in errors <==> HasNegativeSupply(config)
    requires StartBeforeEnd in errors <==> HasInvertedDates(config)
    ensures errors == ConfigErrors(config)
  {
    var spec := ConfigErrors(config);
    ConfigErrorsMeaning(config);
    forall e
      ensures e in errors <==> e in spec
    {
      if e in errors {
        var i :| 0 <= i < |errors| && errors[i] == e;
        assert e in ConfigChecks;
      }
      if e in spec {
        var i :| 0 <= i < |spec| && spec[i] == e;
        assert e in ConfigChecks;
      }
    }
    InCheckOrderUnique(errors, spec, ConfigChecks);
  }

  /**
   * Runs the five checks in order and returns one message per failed check;
   * an empty list means the configuration is accepted.
   */
  method ValidateCandyMachineConfig(config: CandyMachineConfig) returns (errors: seq<string>)
    ensures errors == ConfigErrors(config)
    ensures errors == [] <==>
      config.collectionMint.Some? && config.treasuryWallet.Some? && config.serviceFeeAmount > 0.0 &&
      !HasNegativeSupply(config) && !HasInvertedDates(config)
    ensures InCheckOrder(errors, ConfigChecks) && |errors| <= 5
    ensures CollectionMintRequired in errors <==> config.collectionMint.None?
    ensures TreasuryWalletRequired in errors <==> config.treasuryWallet.None?
    ensures ServiceFeePositive in errors <==> config.serviceFeeAmount <= 0.0
    ensures ItemsAvailablePositive in errors <==> HasNegativeSupply(config)
    ensures StartBeforeEnd in errors <==> HasInvertedDates(config)
  {
    var mintMissing := config.collectionMint.None?;
    var treasuryMissing := config.treasuryWallet.None?;
    var feeNotPositive := config.serviceFeeAmount <= 0.0;
    var itemsNotPositive := IsTruthy(config.itemsAvailable) && config.itemsAvailable.value <= 0;
    var datesInverted := HasInvertedDates(config);

    errors := [];
    if mintMissing {
      errors := errors + [CollectionMintRequired];
    }
    assert errors == IfFailed(mintMissing, CollectionMintRequired);
    if treasuryMissing {
      errors := errors + [TreasuryWalletRequired];
    }
    assert errors == IfFailed(mintMissing, CollectionMintRequired)
                   + IfFailed(treasuryMissing, TreasuryWalletRequired);
    if feeNotPositive {
      errors := errors + [ServiceFeePositive];
    }
    assert errors == IfFailed(mintMissing, CollectionMintRequired)
                   + IfFailed(treasuryMissing, TreasuryWalletRequired)
                   + IfFailed(feeNotPositive, ServiceFeePositive);
    if itemsNotPositive {
      errors := errors + [ItemsAvailablePositive];
    }
    assert errors == IfFailed(mintMissing, CollectionMintRequired)
                   + IfFailed(treasuryMissing, TreasuryWalletRequired)
                   + IfFailed(feeNotPositive, ServiceFeePositive)
                   + IfFailed(itemsNotPositive, ItemsAvailablePositive);
    if datesInverted {
      errors := errors + [StartBeforeEnd];
    }
    assert errors == IfFailed(mintMissing, CollectionMintRequired)
                   + IfFailed(treasuryMissing, TreasuryWalletRequired)
                   + IfFailed(feeNotPositive, ServiceFeePositive)
                   + IfFailed(itemsNotPositive, ItemsAvailablePositive)
                   + IfFailed(datesInverted, StartBeforeEnd);

    assert errors == FailedChecks(mintMissing, treasuryMissing, feeNotPositive, itemsNotPositive, datesInverted);
    assert itemsNotPositive == HasNegativeSupply(config);
    FailedChecksMembers(mintMissing, treasuryMissing, feeNotPositive, itemsNotPositive, datesInverted);
    FailedChecksInOrder(mintMissing, treasuryMissing, feeNotPositive, itemsNotPositive, datesInverted);
  }

  // ---------------------------------------------------------------------------
  // createCandyMachine

  datatype CandyMachineCreator = CandyMachineCreator(address: string, verified: bool, share: int)

  datatype ConfigLineSettings = ConfigLineSettings(
    prefixName: string,
    nameLength: int,
    prefixUri: string,
    uriLength: int,
    isSequential: bool)

  /** The data the candy machine is created with; its hidden settings are always null. */
  datatype CandyMachineData = CandyMachineData(
    itemsAvailable: int,
    symbol: string,
    sellerFeeBasisPoints: int,
    maxSupply: int,
    isMutable: bool,
    creators: seq<CandyMachineCreator>,
    configLineSettings: ConfigLineSettings)

  const DefaultItemsAvailable := 1000

  /** Royalties of 5%, in basis points. */
  const RoyaltyBasisPoints := 500

  /** The sum of the creators' shares. */
  function TotalShare(creators: seq<CandyMachineCreator>): int {
    if creators == [] then 0 else creators[0].share + TotalShare(creators[1..])
  }

  /**
   * Converts the configuration to the candy machine's data. Reading the
   * treasury wallet's text fails when the wallet is absent; the error is
   * rethrown, which is None here.
   */
  function CreateCandyMachine(config: CandyMachineConfig): (r: Option<CandyMachineData>)
    ensures r.Some? <==> config.treasuryWallet.Some?
    ensures r.Some? ==> r.value.itemsAvailable != 0
    ensures r.Some? && IsTruthy(config.itemsAvailable) ==> r.value.itemsAvailable == config.itemsAvailable.value
    ensures r.Some? && !IsTruthy(config.itemsAvailable) ==> r.value.itemsAvailable == DefaultItemsAvailable
    ensures r.Some? ==> r.value.sellerFeeBasisPoints == RoyaltyBasisPoints
    ensures r.Some? ==> |r.value.creators| == 1 && r.value.creators[0].address == config.treasuryWallet.value
    ensures r.Some? ==> TotalShare(r.value.creators) == 100
  {
    if config.treasuryWallet.None? then None
    else
      Some(CandyMachineData(
        itemsAvailable := if IsTruthy(config.itemsAvailable) then config.itemsAvailable.value else DefaultItemsAvailable,
        symbol := "NFT",
        sellerFeeBasisPoints := RoyaltyBasisPoints,
        maxSupply := 0,
        isMutable := true,
        creators := [CandyMachineCreator(config.treasuryWallet.value, false, 100)],
        configLineSettings := ConfigLineSettings("NFT #", 4, "", 200, false)))
  }

  /** A configuration the validator accepts builds a machine with a positive supply. */
  lemma AcceptedConfigBuilds(config: CandyMachineConfig)
    requires ConfigErrors(config) == []
    ensures CreateCandyMachine(config).Some?
    ensures CreateCandyMachine(config).value.itemsAvailable > 0
  {
    ConfigErrorsMeaning(config);
  }

  /**
   * A supply of zero is falsy: the validator does not reject it and the
   * builder replaces it with the default.
   */
  lemma ZeroSupplyDefaults(config: CandyMachineConfig)
    requires config.itemsAvailable == Some(0) && config.treasuryWallet.Some?
    ensures ItemsAvailablePositive !in ConfigErrors(config)
    ensures CreateCandyMachine(config).value.itemsAvailable == DefaultItemsAvailable
  {
    ConfigErrorsMeaning(config);
  }

  // ---------------------------------------------------------------------------
  // getCandyMachineStats

  datatype CandyMachineStats = CandyMachineStats(
    candyMachineId: string,
    itemsAvailable: int,
    itemsRedeemed: int,
    goLiveDate: int)

  /** Placeholder statistics; now stands for the clock reading taken as the go-live date. */
  function GetCandyMachineStats(candyMachineId: string, now: int): (s: CandyMachineStats)
    ensures s.candyMachineId == candyMachineId
    ensures s.itemsAvailable == DefaultItemsAvailable && s.itemsRedeemed == 0
    ensures s.goLiveDate == now
  {
    CandyMachineStats(candyMachineId, DefaultItemsAvailable, 0, now)
  }
}
