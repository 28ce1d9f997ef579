/**
 * The parameter records of lib/model.ts and the two amount constructors.
 *
 * A Cairo enum is sent as a record with one key per variant: the active
 * variant holds a value (`{}`), every other one is `undefined`. The model
 * keeps exactly that record, so that "exactly one variant is active" is
 * something to prove rather than something the type already says.
 */
module Model {
  import opened Wrappers
  import opened Encoding

  /** A Cairo enum as a variant record: `true` for the variant that holds `{}`, `false` for `undefined`. */
  datatype CairoCustomEnum = CairoCustomEnum(variant: map<string, bool>)

  /** The variants whose value is defined. */
  function ActiveVariants(e: CairoCustomEnum): set<string>
  {
    set k | k in e.variant.Keys && e.variant[k]
  }

  /** `{ ...slots, [name]: {} }`: one key of a variant record set to a value. */
  function Activate(slots: map<string, bool>, name: string): (r: map<string, bool>)
    requires name in slots
    requires forall k :: k in slots ==> !slots[k]
    ensures r.Keys == slots.Keys
    ensures ActiveVariants(CairoCustomEnum(r)) == {name}
  {
    var r := slots[name := true];
    assert forall k :: k in r.Keys && r[k] ==> k == name;
    r
  }

  datatype AssetParams = AssetParams(
    asset: string,
    floor: int,
    initial_rate_accumulator: int,
    initial_full_utilization_rate: int,
    max_utilization: int,
    is_legacy: bool,
    fee_rate: int)

  datatype PragmaOracleParams = PragmaOracleParams(
    pragma_key: string,
    timeout: int,
    number_of_sources: int,
    start_time_offset: int,
    time_window: int,
    aggregation_mode: CairoCustomEnum)

  datatype InterestRateConfig = InterestRateConfig(
    min_target_utilization: int,
    max_target_utilization: int,
    target_utilization: int,
    min_full_utilization_rate: int,
    max_full_utilization_rate: int,
    zero_utilization_rate: int,
    rate_half_life: int,
    target_rate_percent: int)

  /** A pair's asset positions: -1 when a name was not found. */
  datatype LTVParams = LTVParams(collateral_asset_index: int, debt_asset_index: int, max_ltv: int)

  datatype LiquidationParams = LiquidationParams(collateral_asset_index: int, debt_asset_index: int, liquidation_factor: int)

  datatype DebtCapParams = DebtCapParams(collateral_asset_index: int, debt_asset_index: int, debt_cap: int)

  /**
   * The shutdown record. The interface names the two periods; the mainnet
   * configuration also fills in a per-pair `ltv_params` list.
   */
  datatype ShutdownParams = ShutdownParams(recovery_period: int, subscription_period: int, ltv_params: seq<LTVParams>)

  datatype FeeParams = FeeParams(fee_recipient: string)

  datatype CreatePoolParams = CreatePoolParams(
    pool_name: string,
    asset_params: seq<AssetParams>,
    ltv_params: seq<LTVParams>,
    interest_rate_configs: seq<InterestRateConfig>,
    pragma_oracle_params: seq<PragmaOracleParams>,
    liquidation_params: seq<LiquidationParams>,
    debt_caps_params: seq<DebtCapParams>,
    shutdown_params: ShutdownParams,
    fee_params: FeeParams,
    owner: string)

  /**
   * The positional arguments of `EnvAssetParams`, one asset of a test
   * environment (the class itself is not part of this model; `pragmaKey`
   * and `price` are the two fields the deployer reads back).
   */
  datatype EnvAssetParams = EnvAssetParams(
    name: string,
    symbol: string,
    decimals: int,
    initialSupply: int,
    pragmaKey: string,
    price: int,
    isLegacy: bool,
    feeRate: int,
    address: string)

  datatype AmountType = Delta | Target
  datatype Denomination = Native | Assets

  function AmountTypeName(t: AmountType): string
  {
    match t
    case Delta => "Delta"
    case Target => "Target"
  }

  function DenominationName(d: Denomination): string
  {
    match d
    case Native => "Native"
    case Assets => "Assets"
  }

  /** The optional argument of `Amount(args?)` and `UnsignedAmount(args?)`. */
  datatype AmountArgs = AmountArgs(amountType: AmountType, denomination: Denomination, value: int)

  datatype Amount = Amount(amount_type: CairoCustomEnum, denomination: CairoCustomEnum, value: I257)

  datatype UnsignedAmount = UnsignedAmount(amount_type: CairoCustomEnum, denomination: CairoCustomEnum, value: int)

  function AmountTypeEnum(t: AmountType): CairoCustomEnum
  {
    CairoCustomEnum(Activate(map["Delta" := false, "Target" := false], AmountTypeName(t)))
  }

  function DenominationEnum(d: Denomination): CairoCustomEnum
  {
    CairoCustomEnum(Activate(map["Native" := false, "Assets" := false], DenominationName(d)))
  }

  /** The literal enums used when no arguments are given. */
  const DEFAULT_AMOUNT_TYPE: CairoCustomEnum := CairoCustomEnum(map["Delta" := true, "Target" := false])
  const DEFAULT_DENOMINATION: CairoCustomEnum := CairoCustomEnum(map["Native" := true, "Assets" := false])

  /** The arguments the no-argument forms stand for. */
  const DEFAULT_ARGS: AmountArgs := AmountArgs(Delta, Native, 0)

  /** `Amount(args?)` */
  function NewAmount(args: Option<AmountArgs>): (r: Amount)
    ensures var a := if args.Some? then args.value else DEFAULT_ARGS;
      && r.amount_type.variant.Keys == {"Delta", "Target"}
      && ActiveVariants(r.amount_type) == {AmountTypeName(a.amountType)}
      && r.denomination.variant.Keys == {"Native", "Assets"}
      && ActiveVariants(r.denomination) == {DenominationName(a.denomination)}
      && SignedValue(r.value) == a.value && IsCanonical(r.value)
  {
    DefaultEnumsAreActivated();
    I257RoundTrip(if args.Some? then args.value.value else 0, I257(0, false));
    match args
    case None => Amount(DEFAULT_AMOUNT_TYPE, DEFAULT_DENOMINATION, ToI257(0))
    case Some(a) => Amount(AmountTypeEnum(a.amountType), DenominationEnum(a.denomination), ToI257(a.value))
  }

  /** `UnsignedAmount(args?)` */
  function NewUnsignedAmount(args: Option<AmountArgs>): (r: UnsignedAmount)
    ensures var a := if args.Some? then args.value else DEFAULT_ARGS;
      && r.amount_type.variant.Keys == {"Delta", "Target"}
      && ActiveVariants(r.amount_type) == {AmountTypeName(a.amountType)}
      && r.denomination.variant.Keys == {"Native", "Assets"}
      && ActiveVariants(r.denomination) == {DenominationName(a.denomination)}
      && r.value == a.value
  {
    DefaultEnumsAreActivated();
    match args
    case None => UnsignedAmount(DEFAULT_AMOUNT_TYPE, DEFAULT_DENOMINATION, 0)
    case Some(a) => UnsignedAmount(AmountTypeEnum(a.amountType), DenominationEnum(a.denomination), a.value)
  }

  /** The literal default enums are the ones the argument path builds for Delta and Native. */
  lemma DefaultEnumsAreActivated()
    ensures DEFAULT_AMOUNT_TYPE == AmountTypeEnum(Delta)
    ensures DEFAULT_DENOMINATION == DenominationEnum(Native)
  {
    assert map["Delta" := false, "Target" := false]["Delta" := true] == map["Delta" := true, "Target" := false];
    assert map["Native" := false, "Assets" := false]["Native" := true] == map["Native" := true, "Assets" := false];
  }

  /** Calling without arguments is calling with Delta, Native and 0. */
  lemma AmountDefaults()
    ensures NewAmount(None) == NewAmount(Some(DEFAULT_ARGS))
    ensures NewAmount(None).value == I257(0, false)
    ensures NewUnsignedAmount(None) == NewUnsignedAmount(Some(DEFAULT_ARGS))
  {
    DefaultEnumsAreActivated();
  }

  /** The two constructors agree on the enums and differ only in how the value is encoded. */
  lemma SignedAndUnsignedAgree(args: Option<AmountArgs>)
    ensures NewAmount(args).amount_type == NewUnsignedAmount(args).amount_type
    ensures NewAmount(args).denomination == NewUnsignedAmount(args).denomination
    ensures NewAmount(args).value == ToI257(NewUnsignedAmount(args).value)
  {
  }
}
