/**
 * The mainnet configuration compiler of lib/config.mainnet.ts.
 *
 * A human-authored configuration names assets and asset pairs and gives
 * ratios as decimals and durations in seconds. The compiler turns it into
 * the positional records of a pool-creation call: one entry per asset for
 * the asset, interest-rate and oracle lists, one entry per pair for the
 * loan-to-value, liquidation, debt-cap and shutdown lists, with pair names
 * replaced by the position of the first asset of that name (or -1), and
 * ratios multiplied into fixed point. It also fills in the deployment
 * addresses with `||` fallbacks.
 *
 * The JSON files the source imports become the typed records
 * `ConfigInput` and `DeploymentInput`.
 */
module MainnetConfig {
  import opened Wrappers
  import opened FixedPoint
  import opened Model
  import opened Lists

  datatype TokenInput = TokenInput(symbol: string, decimals: int, address: string, is_legacy: bool)

  datatype PragmaInput = PragmaInput(
    pragma_key: string,
    timeout: int,
    number_of_sources: int,
    start_time_offset: int,
    time_window: int,
    aggregation_mode: string,
    oracle: Option<string>,
    summary_stats: Option<string>)

  datatype AssetInput = AssetInput(
    asset_name: string,
    token: TokenInput,
    pragma: PragmaInput,
    floor: Decimal,
    initial_full_utilization_rate: Decimal,
    max_utilization: Decimal,
    fee_rate: Decimal,
    min_target_utilization: Decimal,
    max_target_utilization: Decimal,
    target_utilization: Decimal,
    min_full_utilization_rate: Decimal,
    max_full_utilization_rate: Decimal,
    zero_utilization_rate: Decimal,
    rate_half_life: int,
    target_rate_percent: Decimal)

  datatype PairInput = PairInput(
    collateral_asset_name: string,
    debt_asset_name: string,
    max_ltv: Decimal,
    liquidation_discount: Decimal,
    debt_cap: Decimal,
    shutdown_ltv: Decimal)

  datatype PoolInput = PoolInput(recovery_period: int, subscription_period: int, fee_recipient: string, owner: string)

  /** The configuration document: assets, pairs and pool-level values. */
  datatype ConfigInput = ConfigInput(
    asset_parameters: seq<AssetInput>,
    pair_parameters: seq<PairInput>,
    pool_parameters: PoolInput)

  /** The deployment record of an earlier run; each address may be missing or empty. */
  datatype DeploymentInput = DeploymentInput(
    singletonV2: Option<string>,
    extensionPOV2: Option<string>,
    pragma_oracle: Option<string>,
    pragma_summary_stats: Option<string>,
    ekubo_core: Option<string>)

  datatype PragmaAddresses = PragmaAddresses(oracle: string, summary_stats: string)

  /** The `protocol` section of the mainnet configuration. */
  datatype MainnetProtocol = MainnetProtocol(
    singleton: string,
    extensionPO: string,
    pragma: PragmaAddresses,
    ekubo_core: string)

  /** One named pool; `pool_type` is the source's `type` field. */
  datatype PoolEntry = PoolEntry(id: int, description: string, pool_type: string, params: CreatePoolParams)

  datatype Config = Config(
    name: string,
    protocol: MainnetProtocol,
    env: seq<EnvAssetParams>,
    pools: seq<(string, PoolEntry)>)

  const GENESIS_POOL_ID: int := 2198503327643286920898110335698706244522220458610657370981979460625005526824

  /** JavaScript truthiness of an optional string: present and non-empty. */
  predicate Truthy(s: Option<string>)
  {
    s.Some? && s.value != ""
  }

  /** `a || b` on an optional string with a string fallback. */
  function Or(a: Option<string>, b: string): string
  {
    if Truthy(a) then a.value else b
  }

  /** `findIndex` by `asset_name`: the first matching position, or -1. */
  function FindAssetIndex(assets: seq<AssetInput>, name: string): (i: int)
    ensures -1 <= i < |assets|
    ensures i == -1 <==> forall j :: 0 <= j < |assets| ==> assets[j].asset_name != name
    ensures i >= 0 ==> assets[i].asset_name == name
    ensures i >= 0 ==> forall j :: 0 <= j < i ==> assets[j].asset_name != name
  {
    if |assets| == 0 then -1
    else if assets[0].asset_name == name then 0
    else
      var k := FindAssetIndex(assets[1..], name);
      if k == -1 then -1 else k + 1
  }

  /** `i` is what `findIndex` may answer for `name`: the first match, or -1 when there is none. */
  ghost predicate IsFirstIndexOf(assets: seq<AssetInput>, name: string, i: int)
  {
    if i == -1 then
      forall j :: 0 <= j < |assets| ==> assets[j].asset_name != name
    else
      && 0 <= i < |assets|
      && assets[i].asset_name == name
      && forall j :: 0 <= j < i ==> assets[j].asset_name != name
  }

  lemma FirstIndexUnique(assets: seq<AssetInput>, name: string, i: int)
    requires IsFirstIndexOf(assets, name, i)
    ensures i == FindAssetIndex(assets, name)
  {
  }

  /** The Cairo enum for the oracle's aggregation mode string. */
  function AggregationMode(mode: string): (r: CairoCustomEnum)
    ensures r.variant.Keys == {"Median", "Mean", "Error"}
    ensures ActiveVariants(r) == if mode == "median" || mode == "Median" then {"Median"} else {"Mean"}
    ensures "Error" !in ActiveVariants(r)
  {
    var r := if mode == "median" || mode == "Median"
      then CairoCustomEnum(map["Median" := true, "Mean" := false, "Error" := false])
      else CairoCustomEnum(map["Median" := false, "Mean" := true, "Error" := false]);
    assert forall k :: k in ActiveVariants(r) ==> k == "Median" || k == "Mean";
    r
  }

  /** `x` is `d * factor` rounded half away from zero. */
  ghost predicate FixedPointOf(d: Decimal, factor: int, x: int)
  {
    IsNearestTiesAway(d.mantissa * factor, Pow10(d.fractionDigits), x)
  }

  lemma FixedPointOfUnique(d: Decimal, factor: int, x: int, y: int)
    requires FixedPointOf(d, factor, x) && FixedPointOf(d, factor, y)
    ensures x == y
  {
    RoundUnique(d.mantissa * factor, Pow10(d.fractionDigits), x, y);
  }

  // ---- Reference relations: what each compiled record must hold ----

  ghost predicate EnvAssetFrom(a: AssetInput, e: EnvAssetParams)
  {
    && e.name == a.asset_name && e.symbol == a.token.symbol && e.decimals == a.token.decimals
    && e.initialSupply == 0 && e.pragmaKey == a.pragma.pragma_key && e.price == 0
    && e.isLegacy == a.token.is_legacy && FixedPointOf(a.fee_rate, SCALE, e.feeRate)
    && e.address == a.token.address
  }

  ghost predicate AssetParamsFrom(a: AssetInput, p: AssetParams)
  {
    && p.asset == a.token.address
    && FixedPointOf(a.floor, SCALE, p.floor)
    && p.initial_rate_accumulator == SCALE
    && FixedPointOf(a.initial_full_utilization_rate, SCALE, p.initial_full_utilization_rate)
    && FixedPointOf(a.max_utilization, SCALE, p.max_utilization)
    && p.is_legacy == a.token.is_legacy
    && FixedPointOf(a.fee_rate, SCALE, p.fee_rate)
  }

  ghost predicate InterestRateConfigFrom(a: AssetInput, c: InterestRateConfig)
  {
    && FixedPointOf(a.min_target_utilization, UTILIZATION_SCALE, c.min_target_utilization)
    && FixedPointOf(a.max_target_utilization, UTILIZATION_SCALE, c.max_target_utilization)
    && FixedPointOf(a.target_utilization, UTILIZATION_SCALE, c.target_utilization)
    && FixedPointOf(a.min_full_utilization_rate, SCALE, c.min_full_utilization_rate)
    && FixedPointOf(a.max_full_utilization_rate, SCALE, c.max_full_utilization_rate)
    && FixedPointOf(a.zero_utilization_rate, SCALE, c.zero_utilization_rate)
    && c.rate_half_life == a.rate_half_life
    && FixedPointOf(a.target_rate_percent, SCALE, c.target_rate_percent)
  }

  ghost predicate OracleParamsFrom(a: AssetInput, o: PragmaOracleParams)
  {
    && o.pragma_key == a.pragma.pragma_key
    && o.timeout == a.pragma.timeout
    && o.number_of_sources == a.pragma.number_of_sources
    && o.start_time_offset == a.pragma.start_time_offset
    && o.time_window == a.pragma.time_window
    && o.aggregation_mode == AggregationMode(a.pragma.aggregation_mode)
  }

  ghost predicate PairIndicesFrom(assets: seq<AssetInput>, pair: PairInput, collateral: int, debt: int)
  {
    IsFirstIndexOf(assets, pair.collateral_asset_name, collateral)
    && IsFirstIndexOf(assets, pair.debt_asset_name, debt)
  }

  ghost predicate LtvFrom(assets: seq<AssetInput>, pair: PairInput, l: LTVParams)
  {
    PairIndicesFrom(assets, pair, l.collateral_asset_index, l.debt_asset_index)
    && FixedPointOf(pair.max_ltv, SCALE, l.max_ltv)
  }

  ghost predicate LiquidationFrom(assets: seq<AssetInput>, pair: PairInput, l: LiquidationParams)
  {
    PairIndicesFrom(assets, pair, l.collateral_asset_index, l.debt_asset_index)
    && FixedPointOf(pair.liquidation_discount, SCALE, l.liquidation_factor)
  }

  ghost predicate DebtCapFrom(assets: seq<AssetInput>, pair: PairInput, d: DebtCapParams)
  {
    PairIndicesFrom(assets, pair, d.collateral_asset_index, d.debt_asset_index)
    && FixedPointOf(pair.debt_cap, SCALE, d.debt_cap)
  }

  ghost predicate ShutdownLtvFrom(assets: seq<AssetInput>, pair: PairInput, l: LTVParams)
  {
    PairIndicesFrom(assets, pair, l.collateral_asset_index, l.debt_asset_index)
    && FixedPointOf(pair.shutdown_ltv, SCALE, l.max_ltv)
  }

  /** The whole pool-creation record, entry by entry, against the configuration. */
  ghost predicate PoolParamsFrom(cfg: ConfigInput, p: CreatePoolParams)
  {
    var assets, pairs := cfg.asset_parameters, cfg.pair_parameters;
    && p.pool_name == "Genesis Pool"
    && |p.asset_params| == |assets| && |p.interest_rate_configs| == |assets|
    && |p.pragma_oracle_params| == |assets|
    && |p.ltv_params| == |pairs| && |p.liquidation_params| == |pairs|
    && |p.debt_caps_params| == |pairs| && |p.shutdown_params.ltv_params| == |pairs|
    && (forall i :: 0 <= i < |assets| ==> AssetParamsFrom(assets[i], p.asset_params[i]))
    && (forall i :: 0 <= i < |assets| ==> InterestRateConfigFrom(assets[i], p.interest_rate_configs[i]))
    && (forall i :: 0 <= i < |assets| ==> OracleParamsFrom(assets[i], p.pragma_oracle_params[i]))
    && (forall i :: 0 <= i < |pairs| ==> LtvFrom(assets, pairs[i], p.ltv_params[i]))
    && (forall i :: 0 <= i < |pairs| ==> LiquidationFrom(assets, pairs[i], p.liquidation_params[i]))
    && (forall i :: 0 <= i < |pairs| ==> DebtCapFrom(assets, pairs[i], p.debt_caps_params[i]))
    && (forall i :: 0 <= i < |pairs| ==> ShutdownLtvFrom(assets, pairs[i], p.shutdown_params.ltv_params[i]))
    && p.shutdown_params.recovery_period == cfg.pool_parameters.recovery_period
    && p.shutdown_params.subscription_period == cfg.pool_parameters.subscription_period
    && p.fee_params == FeeParams(cfg.pool_parameters.fee_recipient)
    && p.owner == cfg.pool_parameters.owner
  }

  // ---- The compiler ----

  /** One `env` entry: `new EnvAssetParams(...)`. */
  function CompileEnvAsset(a: AssetInput): (e: EnvAssetParams)
    ensures EnvAssetFrom(a, e)
  {
    EnvAssetParams(a.asset_name, a.token.symbol, a.token.decimals, 0, a.pragma.pragma_key, 0,
      a.token.is_legacy, ToScale(a.fee_rate), a.token.address)
  }

  function CompileAssetParams(a: AssetInput): (p: AssetParams)
    ensures AssetParamsFrom(a, p)
  {
    AssetParams(
      a.token.address,
      ToScale(a.floor),
      SCALE,
      ToScale(a.initial_full_utilization_rate),
      ToScale(a.max_utilization),
      a.token.is_legacy,
      ToScale(a.fee_rate))
  }

  function CompileInterestRateConfig(a: AssetInput): (c: InterestRateConfig)
    ensures InterestRateConfigFrom(a, c)
  {
    InterestRateConfig(
      ToUtilizationScale(a.min_target_utilization),
      ToUtilizationScale(a.max_target_utilization),
      ToUtilizationScale(a.target_utilization),
      ToScale(a.min_full_utilization_rate),
      ToScale(a.max_full_utilization_rate),
      ToScale(a.zero_utilization_rate),
      a.rate_half_life,
      ToScale(a.target_rate_percent))
  }

  function CompileOracleParams(a: AssetInput): (o: PragmaOracleParams)
    ensures OracleParamsFrom(a, o)
  {
    PragmaOracleParams(
      a.pragma.pragma_key,
      a.pragma.timeout,
      a.pragma.number_of_sources,
      a.pragma.start_time_offset,
      a.pragma.time_window,
      AggregationMode(a.pragma.aggregation_mode))
  }

  function CompileLtv(assets: seq<AssetInput>, pair: PairInput): (l: LTVParams)
    ensures LtvFrom(assets, pair, l)
  {
    LTVParams(
      FindAssetIndex(assets, pair.collateral_asset_name),
      FindAssetIndex(assets, pair.debt_asset_name),
      ToScale(pair.max_ltv))
  }

  function CompileLiquidation(assets: seq<AssetInput>, pair: PairInput): (l: LiquidationParams)
    ensures LiquidationFrom(assets, pair, l)
  {
    LiquidationParams(
      FindAssetIndex(assets, pair.collateral_asset_name),
      FindAssetIndex(assets, pair.debt_asset_name),
      ToScale(pair.liquidation_discount))
  }

  function CompileDebtCap(assets: seq<AssetInput>, pair: PairInput): (d: DebtCapParams)
    ensures DebtCapFrom(assets, pair, d)
  {
    DebtCapParams(
      FindAssetIndex(assets, pair.collateral_asset_name),
      FindAssetIndex(assets, pair.debt_asset_name),
      ToScale(pair.debt_cap))
  }

  function CompileShutdownLtv(assets: seq<AssetInput>, pair: PairInput): (l: LTVParams)
    ensures ShutdownLtvFrom(assets, pair, l)
  {
    LTVParams(
      FindAssetIndex(assets, pair.collateral_asset_name),
      FindAssetIndex(assets, pair.debt_asset_name),
      ToScale(pair.shutdown_ltv))
  }

  /** The `env` list: one test-environment asset per configured asset, in order. */
  function CompileEnv(cfg: ConfigInput): (env: seq<EnvAssetParams>)
    ensures |env| == |cfg.asset_parameters|
    ensures forall i :: 0 <= i < |env| ==> EnvAssetFrom(cfg.asset_parameters[i], env[i])
  {
    Map(CompileEnvAsset, cfg.asset_parameters)
  }

  /** The `params` of the genesis pool. */
  function CompilePoolParams(cfg: ConfigInput): (p: CreatePoolParams)
    ensures PoolParamsFrom(cfg, p)
  {
    var assets, pairs := cfg.asset_parameters, cfg.pair_parameters;
    CreatePoolParams(
      "Genesis Pool",
      Map(CompileAssetParams, assets),
      Map(pair => CompileLtv(assets, pair), pairs),
      Map(CompileInterestRateConfig, assets),
      Map(CompileOracleParams, assets),
      Map(pair => CompileLiquidation(assets, pair), pairs),
      Map(pair => CompileDebtCap(assets, pair), pairs),
      ShutdownParams(
        cfg.pool_parameters.recovery_period,
        cfg.pool_parameters.subscription_period,
        Map(pair => CompileShutdownLtv(assets, pair), pairs)),
      FeeParams(cfg.pool_parameters.fee_recipient),
      cfg.pool_parameters.owner)
  }

  /**
   * The `protocol` section. `pragma.oracle` and `summary_stats` fall back to
   * the first asset's value, which throws when there is no asset; the other
   * addresses fall back to "0x0".
   */
  function ResolveProtocol(cfg: ConfigInput, dep: DeploymentInput): (r: Result<MainnetProtocol>)
    ensures r.Failure? <==>
      (|cfg.asset_parameters| == 0 && (!Truthy(dep.pragma_oracle) || !Truthy(dep.pragma_summary_stats)))
    ensures r.Success? ==> r.value.singleton == Or(dep.singletonV2, "0x0")
    ensures r.Success? ==> r.value.extensionPO == Or(dep.extensionPOV2, "0x0")
    ensures r.Success? ==> r.value.ekubo_core == Or(dep.ekubo_core, "0x0")
    ensures r.Success? && Truthy(dep.pragma_oracle) ==> r.value.pragma.oracle == dep.pragma_oracle.value
    ensures r.Success? && !Truthy(dep.pragma_oracle) ==>
      r.value.pragma.oracle == Or(cfg.asset_parameters[0].pragma.oracle, "0x0")
    ensures r.Success? && Truthy(dep.pragma_summary_stats) ==>
      r.value.pragma.summary_stats == dep.pragma_summary_stats.value
    ensures r.Success? && !Truthy(dep.pragma_summary_stats) ==>
      r.value.pragma.summary_stats == Or(cfg.asset_parameters[0].pragma.summary_stats, "0x0")
    ensures r.Success? ==>
      && r.value.singleton != "" && r.value.extensionPO != "" && r.value.ekubo_core != ""
      && r.value.pragma.oracle != "" && r.value.pragma.summary_stats != ""
  {
    var assets := cfg.asset_parameters;
    if !Truthy(dep.pragma_oracle) && |assets| == 0 then
      Failure("TypeError: cannot read properties of undefined (reading 'pragma')")
    else
      var oracle := if Truthy(dep.pragma_oracle) then dep.pragma_oracle.value
        else Or(assets[0].pragma.oracle, "0x0");
      if !Truthy(dep.pragma_summary_stats) && |assets| == 0 then
        Failure("TypeError: cannot read properties of undefined (reading 'pragma')")
      else
        var summary := if Truthy(dep.pragma_summary_stats) then dep.pragma_summary_stats.value
          else Or(assets[0].pragma.summary_stats, "0x0");
        Success(MainnetProtocol(
          Or(dep.singletonV2, "0x0"),
          Or(dep.extensionPOV2, "0x0"),
          PragmaAddresses(oracle, summary),
          Or(dep.ekubo_core, "0x0")))
  }

  /** The exported `config` object. */
  function CompileConfig(cfg: ConfigInput, dep: DeploymentInput): (r: Result<Config>)
    ensures r.Success? <==> ResolveProtocol(cfg, dep).Success?
    ensures r.Success? ==> r.value.name == "mainnet" && r.value.protocol == ResolveProtocol(cfg, dep).value
    ensures r.Success? ==>
      && |r.value.env| == |cfg.asset_parameters|
      && forall i :: 0 <= i < |r.value.env| ==> EnvAssetFrom(cfg.asset_parameters[i], r.value.env[i])
    ensures r.Success? ==>
      && |r.value.pools| == 1 && r.value.pools[0].0 == "genesis-pool"
      && r.value.pools[0].1.id == GENESIS_POOL_ID
      && PoolParamsFrom(cfg, r.value.pools[0].1.params)
  {
    var protocol :- ResolveProtocol(cfg, dep);
    Success(Config(
      "mainnet",
      protocol,
      CompileEnv(cfg),
      [("genesis-pool", PoolEntry(GENESIS_POOL_ID, "", "", CompilePoolParams(cfg)))]))
  }

  // ---- Properties of the compiled configuration ----

  lemma AssetParamsUnique(a: AssetInput, p: AssetParams, q: AssetParams)
    requires AssetParamsFrom(a, p) && AssetParamsFrom(a, q)
    ensures p == q
  {
    FixedPointOfUnique(a.floor, SCALE, p.floor, q.floor);
    FixedPointOfUnique(a.initial_full_utilization_rate, SCALE, p.initial_full_utilization_rate, q.initial_full_utilization_rate);
    FixedPointOfUnique(a.max_utilization, SCALE, p.max_utilization, q.max_utilization);
    FixedPointOfUnique(a.fee_rate, SCALE, p.fee_rate, q.fee_rate);
  }

  lemma InterestRateConfigUnique(a: AssetInput, p: InterestRateConfig, q: InterestRateConfig)
    requires InterestRateConfigFrom(a, p) && InterestRateConfigFrom(a, q)
    ensures p == q
  {
    FixedPointOfUnique(a.min_target_utilization, UTILIZATION_SCALE, p.min_target_utilization, q.min_target_utilization);
    FixedPointOfUnique(a.max_target_utilization, UTILIZATION_SCALE, p.max_target_utilization, q.max_target_utilization);
    FixedPointOfUnique(a.target_utilization, UTILIZATION_SCALE, p.target_utilization, q.target_utilization);
    FixedPointOfUnique(a.min_full_utilization_rate, SCALE, p.min_full_utilization_rate, q.min_full_utilization_rate);
    FixedPointOfUnique(a.max_full_utilization_rate, SCALE, p.max_full_utilization_rate, q.max_full_utilization_rate);
    FixedPointOfUnique(a.zero_utilization_rate, SCALE, p.zero_utilization_rate, q.zero_utilization_rate);
    FixedPointOfUnique(a.target_rate_percent, SCALE, p.target_rate_percent, q.target_rate_percent);
  }

  lemma PairIndicesUnique(assets: seq<AssetInput>, pair: PairInput, c1: int, d1: int, c2: int, d2: int)
    requires PairIndicesFrom(assets, pair, c1, d1) && PairIndicesFrom(assets, pair, c2, d2)
    ensures c1 == c2 && d1 == d2
  {
    FirstIndexUnique(assets, pair.collateral_asset_name, c1);
    FirstIndexUnique(assets, pair.collateral_asset_name, c2);
    FirstIndexUnique(assets, pair.debt_asset_name, d1);
    FirstIndexUnique(assets, pair.debt_asset_name, d2);
  }

  /**
   * The reference relation leaves no freedom: the compiled record is the
   * only one that satisfies it (so compilation is deterministic in the
   * strongest sense, and the relation is a complete specification).
   */
  lemma PoolParamsDetermined(cfg: ConfigInput, p: CreatePoolParams)
    requires PoolParamsFrom(cfg, p)
    ensures p == CompilePoolParams(cfg)
  {
    var c := CompilePoolParams(cfg);
    var assets, pairs := cfg.asset_parameters, cfg.pair_parameters;
    AssetListsDetermined(assets, p.asset_params, c.asset_params, p.interest_rate_configs, c.interest_rate_configs);
    LtvListDetermined(assets, pairs, p.ltv_params, c.ltv_params);
    LiquidationListDetermined(assets, pairs, p.liquidation_params, c.liquidation_params);
    DebtCapListDetermined(assets, pairs, p.debt_caps_params, c.debt_caps_params);
    ShutdownListDetermined(assets, pairs, p.shutdown_params.ltv_params, c.shutdown_params.ltv_params);
    assert p.pragma_oracle_params == c.pragma_oracle_params;
    assert p.shutdown_params == c.shutdown_params;
  }

  lemma AssetListsDetermined(assets: seq<AssetInput>, ps: seq<AssetParams>, qs: seq<AssetParams>,
                             rs: seq<InterestRateConfig>, ts: seq<InterestRateConfig>)
    requires |ps| == |qs| == |rs| == |ts| == |assets|
    requires forall i :: 0 <= i < |assets| ==> AssetParamsFrom(assets[i], ps[i]) && AssetParamsFrom(assets[i], qs[i])
    requires forall i :: 0 <= i < |assets| ==>
      InterestRateConfigFrom(assets[i], rs[i]) && InterestRateConfigFrom(assets[i], ts[i])
    ensures ps == qs && rs == ts
  {
    forall i | 0 <= i < |assets| ensures ps[i] == qs[i] && rs[i] == ts[i] {
      AssetParamsUnique(assets[i], ps[i], qs[i]);
      InterestRateConfigUnique(assets[i], rs[i], ts[i]);
    }
  }

  lemma LtvListDetermined(assets: seq<AssetInput>, pairs: seq<PairInput>, xs: seq<LTVParams>, ys: seq<LTVParams>)
    requires |xs| == |ys| == |pairs|
    requires forall i :: 0 <= i < |pairs| ==> LtvFrom(assets, pairs[i], xs[i]) && LtvFrom(assets, pairs[i], ys[i])
    ensures xs == ys
  {
    forall i | 0 <= i < |pairs| ensures xs[i] == ys[i] {
      PairIndicesUnique(assets, pairs[i], xs[i].collateral_asset_index, xs[i].debt_asset_index,
        ys[i].collateral_asset_index, ys[i].debt_asset_index);
      FixedPointOfUnique(pairs[i].max_ltv, SCALE, xs[i].max_ltv, ys[i].max_ltv);
    }
  }

  lemma LiquidationListDetermined(assets: seq<AssetInput>, pairs: seq<PairInput>, xs: seq<LiquidationParams>, ys: seq<LiquidationParams>)
    requires |xs| == |ys| == |pairs|
    requires forall i :: 0 <= i < |pairs| ==> LiquidationFrom(assets, pairs[i], xs[i]) && LiquidationFrom(assets, pairs[i], ys[i])
    ensures xs == ys
  {
    forall i | 0 <= i < |pairs| ensures xs[i] == ys[i] {
      PairIndicesUnique(assets, pairs[i], xs[i].collateral_asset_index, xs[i].debt_asset_index,
        ys[i].collateral_asset_index, ys[i].debt_asset_index);
      FixedPointOfUnique(pairs[i].liquidation_discount, SCALE, xs[i].liquidation_factor, ys[i].liquidation_factor);
    }
  }

  lemma DebtCapListDetermined(assets: seq<AssetInput>, pairs: seq<PairInput>, xs: seq<DebtCapParams>, ys: seq<DebtCapParams>)
    requires |xs| == |ys| == |pairs|
    requires forall i :: 0 <= i < |pairs| ==> DebtCapFrom(assets, pairs[i], xs[i]) && DebtCapFrom(assets, pairs[i], ys[i])
    ensures xs == ys
  {
    forall i | 0 <= i < |pairs| ensures xs[i] == ys[i] {
      PairIndicesUnique(assets, pairs[i], xs[i].collateral_asset_index, xs[i].debt_asset_index,
        ys[i].collateral_asset_index, ys[i].debt_asset_index);
      FixedPointOfUnique(pairs[i].debt_cap, SCALE, xs[i].debt_cap, ys[i].debt_cap);
    }
  }

  lemma ShutdownListDetermined(assets: seq<AssetInput>, pairs: seq<PairInput>, xs: seq<LTVParams>, ys: seq<LTVParams>)
    requires |xs| == |ys| == |pairs|
    requires forall i :: 0 <= i < |pairs| ==> ShutdownLtvFrom(assets, pairs[i], xs[i]) && ShutdownLtvFrom(assets, pairs[i], ys[i])
    ensures xs == ys
  {
    forall i | 0 <= i < |pairs| ensures xs[i] == ys[i] {
      PairIndicesUnique(assets, pairs[i], xs[i].collateral_asset_index, xs[i].debt_asset_index,
        ys[i].collateral_asset_index, ys[i].debt_asset_index);
      FixedPointOfUnique(pairs[i].shutdown_ltv, SCALE, xs[i].max_ltv, ys[i].max_ltv);
    }
  }

  /**
   * Every pair list carries the same two indices for a pair, and a
   * non-negative index points at an asset of that name whose compiled
   * entry holds that asset's token address.
   */
  lemma PairIndicesResolve(cfg: ConfigInput, i: int)
    requires 0 <= i < |cfg.pair_parameters|
    ensures var p, pair := CompilePoolParams(cfg), cfg.pair_parameters[i];
      var c, d := p.ltv_params[i].collateral_asset_index, p.ltv_params[i].debt_asset_index;
      && p.liquidation_params[i].collateral_asset_index == c && p.liquidation_params[i].debt_asset_index == d
      && p.debt_caps_params[i].collateral_asset_index == c && p.debt_caps_params[i].debt_asset_index == d
      && p.shutdown_params.ltv_params[i].collateral_asset_index == c
      && p.shutdown_params.ltv_params[i].debt_asset_index == d
      && (c >= 0 ==>
            && c < |p.asset_params| && cfg.asset_parameters[c].asset_name == pair.collateral_asset_name
            && p.asset_params[c].asset == cfg.asset_parameters[c].token.address)
      && (d >= 0 ==>
            && d < |p.asset_params| && cfg.asset_parameters[d].asset_name == pair.debt_asset_name
            && p.asset_params[d].asset == cfg.asset_parameters[d].token.address)
  {
  }

  /** With distinct asset names, a resolved index is the one and only position of that name. */
  lemma DistinctNamesResolveUniquely(assets: seq<AssetInput>, name: string, j: int)
    requires forall a, b :: 0 <= a < b < |assets| ==> assets[a].asset_name != assets[b].asset_name
    requires 0 <= j < |assets|
    ensures assets[j].asset_name == name <==> j == FindAssetIndex(assets, name)
  {
  }

  /** The test environment and the pool's asset list agree entry by entry. */
  lemma EnvMatchesAssetParams(cfg: ConfigInput, i: int)
    requires 0 <= i < |cfg.asset_parameters|
    ensures CompileEnv(cfg)[i].address == CompilePoolParams(cfg).asset_params[i].asset
    ensures CompileEnv(cfg)[i].feeRate == CompilePoolParams(cfg).asset_params[i].fee_rate
    ensures CompileEnv(cfg)[i].pragmaKey == CompilePoolParams(cfg).pragma_oracle_params[i].pragma_key
  {
  }

  /**
   * A worked configuration: ETH with a 2% fee rate and a pair that names
   * USDC, which is not among the assets. The fee rate compiles to
   * 2 * 10^16, and the missing name resolves to -1 without an error.
   */
  lemma UnknownNameCompilesToMinusOne(eth: AssetInput, pool: PoolInput)
    requires eth.asset_name == "ETH" && eth.fee_rate == Decimal(2, 2)
    ensures var cfg := ConfigInput([eth], [PairInput("ETH", "USDC", Decimal(8, 1), Decimal(9, 1), Decimal(0, 0), Decimal(7, 1))], pool);
      var p := CompilePoolParams(cfg);
      && p.asset_params[0].fee_rate == 20_000_000_000_000_000
      && p.ltv_params[0].collateral_asset_index == 0
      && p.ltv_params[0].debt_asset_index == -1
      && p.ltv_params[0].max_ltv == 800_000_000_000_000_000
  {
    var cfg := ConfigInput([eth], [PairInput("ETH", "USDC", Decimal(8, 1), Decimal(9, 1), Decimal(0, 0), Decimal(7, 1))], pool);
    ConstantsAgree();
    assert ToScale(eth.fee_rate) == 20_000_000_000_000_000;
    assert FindAssetIndex(cfg.asset_parameters, "USDC") == -1;
  }
}
