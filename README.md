# Vesu v2 deployment core, modelled in Dafny

This project models the deployment library of the Vesu v2 lending protocol on Starknet. It covers three parts.

- **Pool configuration compiler.** A human-authored description of assets and asset pairs becomes the positional, fixed-point records that the pool factory's `create_pool` call takes:
  - pair names become asset indices;
  - ratios are scaled to 10^18 or 10^5 and rounded half away from zero;
  - the aggregation mode becomes a Cairo enum;
  - missing deployment addresses fall back through `||` chains.
- **Encoders and amount records.** These are the sign-and-magnitude `i257` encoder, the `0x` address printer, and the `Amount` and `UnsignedAmount` records with their one-hot Cairo enums.
- **Deployment composition.** The deployer builds ordered call lists for mock assets, mock Pragma oracles, the protocol's oracle and its pool factory. It sends these lists as awaited transactions and writes new addresses back into its configuration. The `Protocol` handle registers oracle assets and creates pools. It also resolves the new pool's address from the receipt's events.

The modules follow the source files:

| module | file | form |
|---|---|---|
| `FixedPoint` | `fixed_point.dfy` | constants and decimal scalers of `lib/config.ts` |
| `Encoding` | `encoding.dfy` | `toI257` and `toAddress` of `lib/config.ts` |
| `Model` | `model.dfy` | the records and amount constructors of `lib/model.ts` |
| `MainnetConfig` | `config_mainnet.dfy` | the compiler of `lib/config.mainnet.ts` |
| `Network` | `network.dfy` | contracts, calls, the base deployer's primitives, and a ledger of submitted and awaited transactions |
| `Protocols` | `protocol.dfy` | `lib/protocol.ts`: pure patching and event lookup, plus the `Protocol` class |
| `DeployerProtocol` | `deployer_protocol.dfy` | `lib/deployer.protocol.ts`: pure `defer*` composition, plus the `Deployer` class |
| `Lists`, `Wrappers` | `lists.dfy`, `wrappers.dfy` | `map`/`flat`, and `Option`/`Result` |

**Modelling choices**

- **Decimals.** Configuration decimals are exact, written `Decimal(mantissa, fractionDigits)`. Rounding is specified by the reference predicate `IsNearestTiesAway`, which is proved to single out exactly one integer.
- **Thrown errors.** An operation whose source throws returns `Failure`, for example a `TypeError` from reading a property of `undefined`.
- **Base deployer primitives.** `deferContract`, `declareCached` and `loadContract` are carried as arbitrary function values in `Network.Primitives`, so every property holds whatever they return. `loadContract` receives `Option<string>`, because the source passes possibly-undefined addresses with a non-null assertion.
- **Transactions.** `execute` and `waitForTransaction` append `Submitted` and `Awaited` steps to `Network.Ledger.log`. A transaction is identified by the position of its `Submitted` step. The events each transaction produces are an input, `Ledger.receipts`.
- **The deployer link.** `Protocol` keeps the owner address, the ledger and the primitives instead of a reference to the deployer. In the source, `lib/protocol.ts` and `lib/deployer.protocol.ts` import each other.

**Behaviour kept as the code has it.**

- **Unknown pair names.** An asset name that a pair mentions but the asset list lacks resolves to index -1, because `findIndex` returns -1. It is not rejected. If a name is duplicated, the first asset with that name wins.
- **Fields read but not declared.** The model keeps these as the code runs them:
  - `createPoolFromParams` passes `params.name`, `curator`, `fee_recipient`, `v_token_params` and `pair_params`, which `CreatePoolParams` does not declare.
  - `addAssetsToOracle` passes `param.asset`, which `PragmaOracleParams` does not declare.
  - `Protocol.from` reads `pools`, but the contract sets it receives carry `pool`, so `Protocol.pools` is always undefined (`None`).
  - `loadProtocol` reads `protocol.pool`, which `ProtocolConfig` does not declare. It is added as an optional field.
- **Oracle wiring in `deployEnvAndProtocol`.** The protocol's oracle is wired to the Pragma addresses in `config.protocol`, not to the mock Pragma oracle deferred in the same batch. The returned protocol, however, carries the mock oracle as its `pragma`. `DeferProtocolReadsOnlyPragma` states the first half, and `Deployer.DeployEnvAndProtocol` states both.

## Model

| member | source | states |
|---|---|---|
| `FixedPoint.ConstantsAgree` | lib/config.ts:6-9 | SCALE = 10^18, PERCENT = 10^16 = SCALE/100, FRACTION = 10^13, the utilization factor is 10^5, and a 360-day year is 31104000 seconds |
| `FixedPoint.RoundCharacterised` | lib/config.ts:55-57 | the integer division used for rounding returns exactly the integer that lies within one half of num/den, with ties going away from zero |
| `FixedPoint.RoundUnique` | lib/config.ts:55-57 | at most one integer meets the nearest, ties-away-from-zero condition |
| `FixedPoint.RoundExact` | lib/config.ts:55-57 | rounding an exact quotient returns it unchanged |
| `FixedPoint.RoundOdd` | lib/config.ts:55-57 | rounding commutes with negation |
| `FixedPoint.RoundMonotone` | lib/config.ts:55-57 | rounding is monotone in the numerator |
| `FixedPoint.RoundScaleInvariant` | lib/config.ts:55-57 | rounding num·c / den·c gives the same result as rounding num/den |
| `FixedPoint.ScaleDecimal` | lib/config.ts:51-57 | the result is d·factor rounded to the nearest integer, with ties away from zero |
| `FixedPoint.ScaleDecimalExact` | lib/config.ts:51-57 | with at most e fractional digits, scaling by 10^e is exact: m·10^(e−k) |
| `FixedPoint.ScaleDecimalOdd` | lib/config.ts:51-57 | scaling −d gives −(scaling d) |
| `FixedPoint.ScaleDecimalZero` | lib/config.ts:51-57 | zero scales to zero at any precision |
| `FixedPoint.ScaleDecimalMonotone` | lib/config.ts:51-57 | a ≤ b implies scale(a) ≤ scale(b) |
| `FixedPoint.ScaleDecimalRespectsValue` | lib/config.ts:51-57 | two spellings of the same rational (0.5 and 0.50) scale alike |
| `FixedPoint.ToScale` | lib/config.ts:55-57 | `toScale(d)` is d·10^18 rounded half away from zero, and is exact, m·10^(18−k), for at most 18 fractional digits |
| `FixedPoint.ToUtilizationScale` | lib/config.ts:51-53 | `toUtilizationScale(d)` is d·10^5 rounded half away from zero, and is exact for at most 5 fractional digits |
| `FixedPoint.ScalersOddZeroMonotone` | lib/config.ts:51-57 | both scalers are odd, map 0 to 0 and are monotone non-decreasing |
| `FixedPoint.ScalerExamples` | lib/config.ts:51-57 | 0.75 ↦ 75·10^16, 0.02 ↦ 2·10^16, 0.8 ↦ 80000, ±0.000005 ↦ ±1 (a tie goes away from zero), 0.0000015 ↦ 0 |
| `Encoding.ToI257` | lib/config.ts:28-34 | abs ≥ 0, the signed reading equals x, and `is_negative` holds iff x < 0 |
| `Encoding.I257RoundTrip` | lib/config.ts:28-34 | every encoding is canonical (zero is never negative), abs = \|x\|, and every canonical encoding is the encoding of its own value |
| `Encoding.HexDigits` | lib/config.ts:59-61 | `toString(16)` is lower-case hex digits, at least one, with no leading zero except for 0 itself |
| `Encoding.ParseHexDigitsOfHexDigits` | lib/config.ts:59-61 | reading the printed digits gives the number back |
| `Encoding.HexDigitsOfParseHexDigits` | lib/config.ts:59-61 | a digit string without a leading zero is what `toString(16)` prints for its value |
| `Encoding.ToAddress` | lib/config.ts:59-61 | the result starts with `0x` and, for v ≥ 0, continues with the base-16 digits of v, without a leading zero unless v = 0 |
| `Encoding.AddressRoundTrip` | lib/config.ts:59-61 | parsing `toAddress(v)` yields v, for negative v as well (`0x-…`) |
| `Encoding.AddressCanonical` | lib/config.ts:59-61 | every `0x` string of lower-case digits without a leading zero is `toAddress` of its value |
| `Encoding.AddressExamples` | lib/config.ts:59-61 | 0 ↦ `0x0`, 255 ↦ `0xff`, 4096 ↦ `0x1000` |
| `Model.Activate` | lib/model.ts:149-153 | setting one key of an all-undefined variant record keeps the keys and leaves exactly that variant active |
| `Model.NewAmount` | lib/model.ts:136-160 | `Amount(args?)`: exactly one active `amount_type` variant and one `denomination` variant, the ones the arguments name (Delta and Native without arguments); the value is a canonical i257 whose signed reading is the argument's value (0 without arguments) |
| `Model.NewUnsignedAmount` | lib/model.ts:162-186 | `UnsignedAmount(args?)`: the same one-hot enums, and the value is passed through unchanged (0 without arguments) |
| `Model.DefaultEnumsAreActivated` | lib/model.ts:141-153 | the literal no-argument enums equal the ones the argument path builds for Delta and Native |
| `Model.AmountDefaults` | lib/model.ts:141-147 | calling without arguments equals calling with (Delta, Native, 0), and the value is `{abs: 0, is_negative: false}` |
| `Model.SignedAndUnsignedAgree` | lib/model.ts:136-186 | both constructors build the same enums, and the signed value is `toI257` of the unsigned one |
| `MainnetConfig.FindAssetIndex` | lib/config.mainnet.ts:53-58 | `findIndex` is −1 iff no asset has the name; otherwise it is a position holding the name, with no earlier position holding it |
| `MainnetConfig.FirstIndexUnique` | lib/config.mainnet.ts:53-58 | the first-match-or-−1 condition determines the index |
| `MainnetConfig.DistinctNamesResolveUniquely` | lib/config.mainnet.ts:53-58 | with distinct asset names, a position resolves a name iff it holds that name |
| `MainnetConfig.AggregationMode` | lib/config.mainnet.ts:77-80 | the keys are Median, Mean and Error; Median is active iff the string is exactly "median" or "Median", otherwise Mean is; Error never is |
| `MainnetConfig.FixedPointOfUnique` | lib/config.mainnet.ts:45-50 | a field's scaled value is determined by its decimal |
| `MainnetConfig.CompileEnvAsset` | lib/config.mainnet.ts:7-20 | an env entry: name, symbol, decimals, pragma key, legacy flag and address copied; supply and price 0; fee rate scaled by 10^18 |
| `MainnetConfig.CompileAssetParams` | lib/config.mainnet.ts:43-51 | floor, initial full-utilization rate, max utilization and fee rate go through `toScale`; the accumulator is SCALE; address and legacy flag come from the token |
| `MainnetConfig.CompileInterestRateConfig` | lib/config.mainnet.ts:61-70 | the three target utilizations go through `toUtilizationScale`, the four rates through `toScale`, and the half-life passes unscaled |
| `MainnetConfig.CompileOracleParams` | lib/config.mainnet.ts:71-81 | pragma key, timeout, source count, start offset and time window pass unscaled, with the enum for the aggregation mode |
| `MainnetConfig.CompileLtv` | lib/config.mainnet.ts:52-60 | both indices are the first match (or −1), and `max_ltv` is `toScale(max_ltv)` |
| `MainnetConfig.CompileLiquidation` | lib/config.mainnet.ts:82-90 | both indices are the first match (or −1), and `liquidation_factor` is `toScale(liquidation_discount)` |
| `MainnetConfig.CompileDebtCap` | lib/config.mainnet.ts:91-99 | both indices are the first match (or −1), and `debt_cap` is `toScale(debt_cap)` |
| `MainnetConfig.CompileShutdownLtv` | lib/config.mainnet.ts:103-111 | both indices are the first match (or −1), and the shutdown `max_ltv` is `toScale(shutdown_ltv)` |
| `MainnetConfig.CompileEnv` | lib/config.mainnet.ts:7-20 | one env entry per asset, in asset order |
| `MainnetConfig.CompilePoolParams` | lib/config.mainnet.ts:41-115 | one entry per asset in the three asset lists and one per pair in the four pair lists, in order, each related to its source as above; the periods, fee recipient and owner are copied |
| `MainnetConfig.ResolveProtocol` | lib/config.mainnet.ts:24-34 | `singleton`, `extensionPO` and `ekubo.core` default to "0x0"; each pragma address takes the deployment's non-empty value, else the first asset's, else "0x0"; the result fails exactly when a fallback needs the first asset of an empty list; no address is ever empty |
| `MainnetConfig.CompileConfig` | lib/config.mainnet.ts:22-118 | the named `mainnet` config: the resolved protocol, the env list, and a single `genesis-pool` with the fixed id and the compiled parameters |
| `MainnetConfig.AssetParamsUnique` | lib/config.mainnet.ts:43-51 | the asset-entry relation admits one record per asset |
| `MainnetConfig.InterestRateConfigUnique` | lib/config.mainnet.ts:61-70 | the interest-rate relation admits one record per asset |
| `MainnetConfig.PairIndicesUnique` | lib/config.mainnet.ts:52-60 | a pair's two indices are determined |
| `MainnetConfig.PoolParamsDetermined` | lib/config.mainnet.ts:41-115 | any record meeting the entry-by-entry specification is the compiled one |
| `MainnetConfig.PairIndicesResolve` | lib/config.mainnet.ts:52-111 | the four pair lists carry the same indices for a pair, and each non-negative index points to an asset of that name whose entry holds its token address |
| `MainnetConfig.EnvMatchesAssetParams` | lib/config.mainnet.ts:7-51 | the env entry and the pool entry of an asset agree on address, fee rate and pragma key |
| `MainnetConfig.UnknownNameCompilesToMinusOne` | lib/config.mainnet.ts:52-60 | for assets [ETH] and pair ETH/USDC, the debt index is −1 with no error, and fee rate 0.02 becomes 2·10^16 |
| `Network.Ledger.Execute` | lib/deployer.protocol.ts:44 | `execute` appends one submission of the whole batch and returns its position |
| `Network.Ledger.WaitForTransaction` | lib/deployer.protocol.ts:45 | `waitForTransaction` appends the wait and returns that transaction's events |
| `Protocols.FindCreatePoolEvent` | lib/protocol.ts:61-63 | `events.find`: none iff no event has the `CreatePool` key, otherwise the first position that has it |
| `Protocols.ResolvePoolAddress` | lib/protocol.ts:61-64 | succeeds iff the first `CreatePool` event carries a pool, and then yields `toAddress` of that pool; there is no fallback to later events |
| `Protocols.PoolAddressReadsBack` | lib/protocol.ts:64 | the resolved address parses back to the pool id in the event |
| `Protocols.LaterEventsIgnored` | lib/protocol.ts:63 | events after the first `CreatePool` event never change the result |
| `Protocols.PatchPoolParamsWithEnv` | lib/protocol.ts:68-75 | succeeds iff there are at least as many deployed assets as entries; entry i takes deployed asset i's address with its other fields kept; the owner is replaced; nothing else changes |
| `Protocols.PatchIdempotent` | lib/protocol.ts:68-75 | patching a patched record changes nothing |
| `Protocols.PatchedAssetsAreDeployedAssets` | lib/protocol.ts:69-72 | after patching, the asset addresses are the deployed assets' addresses in order, and restoring an address restores the original entry |
| `Protocols.Protocol.From` | lib/protocol.ts:14-17 | copies pool factory, oracle, pragma and assets unchanged; `pools` is undefined |
| `Protocols.Protocol.AddAssetsToOracle` | lib/protocol.ts:30-44 | one owner-signed `add_asset` per parameter, in order, each awaited before the next; earlier history is kept |
| `Protocols.Protocol.CreatePoolFromParams` | lib/protocol.ts:46-66 | one owner-signed `create_pool` on the factory with the oracle's address, then awaited; succeeds iff the receipt yields a pool address, and returns the contract loaded there together with the transaction |
| `Protocols.Protocol.CreatePool` | lib/protocol.ts:19-28 | parameters pass unchanged when `devnetEnv` is false and are patched when it is true; a failed patch sends nothing; otherwise one owner-signed `create_pool` with the submitted parameters is sent and awaited, and the call succeeds iff the receipt yields a pool address, returning the contract loaded there together with the transaction |
| `DeployerProtocol.DeferMockAssetsAsWritten` | lib/deployer.protocol.ts:114-128 | the code as written succeeds only with two or more env entries, and then agrees with the corrected composition |
| `DeployerProtocol.CorrectedAgrees` | lib/deployer.protocol.ts:114-128 | "first entry, then the rest unzipped" equals one mapping over all entries |
| `DeployerProtocol.DeferMockAssets` | lib/deployer.protocol.ts:114-128 | succeeds iff env is defined and non-empty; one asset per entry, in order, each minted to the recipient; the calls are the first entry's followed by the rest's, flattened in order |
| `DeployerProtocol.SingleEntryEnvironmentThrows` | lib/deployer.protocol.ts:105-125 | a one-entry env throws as written, and so does `deferEnv`, but the corrected deferral deploys that single asset |
| `DeployerProtocol.MockAssetCallsCount` | lib/deployer.protocol.ts:114-128 | the call list has exactly as many calls as all entries' deployments together |
| `DeployerProtocol.DeferPragmaOracle` | lib/deployer.protocol.ts:130-137 | fails iff env is undefined; the mock oracle's calls come first, then the summary's, then one `set_price(pragmaKey, price)` per env entry, in order |
| `DeployerProtocol.DeferEnv` | lib/deployer.protocol.ts:105-112 | built on the mock-asset deferral as written: succeeds iff env is defined and has at least two entries; asset calls come before pragma-oracle calls; the mock oracle and summary form the env's pragma pair |
| `DeployerProtocol.DeferProtocol` | lib/deployer.protocol.ts:81-96 | pool factory calls come before oracle calls; the factory gets the owner plus the cached Pool, VToken and Oracle class hashes; the oracle (`deferOracle`) gets the owner as owner and curator, plus the configured Pragma oracle and summary addresses |
| `DeployerProtocol.DeferProtocolReadsOnlyPragma` | lib/deployer.protocol.ts:81-85 | of the configuration, only the Pragma addresses affect what `deferProtocol` builds |
| `DeployerProtocol.ApprovalCalls` | lib/deployer.protocol.ts:150-158 | exactly one `approve(spender, 2000)` per asset, on that asset, in asset order |
| `DeployerProtocol.AssetAddressesAppend` | lib/deployer.protocol.ts:54-56 | the loaded address list is the pools' asset lists laid end to end, in pool order |
| `DeployerProtocol.AssetAddressesOfOnePool` | lib/deployer.protocol.ts:54-56 | one pool contributes exactly its own asset addresses, in order, with none dropped or merged |
| `DeployerProtocol.LoadProtocolContracts` | lib/deployer.protocol.ts:52-70 | every configured address is loaded into its slot, and the assets are loaded from the flattened pool address list, one per address, in order |
| `DeployerProtocol.WriteBack` | lib/deployer.protocol.ts:76-77 | the pool factory and oracle addresses are recorded and every other configuration field is kept |
| `DeployerProtocol.RedeployDefersSameContracts` | lib/deployer.protocol.ts:72-96 | the write-back leaves every input of `deferProtocol` unchanged, so a later deferral is built from the same arguments |
| `DeployerProtocol.Deployer.constructor` | lib/deployer.protocol.ts:25-34 | the accounts, configuration, ledger and primitives are stored as given |
| `DeployerProtocol.Deployer.SetApprovals` | lib/deployer.protocol.ts:150-159 | one owner batch of all approvals, then awaited |
| `DeployerProtocol.Deployer.LoadProtocol` | lib/deployer.protocol.ts:52-70 | sends nothing; the protocol holds the loaded contracts, with `pools` undefined |
| `DeployerProtocol.Deployer.DeployEnv` | lib/deployer.protocol.ts:98-103 | one awaited batch of the env calls; a failing deferral sends nothing, so an undefined env or one with fewer than two entries throws before `execute` |
| `DeployerProtocol.Deployer.DeployProtocol` | lib/deployer.protocol.ts:72-79 | one awaited batch of the protocol calls; the config then records the new pool factory and oracle, with nothing else changed; the returned protocol is loaded from the updated config and bound to this deployer's owner, ledger and primitives |
| `DeployerProtocol.Deployer.SendEnvAndProtocol` | lib/deployer.protocol.ts:44-49 | the env calls followed by the protocol calls go out as one awaited batch, then the owner's approvals of the new pool factory for every env asset; the protocol is built from the new contracts and bound to this deployer's owner, ledger and primitives |
| `DeployerProtocol.Deployer.DeployEnvAndProtocol` | lib/deployer.protocol.ts:36-50 | fails without sending anything when env is undefined or has fewer than two entries; otherwise it sends one batch of env calls followed by protocol calls, awaits it, then sends and awaits the owner's approvals of the new pool factory for every env asset; the protocol holds the new factory and oracle and the env's assets and mock Pragma pair, and is bound to this deployer's owner, ledger and primitives |

## Left out

- **Logging and printing.** This covers `logAddresses`, the `console` output, `printParams`, and the `balanceOf` query that `setApprovals` only prints. They produce no value the code uses.
- **`toU256`.** It only wraps the library's `uint256.bnToUint256`.
- **`BaseDeployer`.** The internals of its `deferContract`, `declareCached`, `execute`, `waitForTransaction` and `loadContract` are not modelled. The first, second and last are arbitrary functions; `execute` and `waitForTransaction` only append to the ledger trace. Nothing is claimed about the declaration cache.
- **Failed transactions.** A transaction the network rejects is not modelled: `execute` and `waitForTransaction` always succeed.
- **`parseEvents` and `CallData.compile`.** These are library code. Events are given already parsed, and constructor calldata is kept as a record of its named fields.
- **The `EnvAssetParams` class and its `erc20Params()`.** These are not part of this model. An env entry is its constructor arguments, and a mock asset's calldata is the entry plus the recipient.
- **`EnvAssetParams` field names.** The names of the constructor's positional arguments are assumed, since the class is not part of this model. In particular the two `0n` arguments at lib/config.mainnet.ts:13 and :15 are taken to be `initialSupply` and `price`, and `DeferPragmaOracle` reads the sixth argument as the `price` that `set_price` receives.
- **The `Config` interface.** It is not part of this model. `DeployerProtocol.DeployConfig` holds the three fields the deployer reads: `env`, `protocol` and `pools`.
- **JSON loading and float conversion.** The JSON configuration and deployment files become typed inputs. Decimals are exact, so the JavaScript `number` to BigNumber conversion is not modelled.
- **Key order of `Object.values(pools)`.** The pools are a list, and their order is taken as the enumeration order. JavaScript lists integer-like keys first, so for such pool names the two orders can differ; the mainnet pool name `genesis-pool` is not integer-like.
- **Repeated deferrals.** `deferContract` is a function of its arguments, so two deferrals with the same arguments give the same contract; a base deployer that salts its deployments is not modelled.
- **`Promise.all` concurrency.** It is modelled in sequence. The resulting order is the same.
- **`create_pool` arguments.** Five of the eight arguments read fields the parameter record lacks, so the model's call carries only the oracle address, `asset_params` and `interest_rate_configs`.
- **`deployer.protocol.ts` `provider`.** It is not modelled, and neither is `setup.ts`. The latter imports a `protocolConfig` binding that `lib/config.mainnet.ts` does not export, since it exports `config`.
- **`pragma_key`.** The source types it as `BigNumberish`. The model uses a string.
- **`Protocols.Protocol.CreatePoolFromParams`.** It returns the transaction's position instead of the whole response object.

## Findings

| source | as written | input that shows it | evidently intended | confidence | as-written member | corrected member |
|---|---|---|---|---|---|---|
| lib/deployer.protocol.ts:123-126 | `unzip` of the deferred remaining entries, then spreading its first element | an env with exactly one entry: `unzip([])` is `[]`, so `otherAssets` is undefined and `[asset0, ...otherAssets]` throws a `TypeError` | one mock asset per env entry for any non-empty env, the single-entry case included | high (not executed) | `DeployerProtocol.SingleEntryEnvironmentThrows` | `DeployerProtocol.DeferMockAssets` |

The deployer operations keep the code's behaviour: `DeferEnv`, `Deployer.DeployEnv` and `Deployer.DeployEnvAndProtocol` are built on `DeferMockAssetsAsWritten`, so they throw for a one-entry environment. `DeferMockAssetsAsWritten` is proved equal to the corrected `DeferMockAssets` wherever it succeeds, which is two or more entries.
