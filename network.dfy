/**
 * What the deployment code sees of the chain: contract handles, the calls
 * it builds, the primitives it inherits from its base deployer, and the
 * transactions it submits and waits for.
 *
 * The base deployer's `deferContract`, `declareCached` and `loadContract`
 * are not part of this model; they are carried as arbitrary function
 * values, so every property proved below holds whatever they return.
 * `execute` and `waitForTransaction` append to a `Ledger` trace, and the
 * events a transaction produces are an input of the ledger.
 */
module Network {
  import opened Wrappers
  import opened Model

  /** A contract handle; only its address is ever read. */
  datatype Contract = Contract(address: string)

  /** Constructor calldata for the contracts the deployer defers. */
  datatype ConstructorArgs =
    | NoArgs
      /** an ERC-20 mock: the entry's `erc20Params()` plus the recipient of the initial supply */
    | MockAssetArgs(params: EnvAssetParams, recipient: string)
    | OracleArgs(owner: string, curator: string, oracle_address: string, summary_address: string)
    | PoolFactoryArgs(owner: string, pool_class_hash: string, v_token_class_hash: string, oracle_class_hash: string)

  /** The entrypoints the core invokes, with their arguments. */
  datatype Entrypoint =
    | SetPrice(pragmaKey: string, price: int)
    | Approve(spender: string, amount: int)
      /** `add_asset(param.asset, {...})`; the first argument reads a field the parameter records lack */
    | AddAsset(asset: Option<string>, params: PragmaOracleParams)
      /**
       * `create_pool(...)`: of its eight positional arguments only the oracle
       * address, `asset_params` and `interest_rate_configs` are fields that
       * exist; the other five read names `CreatePoolParams` does not have.
       */
    | CreatePool(oracle: string, asset_params: seq<AssetParams>, interest_rate_configs: seq<InterestRateConfig>)

  datatype Call = Call(contractAddress: string, entrypoint: Entrypoint)

  /** One parsed receipt event: event key to payload. */
  datatype EventPayload = EventPayload(pool: Option<int>)
  type ParsedEvent = map<string, EventPayload>

  /** The base deployer's primitives. */
  datatype Primitives = Primitives(
    deferContract: (string, ConstructorArgs) -> (Contract, seq<Call>),
    declareCached: string -> string,
    loadContract: Option<string> -> Contract)

  /** One entry of the ledger trace. */
  datatype Step =
    | Submitted(sender: string, calls: seq<Call>)
    | Awaited(tx: nat)

  /** A trace in which every wait refers to an earlier submission. */
  ghost predicate WellFormed(log: seq<Step>)
  {
    forall i :: 0 <= i < |log| && log[i].Awaited? ==> log[i].tx < i && log[log[i].tx].Submitted?
  }

  /**
   * The transactions sent so far. A transaction is identified by the
   * position of its `Submitted` step; `receipts` gives the events the
   * network reports for it.
   */
  class Ledger {
    var log: seq<Step>
    const receipts: nat -> seq<ParsedEvent>

    ghost predicate Valid()
      reads this
    {
      WellFormed(log)
    }

    constructor(receipts: nat -> seq<ParsedEvent>)
      ensures log == [] && this.receipts == receipts
      ensures Valid()
    {
      this.log := [];
      this.receipts := receipts;
    }

    /** `execute(calls)` from `sender`: one multicall transaction. */
    method Execute(sender: string, calls: seq<Call>) returns (tx: nat)
      requires Valid()
      modifies this
      ensures tx == |old(log)|
      ensures log == old(log) + [Submitted(sender, calls)]
      ensures Valid()
    {
      tx := |log|;
      log := log + [Submitted(sender, calls)];
    }

    /** `waitForTransaction(hash)` followed by `parseEvents` on its receipt. */
    method WaitForTransaction(tx: nat) returns (events: seq<ParsedEvent>)
      requires Valid() && tx < |log| && log[tx].Submitted?
      modifies this
      ensures log == old(log) + [Awaited(tx)]
      ensures events == receipts(tx)
      ensures Valid()
    {
      log := log + [Awaited(tx)];
      events := receipts(tx);
    }
  }
}
