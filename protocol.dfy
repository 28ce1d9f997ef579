/**
 * The `Protocol` handle of lib/protocol.ts: the deployed contracts of one
 * protocol instance, and the operations that register oracle assets and
 * create pools through them.
 *
 * The source's handle keeps a reference to the whole deployer (the two
 * files import each other); of the deployer it uses only the owner
 * account, `waitForTransaction` and `loadContract`, so the model keeps
 * exactly those three.
 */
module Protocols {
  import opened Wrappers
  import opened Encoding
  import opened Model
  import opened Network

  datatype PragmaContracts = PragmaContracts(oracle: Contract, summary_stats: Contract)

  /** The contract set a protocol is built from; note the singular `pool`. */
  datatype ProtocolContracts = ProtocolContracts(
    poolFactory: Contract,
    pool: Option<Contract>,
    oracle: Contract,
    pragma: PragmaContracts,
    assets: seq<Contract>)

  const CREATE_POOL_EVENT: string := "vesu::pool_factory::PoolFactory::CreatePool"

  /** `events.find(e => e[CREATE_POOL_EVENT] != undefined)`, as a position. */
  function FindCreatePoolEvent(events: seq<ParsedEvent>): (r: Option<nat>)
    ensures r.None? <==> forall i :: 0 <= i < |events| ==> CREATE_POOL_EVENT !in events[i]
    ensures r.Some? ==> r.value < |events| && CREATE_POOL_EVENT in events[r.value]
    ensures r.Some? ==> forall i :: 0 <= i < r.value ==> CREATE_POOL_EVENT !in events[i]
  {
    if |events| == 0 then None
    else if CREATE_POOL_EVENT in events[0] then Some(0)
    else
      match FindCreatePoolEvent(events[1..])
      case None => None
      case Some(k) => Some(k + 1)
  }

  /**
   * The new pool's address: `toAddress` of the `pool` field of the first
   * `CreatePool` event. Without such an event, or without the field,
   * `toAddress` receives `undefined` and throws.
   */
  function ResolvePoolAddress(events: seq<ParsedEvent>): (r: Result<string>)
    ensures r.Success? <==> exists i :: IsFirstCreatePool(events, i) && events[i][CREATE_POOL_EVENT].pool.Some?
    ensures forall i :: IsFirstCreatePool(events, i) && events[i][CREATE_POOL_EVENT].pool.Some? ==>
      r == Success(ToAddress(events[i][CREATE_POOL_EVENT].pool.value))
  {
    match FindCreatePoolEvent(events)
    case None => Failure("TypeError: cannot convert undefined to an address")
    case Some(i) =>
      assert IsFirstCreatePool(events, i);
      match events[i][CREATE_POOL_EVENT].pool
      case None => Failure("TypeError: cannot convert undefined to an address")
      case Some(v) => Success(ToAddress(v))
  }

  /** `i` is the position of the first event carrying the `CreatePool` key. */
  ghost predicate IsFirstCreatePool(events: seq<ParsedEvent>, i: int)
  {
    && 0 <= i < |events|
    && CREATE_POOL_EVENT in events[i]
    && forall j :: 0 <= j < i ==> CREATE_POOL_EVENT !in events[j]
  }

  /** The resolved address reads back as the pool id the event carried. */
  lemma PoolAddressReadsBack(events: seq<ParsedEvent>, i: nat)
    requires IsFirstCreatePool(events, i) && events[i][CREATE_POOL_EVENT].pool.Some?
    ensures ResolvePoolAddress(events).Success?
    ensures ParseAddress(ResolvePoolAddress(events).value) == Some(events[i][CREATE_POOL_EVENT].pool.value)
  {
    AddressRoundTrip(events[i][CREATE_POOL_EVENT].pool.value);
  }

  /** Events after the first `CreatePool` event never change the resolved address. */
  lemma LaterEventsIgnored(events: seq<ParsedEvent>, more: seq<ParsedEvent>)
    requires FindCreatePoolEvent(events).Some?
    ensures ResolvePoolAddress(events + more) == ResolvePoolAddress(events)
  {
    var i := FindCreatePoolEvent(events).value;
    assert IsFirstCreatePool(events + more, i) by {
      assert (events + more)[i] == events[i];
      forall j | 0 <= j < i ensures CREATE_POOL_EVENT !in (events + more)[j] {
        assert (events + more)[j] == events[j];
      }
    }
    assert IsFirstCreatePool(events, i);
  }

  /**
   * `patchPoolParamsWithEnv`: the i-th asset entry takes the address of the
   * i-th deployed asset, and the owner becomes the deployer's owner. With
   * fewer deployed assets than entries, `this.assets[index]` is undefined
   * and reading its address throws.
   */
  function PatchPoolParamsWithEnv(assets: seq<Contract>, owner: string, p: CreatePoolParams): (r: Result<CreatePoolParams>)
    ensures r.Success? <==> |p.asset_params| <= |assets|
    ensures r.Success? ==>
      && |r.value.asset_params| == |p.asset_params|
      && (forall i :: 0 <= i < |p.asset_params| ==> r.value.asset_params[i] == p.asset_params[i].(asset := assets[i].address))
      && r.value == p.(asset_params := r.value.asset_params, owner := owner)
  {
    if |p.asset_params| > |assets| then
      Failure("TypeError: cannot read properties of undefined (reading 'address')")
    else
      var patched := seq(|p.asset_params|, i requires 0 <= i < |p.asset_params| => p.asset_params[i].(asset := assets[i].address));
      Success(p.(asset_params := patched, owner := owner))
  }

  /** Patching a patched record changes nothing. */
  lemma PatchIdempotent(assets: seq<Contract>, owner: string, p: CreatePoolParams)
    requires PatchPoolParamsWithEnv(assets, owner, p).Success?
    ensures var q := PatchPoolParamsWithEnv(assets, owner, p).value;
      PatchPoolParamsWithEnv(assets, owner, q) == Success(q)
  {
    var q := PatchPoolParamsWithEnv(assets, owner, p).value;
    var s := PatchPoolParamsWithEnv(assets, owner, q).value;
    assert s.asset_params == q.asset_params;
  }

  /**
   * After patching, the pool's asset list is the prefix of the deployed
   * assets' addresses, and every other field of every entry is kept.
   */
  lemma PatchedAssetsAreDeployedAssets(assets: seq<Contract>, owner: string, p: CreatePoolParams)
    requires PatchPoolParamsWithEnv(assets, owner, p).Success?
    ensures var q := PatchPoolParamsWithEnv(assets, owner, p).value;
      && (forall i :: 0 <= i < |q.asset_params| ==> q.asset_params[i].asset == assets[i].address)
      && (forall i :: 0 <= i < |q.asset_params| ==>
            q.asset_params[i].(asset := p.asset_params[i].asset) == p.asset_params[i])
  {
  }

  /** The parameters `createPool` submits: patched only on a development network. */
  function SubmittedParams(assets: seq<Contract>, owner: string, params: CreatePoolParams, devnetEnv: bool): Result<CreatePoolParams>
  {
    if devnetEnv then PatchPoolParamsWithEnv(assets, owner, params) else Success(params)
  }

  /** The single `create_pool` call on the pool factory. */
  function CreatePoolCall(poolFactory: Contract, oracle: Contract, params: CreatePoolParams): Call
  {
    Call(poolFactory.address, CreatePool(oracle.address, params.asset_params, params.interest_rate_configs))
  }

  /** The single `add_asset` call on the oracle for one parameter record. */
  function AddAssetCall(oracle: Contract, param: PragmaOracleParams): Call
  {
    Call(oracle.address, AddAsset(None, param))
  }

  class Protocol {
    const poolFactory: Contract
    /** Always `None`: the contract set carries `pool`, not `pools`. */
    const pools: Option<seq<Contract>>
    const oracle: Contract
    const pragma: PragmaContracts
    const assets: seq<Contract>
    /** The deployer's owner account, which signs every protocol transaction. */
    const owner: string
    const ledger: Ledger
    const prims: Primitives

    /** `Protocol.from(contracts, deployer)` */
    constructor From(contracts: ProtocolContracts, owner: string, ledger: Ledger, prims: Primitives)
      ensures poolFactory == contracts.poolFactory && pools == None && oracle == contracts.oracle
      ensures pragma == contracts.pragma && assets == contracts.assets
      ensures this.owner == owner && this.ledger == ledger && this.prims == prims
    {
      this.poolFactory := contracts.poolFactory;
      this.pools := None;
      this.oracle := contracts.oracle;
      this.pragma := contracts.pragma;
      this.assets := contracts.assets;
      this.owner := owner;
      this.ledger := ledger;
      this.prims := prims;
    }

    /** One `add_asset` transaction per parameter, in order, each awaited before the next is sent. */
    method AddAssetsToOracle(params: seq<PragmaOracleParams>)
      requires ledger.Valid()
      modifies ledger
      ensures ledger.Valid()
      ensures |ledger.log| == |old(ledger.log)| + 2 * |params|
      ensures ledger.log[..|old(ledger.log)|] == old(ledger.log)
      ensures forall i :: 0 <= i < |params| ==>
        && ledger.log[|old(ledger.log)| + 2 * i] == Submitted(owner, [AddAssetCall(oracle, params[i])])
        && ledger.log[|old(ledger.log)| + 2 * i + 1] == Awaited(|old(ledger.log)| + 2 * i)
    {
      var base := |ledger.log|;
      var k := 0;
      while k < |params|
        invariant 0 <= k <= |params|
        invariant ledger.Valid()
        invariant |ledger.log| == base + 2 * k
        invariant ledger.log[..base] == old(ledger.log)
        invariant forall i :: 0 <= i < k ==>
          && ledger.log[base + 2 * i] == Submitted(owner, [AddAssetCall(oracle, params[i])])
          && ledger.log[base + 2 * i + 1] == Awaited(base + 2 * i)
      {
        var tx := ledger.Execute(owner, [AddAssetCall(oracle, params[k])]);
        var _ := ledger.WaitForTransaction(tx);
        k := k + 1;
      }
    }

    /**
     * `createPoolFromParams`: one `create_pool` transaction from the owner,
     * awaited; the pool is loaded at the address the receipt reports.
     */
    method CreatePoolFromParams(params: CreatePoolParams) returns (r: Result<(Contract, nat)>)
      requires ledger.Valid()
      modifies ledger
      ensures ledger.Valid()
      ensures ledger.log == old(ledger.log) + [Submitted(owner, [CreatePoolCall(poolFactory, oracle, params)]), Awaited(|old(ledger.log)|)]
      ensures var address := ResolvePoolAddress(ledger.receipts(|old(ledger.log)|));
        && (r.Success? <==> address.Success?)
        && (r.Success? ==> r.value == (prims.loadContract(Some(address.value)), |old(ledger.log)|))
    {
      var tx := ledger.Execute(owner, [CreatePoolCall(poolFactory, oracle, params)]);
      var events := ledger.WaitForTransaction(tx);
      var address := ResolvePoolAddress(events);
      if address.Failure? {
        return Failure(address.error);
      }
      r := Success((prims.loadContract(Some(address.value)), tx));
    }

    /**
     * `createPool(params, { devnetEnv })`: on a development network the
     * parameters are patched first, and a failed patch sends nothing.
     */
    method CreatePool(params: CreatePoolParams, devnetEnv: bool) returns (r: Result<(Contract, nat)>)
      requires ledger.Valid()
      modifies ledger
      ensures ledger.Valid()
      ensures var submitted := SubmittedParams(assets, owner, params, devnetEnv);
        && (submitted.Failure? ==> r.Failure? && ledger.log == old(ledger.log))
        && (submitted.Success? ==>
              ledger.log == old(ledger.log) + [Submitted(owner, [CreatePoolCall(poolFactory, oracle, submitted.value)]), Awaited(|old(ledger.log)|)])
      ensures var address := ResolvePoolAddress(ledger.receipts(|old(ledger.log)|));
        SubmittedParams(assets, owner, params, devnetEnv).Success? ==>
          && (r.Success? <==> address.Success?)
          && (r.Success? ==> r.value == (prims.loadContract(Some(address.value)), |old(ledger.log)|))
    {
      var submitted := SubmittedParams(assets, owner, params, devnetEnv);
      if submitted.Failure? {
        return Failure(submitted.error);
      }
      r := CreatePoolFromParams(submitted.value);
    }
  }
}
