/**
 * The protocol deployer of lib/deployer.protocol.ts.
 *
 * The `defer*` operations build, without sending anything, the contract
 * handles and the ordered call list that would deploy them; they are
 * functions of the deployer's configuration and of the base deployer's
 * primitives. The `deploy*` operations send those lists as transactions
 * and, for `deployProtocol`, write the new addresses back into the
 * configuration.
 */
module DeployerProtocol {
  import opened Wrappers
  import opened Model
  import opened Lists
  import opened Network
  import opened Protocols
  import MainnetConfig

  /** The pragma addresses of a protocol configuration. */
  datatype PragmaConfig = PragmaConfig(oracle: Option<string>, summary_stats: Option<string>)

  /**
   * The `protocol` section of a deployer configuration. `pool` is not part
   * of the declared interface but is read when loading a protocol.
   */
  datatype ProtocolConfig = ProtocolConfig(
    poolFactory: Option<string>,
    pool: Option<string>,
    pools: Option<seq<string>>,
    oracle: Option<string>,
    pragma: PragmaConfig,
    assets: Option<seq<string>>)

  /** The deployer configuration: an optional test environment, the protocol addresses and the named pools. */
  datatype DeployConfig = DeployConfig(
    env: Option<seq<EnvAssetParams>>,
    protocol: ProtocolConfig,
    pools: seq<(string, MainnetConfig.PoolEntry)>)

  datatype EnvContracts = EnvContracts(assets: seq<Contract>, pragma: PragmaContracts)

  /** The two contracts `deferProtocol` introduces. */
  datatype ProtocolDeferral = ProtocolDeferral(poolFactory: Contract, oracle: Contract)

  /** The handle and calls that deploy one mock ERC-20 for an environment entry. */
  function DeferMockAsset(prims: Primitives, recipient: string, params: EnvAssetParams): (Contract, seq<Call>)
  {
    prims.deferContract("MockAsset", MockAssetArgs(params, recipient))
  }

  /**
   * `deferMockAssets` as written. The first entry is deferred on its own
   * and the rest are unzipped; for a one-entry environment the rest is
   * empty, `unzip([])` is `[]`, and spreading its undefined first element
   * throws. An undefined or empty environment throws before that.
   */
  function DeferMockAssetsAsWritten(prims: Primitives, env: Option<seq<EnvAssetParams>>, recipient: string): (r: Result<(seq<Contract>, seq<Call>)>)
    ensures r.Success? <==> env.Some? && |env.value| >= 2
    ensures r.Success? ==> r == DeferMockAssets(prims, env, recipient)
  {
    if env.None? then Failure("TypeError: undefined is not iterable")
    else if |env.value| == 0 then Failure("TypeError: cannot read properties of undefined (reading 'erc20Params')")
    else
      var first := DeferMockAsset(prims, recipient, env.value[0]);
      var results := Map(p => DeferMockAsset(prims, recipient, p), env.value[1..]);
      if |results| == 0 then Failure("TypeError: otherAssets is not iterable")
      else
        var assets := [first.0] + Map((x: (Contract, seq<Call>)) => x.0, results);
        var calls := first.1 + Flatten(Map((x: (Contract, seq<Call>)) => x.1, results));
        CorrectedAgrees(prims, env.value, recipient);
        Success((assets, calls))
  }

  /** For two or more entries, the as-written composition equals the corrected one. */
  lemma CorrectedAgrees(prims: Primitives, env: seq<EnvAssetParams>, recipient: string)
    requires |env| >= 1
    ensures var first := DeferMockAsset(prims, recipient, env[0]);
      var results := Map(p => DeferMockAsset(prims, recipient, p), env[1..]);
      DeferMockAssets(prims, Some(env), recipient) ==
        Success(([first.0] + Map((x: (Contract, seq<Call>)) => x.0, results),
                 first.1 + Flatten(Map((x: (Contract, seq<Call>)) => x.1, results))))
  {
    var first := DeferMockAsset(prims, recipient, env[0]);
    var results := Map(p => DeferMockAsset(prims, recipient, p), env[1..]);
    var r := DeferMockAssets(prims, Some(env), recipient).value;
    assert r.0 == [first.0] + Map((x: (Contract, seq<Call>)) => x.0, results);
    assert r.1 == first.1 + Flatten(Map((x: (Contract, seq<Call>)) => x.1, results)) by {
      assert Map(p => DeferMockAsset(prims, recipient, p).1, env[1..])
        == Map((x: (Contract, seq<Call>)) => x.1, results);
    }
  }

  /**
   * `deferMockAssets` as intended: one asset per environment entry, in
   * order, each minted to `recipient`; the calls are the first entry's
   * followed by the rest's, in order.
   */
  function DeferMockAssets(prims: Primitives, env: Option<seq<EnvAssetParams>>, recipient: string): (r: Result<(seq<Contract>, seq<Call>)>)
    ensures r.Success? <==> env.Some? && |env.value| >= 1
    ensures r.Success? ==>
      && |r.value.0| == |env.value|
      && (forall i :: 0 <= i < |env.value| ==> r.value.0[i] == DeferMockAsset(prims, recipient, env.value[i]).0)
      && r.value.1 == DeferMockAsset(prims, recipient, env.value[0]).1
           + Flatten(Map(p => DeferMockAsset(prims, recipient, p).1, env.value[1..]))
  {
    if env.None? then Failure("TypeError: undefined is not iterable")
    else if |env.value| == 0 then Failure("TypeError: cannot read properties of undefined (reading 'erc20Params')")
    else
      var calls := Map(p => DeferMockAsset(prims, recipient, p).1, env.value);
      assert calls[1..] == Map(p => DeferMockAsset(prims, recipient, p).1, env.value[1..]);
      Success((Map(p => DeferMockAsset(prims, recipient, p).0, env.value), Flatten(calls)))
  }

  /**
   * The single-entry environment: the written code throws, and with it
   * `deferEnv`, where the intended one deploys the asset.
   */
  lemma SingleEntryEnvironmentThrows(prims: Primitives, entry: EnvAssetParams, recipient: string)
    ensures DeferMockAssetsAsWritten(prims, Some([entry]), recipient).Failure?
    ensures DeferEnv(prims, Some([entry]), recipient).Failure?
    ensures DeferMockAssets(prims, Some([entry]), recipient)
      == Success(([DeferMockAsset(prims, recipient, entry).0], DeferMockAsset(prims, recipient, entry).1))
  {
    CorrectedAgrees(prims, [entry], recipient);
    var results := Map(p => DeferMockAsset(prims, recipient, p), [entry][1..]);
    assert |results| == 0;
    assert Map((x: (Contract, seq<Call>)) => x.0, results) == [];
    assert Map((x: (Contract, seq<Call>)) => x.1, results) == [];
    var d := DeferMockAsset(prims, recipient, entry);
    assert Flatten<Call>([]) == [];
    assert d.1 + Flatten(Map((x: (Contract, seq<Call>)) => x.1, results)) == d.1;
    assert [d.0] + Map((x: (Contract, seq<Call>)) => x.0, results) == [d.0];
  }

  /** The mock-asset call list holds exactly the calls of every entry, in entry order. */
  lemma MockAssetCallsCount(prims: Primitives, env: seq<EnvAssetParams>, recipient: string)
    requires |env| >= 1
    ensures |DeferMockAssets(prims, Some(env), recipient).value.1|
      == TotalLength(Map(p => DeferMockAsset(prims, recipient, p).1, env))
  {
    var all := Map(p => DeferMockAsset(prims, recipient, p).1, env);
    assert all == [all[0]] + all[1..];
    FlattenAppend([all[0]], all[1..]);
    assert Flatten([all[0]]) == all[0] by {
      assert [all[0]][1..] == [];
    }
    FlattenLength(all);
  }

  /** `pragma.populateTransaction.set_price(pragmaKey, price)` */
  function SetPriceCall(pragma: Contract, entry: EnvAssetParams): Call
  {
    Call(pragma.address, SetPrice(entry.pragmaKey, entry.price))
  }

  /**
   * `deferPragmaOracle`: the mock oracle's calls, the mock summary's calls,
   * then one price for every environment entry, in order.
   */
  function DeferPragmaOracle(prims: Primitives, env: Option<seq<EnvAssetParams>>): (r: Result<(Contract, Contract, seq<Call>)>)
    ensures r.Success? <==> env.Some?
    ensures r.Success? ==>
      var pragma := prims.deferContract("MockPragmaOracle", NoArgs);
      var summary := prims.deferContract("MockPragmaSummary", NoArgs);
      var n := |pragma.1| + |summary.1|;
      && r.value.0 == pragma.0 && r.value.1 == summary.0
      && |r.value.2| == n + |env.value|
      && r.value.2[..n] == pragma.1 + summary.1
      && forall i :: 0 <= i < |env.value| ==> r.value.2[n + i] == SetPriceCall(pragma.0, env.value[i])
  {
    if env.None? then Failure("TypeError: cannot read properties of undefined (reading 'map')")
    else
      var pragma := prims.deferContract("MockPragmaOracle", NoArgs);
      var summary := prims.deferContract("MockPragmaSummary", NoArgs);
      var setup := Map(e => SetPriceCall(pragma.0, e), env.value);
      Success((pragma.0, summary.0, pragma.1 + summary.1 + setup))
  }

  /**
   * `deferEnv`: the mock assets' calls, then the mock oracle's. The mock
   * assets are deferred as the code is written, so an environment of one
   * entry throws here like an undefined or empty one.
   */
  function DeferEnv(prims: Primitives, env: Option<seq<EnvAssetParams>>, lender: string): (r: Result<(EnvContracts, seq<Call>)>)
    ensures r.Success? <==> env.Some? && |env.value| >= 2
    ensures r.Success? ==>
      var assets := DeferMockAssetsAsWritten(prims, env, lender).value;
      var pragma := DeferPragmaOracle(prims, env).value;
      && r.value.0 == EnvContracts(assets.0, PragmaContracts(pragma.0, pragma.1))
      && |r.value.1| == |assets.1| + |pragma.2|
      && r.value.1[..|assets.1|] == assets.1
      && r.value.1[|assets.1|..] == pragma.2
  {
    var assets :- DeferMockAssetsAsWritten(prims, env, lender);
    // the environment is defined once its assets were deferred, so this cannot fail
    var pragma := DeferPragmaOracle(prims, env).value;
    Success((EnvContracts(assets.0, PragmaContracts(pragma.0, pragma.1)), assets.1 + pragma.2))
  }

  /** `deferOracle`: the owner is both owner and curator of the new oracle. */
  function DeferOracle(prims: Primitives, pragmaOracle: Contract, summaryStats: Contract, owner: string): (Contract, seq<Call>)
  {
    prims.deferContract("Oracle", OracleArgs(owner, owner, pragmaOracle.address, summaryStats.address))
  }

  /** `deferProtocol`: the pool factory's calls, then the oracle's. */
  function DeferProtocol(prims: Primitives, protocol: ProtocolConfig, owner: string): (r: (ProtocolDeferral, seq<Call>))
    ensures var factory := prims.deferContract("PoolFactory",
        PoolFactoryArgs(owner, prims.declareCached("Pool"), prims.declareCached("VToken"), prims.declareCached("Oracle")));
      var oracle := prims.deferContract("Oracle",
        OracleArgs(owner, owner, prims.loadContract(protocol.pragma.oracle).address,
          prims.loadContract(protocol.pragma.summary_stats).address));
      && r.0 == ProtocolDeferral(factory.0, oracle.0)
      && |r.1| == |factory.1| + |oracle.1|
      && r.1[..|factory.1|] == factory.1
      && r.1[|factory.1|..] == oracle.1
  {
    var oracle := DeferOracle(prims, prims.loadContract(protocol.pragma.oracle),
      prims.loadContract(protocol.pragma.summary_stats), owner);
    var factory := prims.deferContract("PoolFactory",
      PoolFactoryArgs(owner, prims.declareCached("Pool"), prims.declareCached("VToken"), prims.declareCached("Oracle")));
    (ProtocolDeferral(factory.0, oracle.0), factory.1 + oracle.1)
  }

  /**
   * The oracle is wired to the pragma addresses of the configuration and to
   * nothing else in it: neither the pool factory and oracle addresses that
   * `deployProtocol` writes back nor the test environment change what
   * `deferProtocol` builds.
   */
  lemma DeferProtocolReadsOnlyPragma(prims: Primitives, a: ProtocolConfig, b: ProtocolConfig, owner: string)
    requires a.pragma == b.pragma
    ensures DeferProtocol(prims, a, owner) == DeferProtocol(prims, b, owner)
  {
  }

  /** `asset.populateTransaction.approve(spender.address, 2000)` */
  function ApproveCall(spender: Contract, asset: Contract): Call
  {
    Call(asset.address, Approve(spender.address, 2000))
  }

  /** The approvals `setApprovals` sends: one per asset, in asset order, all for the same spender. */
  function ApprovalCalls(spender: Contract, assets: seq<Contract>): (r: seq<Call>)
    ensures |r| == |assets|
    ensures forall i :: 0 <= i < |assets| ==> r[i] == ApproveCall(spender, assets[i])
  {
    Map(a => ApproveCall(spender, a), assets)
  }

  /** The asset addresses of one pool, in its `asset_params` order. */
  function PoolAssetAddresses(entry: (string, MainnetConfig.PoolEntry)): seq<string>
  {
    Map((a: AssetParams) => a.asset, entry.1.params.asset_params)
  }

  /** `Object.values(pools).flatMap(({ params }) => params.asset_params.map(({ asset }) => asset))` */
  function AssetAddresses(pools: seq<(string, MainnetConfig.PoolEntry)>): seq<string>
  {
    Flatten(Map(PoolAssetAddresses, pools))
  }

  /** The address list is the pools' lists laid end to end, in pool order. */
  lemma AssetAddressesAppend(ps: seq<(string, MainnetConfig.PoolEntry)>, qs: seq<(string, MainnetConfig.PoolEntry)>)
    ensures AssetAddresses(ps + qs) == AssetAddresses(ps) + AssetAddresses(qs)
  {
    assert Map(PoolAssetAddresses, ps + qs) == Map(PoolAssetAddresses, ps) + Map(PoolAssetAddresses, qs);
    FlattenAppend(Map(PoolAssetAddresses, ps), Map(PoolAssetAddresses, qs));
  }

  /** One pool contributes exactly its own assets, so nothing is deduplicated or reordered. */
  lemma AssetAddressesOfOnePool(entry: (string, MainnetConfig.PoolEntry))
    ensures AssetAddresses([entry]) == PoolAssetAddresses(entry)
    ensures |AssetAddresses([entry])| == |entry.1.params.asset_params|
  {
    assert Map(PoolAssetAddresses, [entry]) == [PoolAssetAddresses(entry)];
    FlattenOne(PoolAssetAddresses(entry));
  }

  /** The contracts `loadProtocol` loads: every address read from the configuration, assets in pool order. */
  function LoadProtocolContracts(prims: Primitives, config: DeployConfig): (r: ProtocolContracts)
    ensures r.poolFactory == prims.loadContract(config.protocol.poolFactory)
    ensures r.pool == Some(prims.loadContract(config.protocol.pool))
    ensures r.oracle == prims.loadContract(config.protocol.oracle)
    ensures r.pragma == PragmaContracts(prims.loadContract(config.protocol.pragma.oracle),
      prims.loadContract(config.protocol.pragma.summary_stats))
    ensures |r.assets| == |AssetAddresses(config.pools)|
    ensures forall i :: 0 <= i < |r.assets| ==> r.assets[i] == prims.loadContract(Some(AssetAddresses(config.pools)[i]))
  {
    var p := config.protocol;
    ProtocolContracts(
      prims.loadContract(p.poolFactory),
      Some(prims.loadContract(p.pool)),
      prims.loadContract(p.oracle),
      PragmaContracts(prims.loadContract(p.pragma.oracle), prims.loadContract(p.pragma.summary_stats)),
      Map(a => prims.loadContract(Some(a)), AssetAddresses(config.pools)))
  }

  /** `config.protocol` after `deployProtocol` records the new pool factory and oracle. */
  function WriteBack(config: DeployConfig, deferred: ProtocolDeferral): (r: DeployConfig)
    ensures r.protocol.poolFactory == Some(deferred.poolFactory.address)
    ensures r.protocol.oracle == Some(deferred.oracle.address)
    ensures r.env == config.env && r.pools == config.pools
    ensures r.protocol.pool == config.protocol.pool && r.protocol.pools == config.protocol.pools
    ensures r.protocol.pragma == config.protocol.pragma && r.protocol.assets == config.protocol.assets
  {
    config.(protocol := config.protocol.(
      poolFactory := Some(deferred.poolFactory.address),
      oracle := Some(deferred.oracle.address)))
  }

  /**
   * The write-back leaves every input of `deferProtocol` unchanged, so a
   * later deferral is built from the same arguments; a corollary of
   * `DeferProtocolReadsOnlyPragma`.
   */
  lemma RedeployDefersSameContracts(prims: Primitives, config: DeployConfig, owner: string)
    ensures var first := DeferProtocol(prims, config.protocol, owner);
      DeferProtocol(prims, WriteBack(config, first.0).protocol, owner) == first
  {
    var first := DeferProtocol(prims, config.protocol, owner);
    DeferProtocolReadsOnlyPragma(prims, config.protocol, WriteBack(config, first.0).protocol, owner);
  }

  class Deployer {
    /** The base deployer's own account, which sends `execute` batches. */
    const account: string
    const owner: string
    const lender: string
    const borrower: string
    const ledger: Ledger
    const prims: Primitives
    var config: DeployConfig

    constructor(account: string, config: DeployConfig, owner: string, lender: string, borrower: string,
                ledger: Ledger, prims: Primitives)
      ensures this.account == account && this.config == config && this.owner == owner
      ensures this.lender == lender && this.borrower == borrower
      ensures this.ledger == ledger && this.prims == prims
    {
      this.account := account;
      this.config := config;
      this.owner := owner;
      this.lender := lender;
      this.borrower := borrower;
      this.ledger := ledger;
      this.prims := prims;
    }

    /** `setApprovals`: one owner batch of approvals, awaited. */
    method SetApprovals(spender: Contract, assets: seq<Contract>)
      requires ledger.Valid()
      modifies ledger
      ensures ledger.Valid()
      ensures ledger.log == old(ledger.log) + [Submitted(owner, ApprovalCalls(spender, assets)), Awaited(|old(ledger.log)|)]
    {
      var tx := ledger.Execute(owner, ApprovalCalls(spender, assets));
      var _ := ledger.WaitForTransaction(tx);
    }

    /** `loadProtocol`: nothing is sent. */
    method LoadProtocol() returns (p: Protocol)
      ensures fresh(p)
      ensures var c := LoadProtocolContracts(prims, config);
        && p.poolFactory == c.poolFactory && p.oracle == c.oracle && p.pragma == c.pragma
        && p.assets == c.assets && p.pools == None
      ensures p.owner == owner && p.ledger == ledger && p.prims == prims
    {
      p := new Protocol.From(LoadProtocolContracts(prims, config), owner, ledger, prims);
    }

    /** `deployEnv`: the environment's calls in one awaited batch. */
    method DeployEnv() returns (r: Result<(EnvContracts, nat)>)
      requires ledger.Valid()
      modifies ledger
      ensures ledger.Valid()
      ensures (config.env.None? || |config.env.value| < 2) ==> r.Failure? && ledger.log == old(ledger.log)
      ensures var env := DeferEnv(prims, config.env, lender);
        && (env.Failure? ==> r.Failure? && ledger.log == old(ledger.log))
        && (env.Success? ==>
              && r == Success((env.value.0, |old(ledger.log)|))
              && ledger.log == old(ledger.log) + [Submitted(account, env.value.1), Awaited(|old(ledger.log)|)])
    {
      var env := DeferEnv(prims, config.env, lender);
      if env.Failure? {
        return Failure(env.error);
      }
      var tx := ledger.Execute(account, env.value.1);
      var _ := ledger.WaitForTransaction(tx);
      r := Success((env.value.0, tx));
    }

    /**
     * `deployProtocol`: one awaited batch of the protocol's calls, then the
     * new pool factory and oracle addresses are written into the
     * configuration and the protocol is loaded from it.
     */
    method DeployProtocol() returns (p: Protocol)
      requires ledger.Valid()
      modifies this, ledger
      ensures ledger.Valid()
      ensures var deferred := DeferProtocol(prims, old(config).protocol, owner);
        && ledger.log == old(ledger.log) + [Submitted(account, deferred.1), Awaited(|old(ledger.log)|)]
        && config == WriteBack(old(config), deferred.0)
        && p.poolFactory == prims.loadContract(Some(deferred.0.poolFactory.address))
        && p.oracle == prims.loadContract(Some(deferred.0.oracle.address))
      ensures fresh(p)
      ensures var c := LoadProtocolContracts(prims, config);
        p.pragma == c.pragma && p.assets == c.assets && p.pools == None
      ensures p.owner == owner && p.ledger == ledger && p.prims == prims
    {
      var deferred := DeferProtocol(prims, config.protocol, owner);
      var tx := ledger.Execute(account, deferred.1);
      var _ := ledger.WaitForTransaction(tx);
      config := WriteBack(config, deferred.0);
      p := LoadProtocol();
    }

    /**
     * The sending half of `deployEnvAndProtocol`: one awaited batch of the
     * environment's and the protocol's calls, then the approvals, and the
     * protocol bound to this deployer.
     */
    method SendEnvAndProtocol(envContracts: EnvContracts, envCalls: seq<Call>, deferred: ProtocolDeferral, protocolCalls: seq<Call>)
      returns (p: Protocol)
      requires ledger.Valid()
      modifies ledger
      ensures ledger.Valid()
      ensures ledger.log == old(ledger.log) + [
        Submitted(account, envCalls + protocolCalls), Awaited(|old(ledger.log)|),
        Submitted(owner, ApprovalCalls(deferred.poolFactory, envContracts.assets)), Awaited(|old(ledger.log)| + 2)]
      ensures fresh(p)
      ensures p.poolFactory == deferred.poolFactory && p.oracle == deferred.oracle
      ensures p.assets == envContracts.assets && p.pragma == envContracts.pragma && p.pools == None
      ensures p.owner == owner && p.ledger == ledger && p.prims == prims
    {
      var tx := ledger.Execute(account, envCalls + protocolCalls);
      var _ := ledger.WaitForTransaction(tx);
      var contracts := ProtocolContracts(deferred.poolFactory, None, deferred.oracle, envContracts.pragma, envContracts.assets);
      SetApprovals(contracts.poolFactory, contracts.assets);
      p := new Protocol.From(contracts, owner, ledger, prims);
    }

    /**
     * `deployEnvAndProtocol`: the environment's calls and then the
     * protocol's in a single awaited batch, then the owner's approvals of
     * the new pool factory for every environment asset. The returned
     * protocol takes its pragma contracts from the environment.
     */
    method DeployEnvAndProtocol() returns (r: Result<Protocol>)
      requires ledger.Valid()
      modifies ledger
      ensures ledger.Valid()
      ensures (config.env.None? || |config.env.value| < 2) ==> r.Failure? && ledger.log == old(ledger.log)
      ensures DeferEnv(prims, config.env, lender).Failure? ==> r.Failure? && ledger.log == old(ledger.log)
      ensures var env := DeferEnv(prims, config.env, lender);
        var deferred := DeferProtocol(prims, config.protocol, owner);
        var base := |old(ledger.log)|;
        env.Success? ==>
          ledger.log == old(ledger.log) + [
            Submitted(account, env.value.1 + deferred.1), Awaited(base),
            Submitted(owner, ApprovalCalls(deferred.0.poolFactory, env.value.0.assets)), Awaited(base + 2)]
      ensures var env := DeferEnv(prims, config.env, lender);
        var deferred := DeferProtocol(prims, config.protocol, owner);
        env.Success? ==>
          && r.Success? && fresh(r.value)
          && r.value.poolFactory == deferred.0.poolFactory && r.value.oracle == deferred.0.oracle
          && r.value.assets == env.value.0.assets && r.value.pragma == env.value.0.pragma
          && r.value.pools == None
      ensures r.Success? ==> r.value.owner == owner && r.value.ledger == ledger && r.value.prims == prims
    {
      if config.env.None? {
        return Failure("Test environment not defined, use loadProtocol for existing networks");
      }
      var env := DeferEnv(prims, config.env, lender);
      if env.Failure? {
        return Failure(env.error);
      }
      var deferred := DeferProtocol(prims, config.protocol, owner);
      var p := SendEnvAndProtocol(env.value.0, env.value.1, deferred.0, deferred.1);
      r := Success(p);
    }
  }
}
