/**
 * The deployed engine as the fixture sets it up and the tests drive it: an
 * object holding the fee recipient, the default fee percentage, the
 * affiliate fee table and the dex registry, whose `swap` and `crossDexSwap`
 * update the chain's balances step by step and restore them on a revert.
 */
module CrowdSwap {
  import opened Wrappers
  import opened Ledger
  import opened EthereumUtil
  import opened Fees
  import opened CallBuilder
  import opened UniswapMock
  import opened SwapEngine
  import SwapProperties

  /** One entry of the initializer's network list. */
  datatype DexAddress = DexAddress(flag: nat, adr: Address)

  /** The registry the initializer builds: each entry maps its flag to its router, a later entry for the same flag winning. */
  function RegistryOf(networks: seq<DexAddress>): map<nat, Address>
    decreases |networks|
  {
    if networks == [] then map[]
    else
      var last := networks[|networks| - 1];
      RegistryOf(networks[..|networks| - 1])[last.flag := last.adr]
  }

  /** Exactly the listed flags are registered. */
  lemma {:induction false} RegistryOfDomain(networks: seq<DexAddress>)
    ensures forall f :: f in RegistryOf(networks) <==> exists i :: 0 <= i < |networks| && networks[i].flag == f
    decreases |networks|
  {
    if networks != [] {
      var init := networks[..|networks| - 1];
      RegistryOfDomain(init);
      forall f | f in RegistryOf(networks)
        ensures exists i :: 0 <= i < |networks| && networks[i].flag == f
      {
        if f != networks[|networks| - 1].flag {
          assert f in RegistryOf(init);
          var i :| 0 <= i < |init| && init[i].flag == f;
          assert networks[i] == init[i];
        }
      }
      forall f | exists i :: 0 <= i < |networks| && networks[i].flag == f
        ensures f in RegistryOf(networks)
      {
        var i :| 0 <= i < |networks| && networks[i].flag == f;
        if i < |init| {
          assert init[i] == networks[i];
        }
      }
    }
  }

  /** An entry whose flag no later entry reuses resolves to its own router. */
  lemma {:induction false} RegistryOfResolves(networks: seq<DexAddress>, i: nat)
    requires i < |networks|
    requires forall j :: i < j < |networks| ==> networks[j].flag != networks[i].flag
    ensures networks[i].flag in RegistryOf(networks) && RegistryOf(networks)[networks[i].flag] == networks[i].adr
    decreases |networks|
  {
    if i < |networks| - 1 {
      var init := networks[..|networks| - 1];
      assert init[i] == networks[i];
      forall j | i < j < |init| ensures init[j].flag != init[i].flag {
        assert init[j] == networks[j];
      }
      RegistryOfResolves(init, i);
    }
  }

  /** The fixture's network list: quickswap under flag 1, uniswap2 under flag 2. */
  function FixtureNetworks(quickswap: Address, uniswap2: Address): seq<DexAddress> {
    [DexAddress(1, quickswap), DexAddress(2, uniswap2)]
  }

  /** The fixture's `addressToFlag` table, with the engine itself added under flag 0 after deployment. */
  function FixtureAddressToFlag(quickswap: Address, uniswap2: Address, engine: Address): map<Address, nat> {
    map[quickswap := 1][uniswap2 := 2][engine := 0]
  }

  /** The fixture's registry maps flag 1 to quickswap and flag 2 to uniswap2, and nothing else. */
  lemma FixtureRegistry(quickswap: Address, uniswap2: Address)
    ensures RegistryOf(FixtureNetworks(quickswap, uniswap2)) == map[1 := quickswap, 2 := uniswap2]
  {
    var ns := FixtureNetworks(quickswap, uniswap2);
    assert ns[..1] == [DexAddress(1, quickswap)] && ns[..1][..0] == [];
    assert RegistryOf(ns[..1]) == map[][1 := quickswap];
    assert RegistryOf(ns) == map[][1 := quickswap][2 := uniswap2];
  }

  /**
   * The fixture registers flags 1 and 2 and nothing else, and the flag a
   * test helper looks up for either router resolves back to that router;
   * the engine's own flag 0 resolves to nothing.
   */
  lemma FixtureFlagsResolve(quickswap: Address, uniswap2: Address, engine: Address)
    requires quickswap != uniswap2 && quickswap != engine && uniswap2 != engine
    ensures var registry, table := RegistryOf(FixtureNetworks(quickswap, uniswap2)), FixtureAddressToFlag(quickswap, uniswap2, engine);
      && (forall f :: f in registry <==> f == 1 || f == 2)
      && FlagOf(table, quickswap) == Some(1) && registry[1] == quickswap
      && FlagOf(table, uniswap2) == Some(2) && registry[2] == uniswap2
      && FlagOf(table, engine) == Some(0) && 0 !in registry
  {
    FixtureRegistry(quickswap, uniswap2);
  }

  /** With the fixture's registry, a `swap` that passes the token and value checks reverts with "unsupported dex flag" for any flag but 1 and 2 (the tests use 201). */
  lemma FixtureRejectsUnknownFlag(quickswap: Address, uniswap2: Address, cfg: Config, s: State, sender: Address, value: nat, p: SwapParams)
    requires cfg.registry == RegistryOf(FixtureNetworks(quickswap, uniswap2))
    requires Normalize(p.fromToken) != Normalize(p.toToken) && value == ExpectedValue(p.fromToken, p.amountIn)
    requires p.dexFlag != 1 && p.dexFlag != 2
    ensures SwapOutcome(cfg, s, sender, value, p) == Failure(UnsupportedDexFlag)
  {
    FixtureRegistry(quickswap, uniswap2);
    SwapProperties.SwapChecksFlag(cfg, s, sender, value, p);
  }

  class CrowdSwapV3 {
    const engine: Address
    const chain: Chain
    var feeTo: Address
    var defaultFeePercentage: nat
    var affiliateFeePercentage: map<nat, nat>
    var dexFlagToAddress: map<nat, Address>

    /** Deployment with the initializer's arguments: fee recipient, default percentage, network list. */
    constructor (engine: Address, chain: Chain, feeTo: Address, defaultFeePercentage: nat, networks: seq<DexAddress>)
      ensures this.engine == engine && this.chain == chain
      ensures this.feeTo == feeTo && this.defaultFeePercentage == defaultFeePercentage
      ensures dexFlagToAddress == RegistryOf(networks)
      ensures forall code :: AffiliateFeePercentage(code) == 0
    {
      this.engine := engine;
      this.chain := chain;
      this.feeTo := feeTo;
      this.defaultFeePercentage := defaultFeePercentage;
      this.affiliateFeePercentage := map[];
      this.dexFlagToAddress := RegistryOf(networks);
    }

    /** `affiliateFeePercentage(code)`: 0 for a code never set. */
    function AffiliateFeePercentage(code: nat): nat
      reads this
    {
      if code in affiliateFeePercentage then affiliateFeePercentage[code] else 0
    }

    /** `setAffiliateFeePercentage`: the code reads back the new percentage, every other code its old one. */
    method SetAffiliateFeePercentage(code: nat, percentage: nat)
      modifies this
      ensures AffiliateFeePercentage(code) == percentage
      ensures forall c :: c != code ==> AffiliateFeePercentage(c) == old(AffiliateFeePercentage(c))
      ensures feeTo == old(feeTo) && defaultFeePercentage == old(defaultFeePercentage)
      ensures dexFlagToAddress == old(dexFlagToAddress)
    {
      affiliateFeePercentage := affiliateFeePercentage[code := percentage];
    }

    /** What a swap reads: the engine's settings and the routers' preset outputs. */
    function Cfg(): Config
      reads this, chain
    {
      Config(engine, feeTo, defaultFeePercentage, dexFlagToAddress, chain.routerAmountOut)
    }

    /**
     * `swap`: the checks, the input's arrival, one router call and the
     * payouts, each applied to the chain in turn; a revert anywhere leaves
     * the chain as it was. The result is the outcome function's.
     */
    method Swap(sender: Address, value: nat, p: SwapParams) returns (r: Result<SwapSucceedEvent, Error>)
      modifies chain
      ensures chain.routerAmountOut == old(chain.routerAmountOut)
      ensures var o := SwapOutcome(old(Cfg()), old(chain.state), sender, value, p);
        && (o.Success? ==> r == Success(o.value.1) && chain.state == o.value.0)
        && (o.Failure? ==> r == Failure(o.error) && chain.state == old(chain.state))
    {
      var cfg := Cfg();
      var s0 := chain.state;
      var fromA, toA := AssetOf(p.fromToken), AssetOf(p.toToken);
      if Normalize(p.fromToken) == Normalize(p.toToken) {
        return Failure(SameFromAndToToken);
      }
      if value != ExpectedValue(p.fromToken, p.amountIn) {
        return Failure(IncorrectEthValue);
      }
      if p.dexFlag !in dexFlagToAddress {
        return Failure(UnsupportedDexFlag);
      }
      var router := dexFlagToAddress[p.dexFlag];
      var entered := Enter(cfg, chain.state, sender, value, fromA, p.amountIn, p.feeCalcDirection);
      if entered.Failure? {
        return Failure(entered.error);
      }
      chain.state := entered.value.0;
      var called := CallRouter(cfg, chain.state, router, fromA, toA, p.data, entered.value.1);
      if called.Failure? {
        chain.state := s0;
        return Failure(called.error);
      }
      chain.state := called.value.0;
      var settled := Settle(cfg, chain.state, toA, called.value.1, p.feeCalcDirection, p.minAmountOut, p.receiverAddress);
      if settled.Failure? {
        chain.state := s0;
        return Failure(settled.error);
      }
      chain.state := settled.value.0;
      r := Success(SwapSucceedEvent(sender, Normalize(p.fromToken), Normalize(p.toToken), p.receiverAddress, p.amountIn, settled.value.1));
    }

    /**
     * `crossDexSwap`: the fee at the boundary and a loop over the hops, each
     * fed the output measured on the one before; a revert anywhere leaves
     * the chain as it was. The result is the outcome function's.
     */
    method CrossDexSwap(sender: Address, value: nat, p: CrossDexParams) returns (r: Result<SwapSucceedEvent, Error>)
      modifies chain
      ensures chain.routerAmountOut == old(chain.routerAmountOut)
      ensures var o := CrossDexOutcome(old(Cfg()), old(chain.state), sender, value, p);
        && (o.Success? ==> r == Success(o.value.1) && chain.state == o.value.0)
        && (o.Failure? ==> r == Failure(o.error) && chain.state == old(chain.state))
    {
      var cfg := Cfg();
      var s0 := chain.state;
      if p.swapList == [] {
        return Failure(SwapListEmpty);
      }
      var first, last := p.swapList[0], p.swapList[|p.swapList| - 1];
      if value != ExpectedValue(first.fromToken, p.amountIn) {
        return Failure(IncorrectEthValue);
      }
      var entered := Enter(cfg, chain.state, sender, value, AssetOf(first.fromToken), p.amountIn, p.feeCalcDirection);
      if entered.Failure? {
        return Failure(entered.error);
      }
      chain.state := entered.value.0;
      var amount := entered.value.1;
      var i := 0;
      while i < |p.swapList|
        invariant 0 <= i <= |p.swapList|
        invariant chain.routerAmountOut == old(chain.routerAmountOut)
        invariant RunHops(cfg, entered.value.0, p.swapList, entered.value.1) == RunHops(cfg, chain.state, p.swapList[i..], amount)
        decreases |p.swapList| - i
      {
        assert p.swapList[i..][0] == p.swapList[i] && p.swapList[i..][1..] == p.swapList[i + 1..];
        var step := Hop(cfg, chain.state, p.swapList[i], amount);
        if step.Failure? {
          chain.state := s0;
          return Failure(step.error);
        }
        chain.state := step.value.0;
        amount := step.value.1;
        i := i + 1;
      }
      assert p.swapList[i..] == [];
      var settled := Settle(cfg, chain.state, AssetOf(last.toToken), amount, p.feeCalcDirection, p.minAmountOut, p.receiverAddress);
      if settled.Failure? {
        chain.state := s0;
        return Failure(settled.error);
      }
      chain.state := settled.value.0;
      r := Success(SwapSucceedEvent(sender, Normalize(first.fromToken), Normalize(last.toToken), p.receiverAddress, p.amountIn, settled.value.1));
    }
  }
}
