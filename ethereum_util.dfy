/**
 * The native-coin test and the balance read of the test utilities.
 * ethers' `getAddress` is modelled as case normalisation: two valid
 * addresses have equal checksummed forms exactly when their lower-case
 * forms are equal.
 */
module EthereumUtil {
  import opened Wrappers
  import opened Ledger

  /** The native-coin address used on Polygon (MATIC). */
  const POLYGON_NATIVE: Address := "0x0000000000000000000000000000000000001010"
  /** The conventional native-currency sentinel, also the test fixture's ETH. */
  const ETH_SENTINEL: Address := "0xEeeeeEeeeEeEeeEeEeEeeEEEeeeeEeeeeeeeEEeE"

  function LowerChar(c: char): char {
    if 'A' <= c <= 'Z' then (c as int + 32) as char else c
  }

  /** The case-normalised form of an address: the model of `getAddress`. */
  function Normalize(a: Address): (r: Address)
    ensures |r| == |a|
    ensures forall i :: 0 <= i < |a| ==> r[i] == LowerChar(a[i])
  {
    seq(|a|, i requires 0 <= i < |a| => LowerChar(a[i]))
  }

  /** Two address strings that differ at most in the case of their letters. */
  predicate SameIgnoringCase(a: Address, b: Address) {
    |a| == |b| && forall i :: 0 <= i < |a| ==> LowerChar(a[i]) == LowerChar(b[i])
  }

  /** `isNetworkCoin`: both sides go through `getAddress` before the comparison. */
  predicate IsNetworkCoin(tokenAddress: Address) {
    var a := Normalize(tokenAddress);
    a == Normalize(POLYGON_NATIVE) || a == Normalize(ETH_SENTINEL)
  }

  lemma NormalizeEqualIff(a: Address, b: Address)
    ensures Normalize(a) == Normalize(b) <==> SameIgnoringCase(a, b)
  {
    if SameIgnoringCase(a, b) {
      assert forall i :: 0 <= i < |a| ==> Normalize(a)[i] == Normalize(b)[i];
    }
    if Normalize(a) == Normalize(b) {
      assert forall i :: 0 <= i < |a| ==> Normalize(a)[i] == LowerChar(a[i]) && Normalize(b)[i] == LowerChar(b[i]);
    }
  }

  lemma NormalizeIdempotent(a: Address)
    ensures Normalize(Normalize(a)) == Normalize(a)
  {
    assert forall i :: 0 <= i < |a| ==> Normalize(Normalize(a))[i] == Normalize(a)[i];
  }

  /** isNetworkCoin holds for exactly the two sentinels, in any letter case, and for no other address. */
  lemma NetworkCoinExactly(a: Address)
    ensures IsNetworkCoin(a) <==> SameIgnoringCase(a, POLYGON_NATIVE) || SameIgnoringCase(a, ETH_SENTINEL)
  {
    NormalizeEqualIff(a, POLYGON_NATIVE);
    NormalizeEqualIff(a, ETH_SENTINEL);
  }

  /** Changing the case of the hex letters never changes the answer of isNetworkCoin. */
  lemma NetworkCoinIgnoresCase(a: Address, b: Address)
    requires SameIgnoringCase(a, b)
    ensures IsNetworkCoin(a) == IsNetworkCoin(b)
  {
    NormalizeEqualIff(a, b);
  }

  /** A token as the tests hold it: an ethereumjs `Address` value or an ERC20 contract handle. */
  datatype Token = AddressValue(addr: Address) | Erc20Contract(addr: Address)

  /** `getFromTokenAddress`/`getToTokenAddress`: an `Address` prints in lower case, a contract gives its address. */
  function TokenAddress(t: Token): Address {
    match t
    case AddressValue(a) => Normalize(a)
    case Erc20Contract(a) => a
  }

  /** How the swap engine classifies a token address. */
  function AssetOf(a: Address): Asset {
    if IsNetworkCoin(a) then Native else Erc20(Normalize(a))
  }

  /** The two assets of addresses that agree up to letter case are the same. */
  lemma AssetOfIgnoresCase(a: Address, b: Address)
    requires Normalize(a) == Normalize(b)
    ensures AssetOf(a) == AssetOf(b)
  {
  }

  /**
   * The ledger asset behind a test token, when the test utilities know how
   * to read it: a native-sentinel `Address` is the native coin, a contract
   * whose address is not a sentinel is that ERC20; any other combination has
   * no readable balance.
   */
  function TokenAsset(t: Token): (r: Option<Asset>)
    ensures r.Some? <==> (t.AddressValue? && IsNetworkCoin(t.addr)) || (t.Erc20Contract? && !IsNetworkCoin(t.addr))
    ensures r.Some? ==> r.value == AssetOf(TokenAddress(t))
  {
    match t
    case AddressValue(a) =>
      NormalizeIdempotent(a);
      if IsNetworkCoin(a) then Some(Native) else None
    case Erc20Contract(a) =>
      if IsNetworkCoin(a) then None else Some(Erc20(Normalize(a)))
  }

  /** `uniBalanceOf`: the native balance, an ERC20 `balanceOf`, or nothing. */
  function UniBalanceOf(s: State, token: Token, who: Address): (r: Option<nat>)
    ensures r.Some? <==> (token.AddressValue? && IsNetworkCoin(token.addr)) || (token.Erc20Contract? && !IsNetworkCoin(token.addr))
    ensures r.Some? && token.AddressValue? ==> r.value == Balance(s, Native, who)
    ensures r.Some? && token.Erc20Contract? ==> r.value == Balance(s, Erc20(Normalize(token.addr)), who)
    ensures r.Some? ==> r.value == Balance(s, AssetOf(TokenAddress(token)), who)
  {
    match TokenAsset(token)
    case None => None
    case Some(a) => Some(Balance(s, a, who))
  }
}

/**
 * `setupTokensAndApprove`: funds the owner with the first helper's
 * from-token and approves the engine for it, then funds every helper's
 * router with the output it is going to pay.  The router funding runs one
 * helper after the other; a native send the owner cannot pay has no effect
 * and makes the whole setup report failure, without stopping the others.
 */
module EthereumSetup {
  import opened Wrappers
  import opened Ledger
  import opened EthereumUtil
  import opened UniswapMock

  /** What the setup reads from one helper. */
  datatype Funding = Funding(fromToken: Token, router: Address, toToken: Token, amountOut: nat)

  function FundingOf(d: UniswapV2Mock): Funding
    reads d
  {
    Funding(d.fromToken, d.router, d.toToken, d.amountOut)
  }

  function Fundings(ds: seq<UniswapV2Mock>): (r: seq<Funding>)
    reads set d | d in ds
    ensures |r| == |ds|
    ensures forall i :: 0 <= i < |ds| ==> r[i] == FundingOf(ds[i])
    decreases |ds|
  {
    if ds == [] then [] else [FundingOf(ds[0])] + Fundings(ds[1..])
  }

  /** The owner's side: a non-native ERC20 from-token is minted to the owner and approved to the engine, in exactly that amount. */
  function PrepareOwner(s: State, fromToken: Token, owner: Address, engine: Address, amount: nat): (r: State)
    ensures fromToken.Erc20Contract? && !IsNetworkCoin(fromToken.addr) ==>
      var a := Erc20(Normalize(fromToken.addr));
      && Balance(r, a, owner) == Balance(s, a, owner) + amount
      && (forall b, w :: (b, w) != (a, owner) ==> Balance(r, b, w) == Balance(s, b, w))
      && Allowance(r, a, owner, engine) == amount
      && (forall b, o, p :: (b, o, p) != (a, owner, engine) ==> Allowance(r, b, o, p) == Allowance(s, b, o, p))
    ensures !(fromToken.Erc20Contract? && !IsNetworkCoin(fromToken.addr)) ==> r == s
  {
    if fromToken.Erc20Contract? && !IsNetworkCoin(fromToken.addr) then
      var a := Erc20(Normalize(fromToken.addr));
      Approve(Mint(s, a, owner, amount), a, owner, engine, amount)
    else s
  }

  /** One router's funding: a native send from the owner, an ERC20 mint, or nothing for a token the helper cannot fund. */
  function FundRouter(s: State, owner: Address, f: Funding): Option<State> {
    match f.toToken
    case AddressValue(_) =>
      if IsNetworkCoin(TokenAddress(f.toToken)) then Transfer(s, Native, owner, f.router, f.amountOut) else Some(s)
    case Erc20Contract(a) =>
      if !IsNetworkCoin(a) then Some(Mint(s, Erc20(Normalize(a)), f.router, f.amountOut)) else Some(s)
  }

  /** One router's funding as a step of the loop: a failed send leaves the state as it was and reports it. */
  function FundStep(s: State, owner: Address, f: Funding): (State, bool) {
    match FundRouter(s, owner, f)
    case None => (s, false)
    case Some(t) => (t, true)
  }

  /** A run's final state, with an earlier failure folded into its flag. */
  function AndOk(ok: bool, run: (State, bool)): (State, bool) {
    (run.0, ok && run.1)
  }

  /** Funds the routers in order; the flag says whether every native send went through. */
  function FundAll(s: State, owner: Address, fs: seq<Funding>): (State, bool)
    decreases |fs|
  {
    if fs == [] then (s, true)
    else
      var step := FundStep(s, owner, fs[0]);
      AndOk(step.1, FundAll(step.0, owner, fs[1..]))
  }

  /** The whole setup; `dexList[0]` with an empty list throws, which changes nothing. */
  function SetupSpec(s: State, engine: Address, ownerAmountIn: nat, fs: seq<Funding>, owner: Address): (State, bool) {
    if fs == [] then (s, false)
    else FundAll(PrepareOwner(s, fs[0].fromToken, owner, engine, ownerAmountIn), owner, fs)
  }

  /** Sum of the outputs funded to `w` in asset `b`. */
  function Credit(fs: seq<Funding>, b: Asset, w: Address): nat
    decreases |fs|
  {
    if fs == [] then 0
    else (if TokenAsset(fs[0].toToken) == Some(b) && fs[0].router == w then fs[0].amountOut else 0) + Credit(fs[1..], b, w)
  }

  /** Sum of the outputs the owner sends natively. */
  function NativeDebit(fs: seq<Funding>): nat
    decreases |fs|
  {
    if fs == [] then 0
    else (if TokenAsset(fs[0].toToken) == Some(Native) then fs[0].amountOut else 0) + NativeDebit(fs[1..])
  }

  lemma FundRouterEffect(s: State, owner: Address, f: Funding)
    ensures FundRouter(s, owner, f).Some? ==> FundRouter(s, owner, f).value.allowances == s.allowances
    ensures FundRouter(s, owner, f).Some? ==> forall b, w ::
      Balance(FundRouter(s, owner, f).value, b, w) + (if b == Native && w == owner && TokenAsset(f.toToken) == Some(Native) then f.amountOut else 0)
        == Balance(s, b, w) + (if TokenAsset(f.toToken) == Some(b) && f.router == w then f.amountOut else 0)
    ensures FundRouter(s, owner, f).None? <==> TokenAsset(f.toToken) == Some(Native) && Balance(s, Native, owner) < f.amountOut
  {
    NormalizeIdempotent(f.toToken.addr);
  }

  /**
   * When every native send goes through, each router holds exactly what it
   * was funded with on top of what it had, the owner has paid the native
   * sends, and no other balance or allowance changes.
   */
  lemma {:induction false} FundAllEffect(s: State, owner: Address, fs: seq<Funding>)
    ensures FundAll(s, owner, fs).0.allowances == s.allowances
    ensures FundAll(s, owner, fs).1 ==> forall b, w ::
      Balance(FundAll(s, owner, fs).0, b, w) + (if b == Native && w == owner then NativeDebit(fs) else 0)
        == Balance(s, b, w) + Credit(fs, b, w)
    decreases |fs|
  {
    if fs != [] {
      FundRouterEffect(s, owner, fs[0]);
      FundAllEffect(FundStep(s, owner, fs[0]).0, owner, fs[1..]);
    }
  }

  /** A failed funding round has a helper whose to-token is the native coin: only a native send can fail. */
  lemma {:induction false} FundAllFails(s: State, owner: Address, fs: seq<Funding>)
    ensures !FundAll(s, owner, fs).1 ==> exists k :: 0 <= k < |fs| && TokenAsset(fs[k].toToken) == Some(Native)
    decreases |fs|
  {
    if fs != [] {
      FundRouterEffect(s, owner, fs[0]);
      var t := FundStep(s, owner, fs[0]).0;
      FundAllFails(t, owner, fs[1..]);
      if !FundAll(t, owner, fs[1..]).1 {
        var k :| 0 <= k < |fs[1..]| && TokenAsset(fs[1..][k].toToken) == Some(Native);
        assert fs[k + 1] == fs[1..][k];
      }
    }
  }

  lemma FundAllStep(s: State, owner: Address, fs: seq<Funding>, i: nat)
    requires i < |fs|
    ensures FundAll(s, owner, fs[i..]) == AndOk(FundStep(s, owner, fs[i]).1, FundAll(FundStep(s, owner, fs[i]).0, owner, fs[i + 1..]))
  {
    assert fs[i..][0] == fs[i] && fs[i..][1..] == fs[i + 1..];
  }

  /** Funds one helper's router on the chain. */
  method FundDex(chain: Chain, dex: UniswapV2Mock, owner: Address) returns (sent: bool)
    modifies chain
    ensures (chain.state, sent) == FundStep(old(chain.state), owner, FundingOf(dex))
    ensures chain.routerAmountOut == old(chain.routerAmountOut)
  {
    sent := true;
    var toToken := dex.toToken;
    match toToken {
      case AddressValue(_) =>
        if IsNetworkCoin(TokenAddress(toToken)) {
          var t := Transfer(chain.state, Native, owner, dex.router, dex.amountOut);
          if t.Some? {
            chain.state := t.value;
          } else {
            sent := false;
          }
        }
      case Erc20Contract(a) =>
        if !IsNetworkCoin(a) {
          chain.state := Mint(chain.state, Erc20(Normalize(a)), dex.router, dex.amountOut);
        }
    }
  }

  /** The owner's side of the setup on the chain: mint and approve a non-native ERC20 from-token. */
  method PrepareOwnerOnChain(chain: Chain, fromToken: Token, owner: Address, engine: Address, amount: nat)
    modifies chain
    ensures chain.state == PrepareOwner(old(chain.state), fromToken, owner, engine, amount)
    ensures chain.routerAmountOut == old(chain.routerAmountOut)
  {
    if fromToken.Erc20Contract? && !IsNetworkCoin(fromToken.addr) {
      var a := Erc20(Normalize(fromToken.addr));
      chain.state := Mint(chain.state, a, owner, amount);
      chain.state := Approve(chain.state, a, owner, engine, amount);
    }
  }

  method SetupTokensAndApprove(chain: Chain, engine: Address, ownerAmountIn: nat, dexList: seq<UniswapV2Mock>, owner: Address)
    returns (ok: bool)
    modifies chain
    ensures (chain.state, ok) == SetupSpec(old(chain.state), engine, ownerAmountIn, Fundings(dexList), owner)
    ensures chain.routerAmountOut == old(chain.routerAmountOut)
  {
    ghost var fs := Fundings(dexList);
    if |dexList| == 0 {
      return false;
    }
    PrepareOwnerOnChain(chain, dexList[0].fromToken, owner, engine, ownerAmountIn);
    ghost var prepared := chain.state;
    assert fs[0..] == fs;
    ok := true;
    var i := 0;
    while i < |dexList|
      invariant 0 <= i <= |dexList|
      invariant chain.routerAmountOut == old(chain.routerAmountOut)
      invariant FundAll(prepared, owner, fs) == AndOk(ok, FundAll(chain.state, owner, fs[i..]))
    {
      assert fs[i] == FundingOf(dexList[i]);
      FundAllStep(chain.state, owner, fs, i);
      var sent := FundDex(chain, dexList[i], owner);
      ok := ok && sent;
      i := i + 1;
    }
  }
}
