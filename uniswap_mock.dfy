/**
 * The test helper that stands for one UniswapV2-style router in the tests:
 * it knows the router, its dex flag, the two tokens and the amounts, chooses
 * the router function for the swap direction, and splits the encoded call
 * into the `CallInfo` template a cross-dex hop carries.
 *
 * The ABI encoding of the router call (ethers' `populateTransaction`) is not
 * modelled: `GetTransaction` returns the call's arguments and
 * `SplitTransaction` takes the encoded call data as a hex string.
 */
module UniswapMock {
  import opened Wrappers
  import opened Bytes
  import opened Ledger
  import opened EthereumUtil
  import opened CallBuilder

  datatype SwapType = EthToToken | TokenToEth | TokenToToken

  /** The three router functions the helper calls. */
  datatype RouterFunction = SwapExactETHForTokens | SwapExactTokensForETH | SwapExactTokensForTokens

  /** The parameter names of each router function, in ABI order. */
  function Arguments(f: RouterFunction): seq<string> {
    match f
    case SwapExactETHForTokens => ["amountOutMin", "path", "to", "deadline"]
    case SwapExactTokensForETH => ["amountIn", "amountOutMin", "path", "to", "deadline"]
    case SwapExactTokensForTokens => ["amountIn", "amountOutMin", "path", "to", "deadline"]
  }

  /** The arguments of a populated router call; `value` is the native value attached, if any. */
  datatype PopulatedTx = PopulatedTx(
    routerFunction: RouterFunction,
    amountIn: Option<nat>,
    amountOutMin: nat,
    path: seq<Address>,
    to: Address,
    deadline: nat,
    value: Option<nat>)

  /** The selector bytes and parameter words cut out of encoded call data. */
  datatype SplitData = SplitData(selector: seq<byte>, params: seq<seq<byte>>)

  /** JavaScript's `substring(i, i + 64)` stops at the end of the string. */
  function ChunkEnd(data: string, i: nat): (e: nat)
    requires i <= |data|
    ensures i <= e <= |data| && e <= i + 64
  {
    if i + 64 <= |data| then i + 64 else |data|
  }

  /** The arrayified 64-hex-digit chunks of `data` from position `i` on; none when a chunk is not hex. */
  function Chunks(data: string, i: nat): Option<seq<seq<byte>>>
    decreases |data| - i
  {
    if i >= |data| then Some([])
    else
      var c :- Arrayify("0x" + data[i..ChunkEnd(data, i)]);
      var rest :- Chunks(data, i + 64);
      Some([c] + rest)
  }

  /** The selector (hex characters up to position 10) and the chunks after it; none when `arrayify` would throw. */
  function SplitSpec(data: string): Option<SplitData> {
    var selector :- Arrayify(data[..Min(10, |data|)]);
    var params :- Chunks(data, 10);
    Some(SplitData(selector, params))
  }

  /** Prefixes a partial result with the chunks already collected. */
  function Prefixed(done: seq<seq<byte>>, rest: Option<seq<seq<byte>>>): Option<seq<seq<byte>>> {
    match rest
    case None => None
    case Some(r) => Some(done + r)
  }

  /** The loop of `splitTransaction`: the selector, then one `arrayify` per 64 hex characters. */
  method SplitCallData(data: string) returns (r: Option<SplitData>)
    ensures r == SplitSpec(data)
  {
    var selector := Arrayify(data[..Min(10, |data|)]);
    if selector.None? {
      return None;
    }
    var params: seq<seq<byte>> := [];
    var i := 10;
    if Chunks(data, 10).Some? {
      assert params + Chunks(data, 10).value == Chunks(data, 10).value;
    }
    while i < |data|
      invariant 10 <= i
      invariant Chunks(data, 10) == Prefixed(params, Chunks(data, i))
      decreases |data| - i
    {
      var c := Arrayify("0x" + data[i..ChunkEnd(data, i)]);
      if c.None? {
        return None;
      }
      ChunksStep(data, i, params);
      params := params + [c.value];
      i := i + 64;
    }
    assert params + [] == params;
    return Some(SplitData(selector.value, params));
  }

  /** One turn of the loop: the next chunk moves from the pending part to the collected part. */
  lemma ChunksStep(data: string, i: nat, done: seq<seq<byte>>)
    requires i < |data| && Arrayify("0x" + data[i..ChunkEnd(data, i)]).Some?
    ensures Prefixed(done, Chunks(data, i))
         == Prefixed(done + [Arrayify("0x" + data[i..ChunkEnd(data, i)]).value], Chunks(data, i + 64))
  {
    var c := Arrayify("0x" + data[i..ChunkEnd(data, i)]).value;
    if Chunks(data, i + 64).Some? {
      var rest := Chunks(data, i + 64).value;
      assert done + ([c] + rest) == (done + [c]) + rest;
    }
  }

  lemma ArrayifyPrefixed(c: string)
    ensures Arrayify("0x" + c) == DecodeHex(c)
  {
    assert ("0x" + c)[2..] == c;
  }

  /** The chunks from `i` on decode, laid end to end, exactly the hex digits from `i` on. */
  lemma {:induction false} ChunksDecode(data: string, i: nat)
    requires i <= |data|
    ensures Chunks(data, i).Some? <==> DecodeHex(data[i..]).Some?
    ensures Chunks(data, i).Some? ==> Concat(Chunks(data, i).value) == DecodeHex(data[i..]).value
    decreases |data| - i
  {
    if i < |data| {
      var e := ChunkEnd(data, i);
      var c := data[i..e];
      ArrayifyPrefixed(c);
      if e == |data| {
        assert c == data[i..];
        assert Chunks(data, i + 64) == Some([]);
        if DecodeHex(c).Some? {
          assert [DecodeHex(c).value] + [] == [DecodeHex(c).value];
          assert Chunks(data, i) == Some([DecodeHex(c).value]);
          assert Concat([DecodeHex(c).value]) == DecodeHex(c).value + [];
        }
      } else {
        ChunksDecode(data, e);
        assert data[i..] == c + data[e..];
        DecodeHexAppend(c, data[e..]);
      }
    }
  }

  /** When the data after the selector is a whole number of words, so is every chunk. */
  lemma {:induction false} ChunksAreWords(data: string, i: nat)
    requires i <= |data| && (|data| - i) % 64 == 0
    requires Chunks(data, i).Some?
    ensures AllWords(Chunks(data, i).value)
    ensures |Chunks(data, i).value| == (|data| - i) / 64
    decreases |data| - i
  {
    if i < |data| {
      var c := data[i..i + 64];
      ArrayifyPrefixed(c);
      ChunksAreWords(data, i + 64);
    }
  }

  /** The selector followed by the parameter words is the whole call data, and splitting fails exactly when decoding the whole data would. */
  lemma SplitRoundTrip(data: string)
    ensures SplitSpec(data).Some? <==> Arrayify(data).Some?
    ensures SplitSpec(data).Some? ==>
      SplitSpec(data).value.selector + Concat(SplitSpec(data).value.params) == Arrayify(data).value
  {
    if |data| >= 10 {
      var head := data[..10];
      assert data == head + data[10..];
      ChunksDecode(data, 10);
      if |data| >= 2 && data[0] == '0' && data[1] == 'x' {
        assert head[2..] == data[2..10];
        assert data[2..] == data[2..10] + data[10..];
        DecodeHexAppend(data[2..10], data[10..]);
      }
    } else {
      assert data[..|data|] == data;
      assert Concat([]) == [];
    }
  }

  /** The selector is the first four bytes of the call data. */
  lemma SplitSelector(data: string)
    requires |data| >= 10 && SplitSpec(data).Some?
    ensures |SplitSpec(data).value.selector| == 4
    ensures Arrayify(data).Some?
    ensures SplitSpec(data).value.selector == Arrayify(data).value[..4]
  {
    SplitRoundTrip(data);
    var sd := SplitSpec(data).value;
    assert data[..10][2..] == data[2..10];
    assert |sd.selector| == 4;
    assert (sd.selector + Concat(sd.params))[..4] == sd.selector;
  }

  /** Data of a selector and whole words splits into exactly (|data| - 10) / 64 words of 32 bytes. */
  lemma SplitIntoWords(data: string)
    requires |data| >= 10 && (|data| - 10) % 64 == 0 && SplitSpec(data).Some?
    ensures AllWords(SplitSpec(data).value.params)
    ensures |SplitSpec(data).value.params| == (|data| - 10) / 64
  {
    ChunksAreWords(data, 10);
  }

  /**
   * Splicing a template cut from call data, with the amount the data
   * already holds at `index`, gives back that call data.
   */
  lemma SpliceRebuildsCallData(data: string, t: CallInfo)
    requires SplitSpec(data).Some?
    requires t.selector == SplitSpec(data).value.selector && t.params == SplitSpec(data).value.params
    requires WellFormed(t)
    ensures Splice(t, if t.isReplace then WordToNat(t.params[t.index]) else 0) == Arrayify(data)
  {
    SplitRoundTrip(data);
    if t.isReplace {
      NatToWordOfWord(t.params[t.index]);
      assert t.params[t.index := t.params[t.index]] == t.params;
    }
  }

  /** `addressToFlag[router.address]`: a router the table does not know has no flag. */
  function FlagOf(addressToFlag: map<Address, nat>, router: Address): Option<nat> {
    if router in addressToFlag then Some(addressToFlag[router]) else None
  }

  class UniswapV2Mock {
    var router: Address
    var dexFlag: Option<nat>
    var wrapToken: Address
    var fromToken: Token
    var toToken: Token
    var amountIn: nat
    var amountOut: nat
    var to: Address

    /** Stores the arguments and looks the router's flag up in `addressToFlag`. */
    constructor (router: Address, addressToFlag: map<Address, nat>, wrapToken: Address,
                 fromToken: Token, toToken: Token, amountIn: nat, amountOut: nat, to: Address)
      ensures this.router == router && this.dexFlag == FlagOf(addressToFlag, router)
      ensures this.wrapToken == wrapToken && this.fromToken == fromToken && this.toToken == toToken
      ensures this.amountIn == amountIn && this.amountOut == amountOut && this.to == to
    {
      this.router := router;
      this.dexFlag := FlagOf(addressToFlag, router);
      this.wrapToken := wrapToken;
      this.fromToken := fromToken;
      this.toToken := toToken;
      this.amountIn := amountIn;
      this.amountOut := amountOut;
      this.to := to;
    }

    /** `create`: builds the helper and presets the router's output to `amountOut`. */
    static method Create(chain: Chain, router: Address, addressToFlag: map<Address, nat>, wrapToken: Address,
                         fromToken: Token, toToken: Token, amountIn: nat, amountOut: nat, to: Address)
      returns (dex: UniswapV2Mock)
      modifies chain
      ensures fresh(dex)
      ensures dex.router == router && dex.dexFlag == FlagOf(addressToFlag, router)
      ensures dex.wrapToken == wrapToken && dex.fromToken == fromToken && dex.toToken == toToken
      ensures dex.amountIn == amountIn && dex.amountOut == amountOut && dex.to == to
      ensures chain.routerAmountOut == old(chain.routerAmountOut)[router := amountOut]
      ensures chain.state == old(chain.state)
    {
      dex := new UniswapV2Mock(router, addressToFlag, wrapToken, fromToken, toToken, amountIn, amountOut, to);
      dex.SetAmountOut(chain, amountOut);
    }

    /** `setAmountOut`: overwrites the expected output here and in the router. */
    method SetAmountOut(chain: Chain, amountOut: nat)
      modifies this, chain
      ensures this.amountOut == amountOut
      ensures router == old(router) && dexFlag == old(dexFlag) && wrapToken == old(wrapToken)
      ensures fromToken == old(fromToken) && toToken == old(toToken) && amountIn == old(amountIn) && to == old(to)
      ensures chain.routerAmountOut == old(chain.routerAmountOut)[router := amountOut]
      ensures RouterOut(chain.routerAmountOut, router) == amountOut
      ensures chain.state == old(chain.state)
    {
      this.amountOut := amountOut;
      chain.SetRouterAmountOut(router, amountOut);
    }

    function GetFromTokenAddress(): Address
      reads this
    {
      TokenAddress(fromToken)
    }

    function GetToTokenAddress(): Address
      reads this
    {
      TokenAddress(toToken)
    }

    /** A native from-token makes the swap ETH_TO_TOKEN even when the to-token is native too. */
    function GetSwapType(): (t: SwapType)
      reads this
      ensures t == EthToToken <==> IsNetworkCoin(GetFromTokenAddress())
      ensures t == TokenToEth <==> !IsNetworkCoin(GetFromTokenAddress()) && IsNetworkCoin(GetToTokenAddress())
      ensures t == TokenToToken <==> !IsNetworkCoin(GetFromTokenAddress()) && !IsNetworkCoin(GetToTokenAddress())
    {
      if IsNetworkCoin(GetFromTokenAddress()) then EthToToken
      else if IsNetworkCoin(GetToTokenAddress()) then TokenToEth
      else TokenToToken
    }

    /** The argument position of `amountIn` in the router call, -1 when the call has none. */
    function GetPositionOfAmountIn(): (p: int)
      reads this
      ensures -1 <= p <= 0
      ensures p == -1 <==> GetSwapType() == EthToToken
    {
      match GetSwapType()
      case EthToToken => -1
      case TokenToEth => 0
      case TokenToToken => 0
    }

    /**
     * `getTransaction` with the deadline passed in: 99% of the expected
     * output as the minimum, the native input as attached value for
     * ETH_TO_TOKEN, and a two-token path.
     */
    function GetTransaction(deadline: nat): (tx: PopulatedTx)
      reads this
      ensures tx.amountOutMin * 1000 <= amountOut * 990 < (tx.amountOutMin + 1) * 1000
      ensures tx.amountOutMin <= amountOut
      ensures tx.routerFunction == match GetSwapType()
        case EthToToken => SwapExactETHForTokens
        case TokenToEth => SwapExactTokensForETH
        case TokenToToken => SwapExactTokensForTokens
      ensures tx.value.Some? <==> GetSwapType() == EthToToken
      ensures tx.value.Some? ==> tx.value.value == amountIn
      ensures tx.amountIn.Some? <==> GetSwapType() != EthToToken
      ensures tx.amountIn.Some? ==> tx.amountIn.value == amountIn
      ensures tx.path == [if GetSwapType() == EthToToken then wrapToken else GetFromTokenAddress(), GetToTokenAddress()]
      ensures tx.to == to && tx.deadline == deadline
    {
      var amountOutMin := amountOut * 990 / 1000;
      match GetSwapType()
      case EthToToken =>
        PopulatedTx(SwapExactETHForTokens, None, amountOutMin, [wrapToken, GetToTokenAddress()], to, deadline, Some(amountIn))
      case TokenToEth =>
        PopulatedTx(SwapExactTokensForETH, Some(amountIn), amountOutMin, [GetFromTokenAddress(), GetToTokenAddress()], to, deadline, None)
      case TokenToToken =>
        PopulatedTx(SwapExactTokensForTokens, Some(amountIn), amountOutMin, [GetFromTokenAddress(), GetToTokenAddress()], to, deadline, None)
    }

    /**
     * `splitTransaction` over the encoded call: the selector and words of the
     * data, the helper's flag and token addresses, and the amount's position
     * (isReplace = false, index 0 when the call has no `amountIn`).
     */
    method SplitTransaction(data: string) returns (r: Option<CallInfo>)
      ensures r.Some? <==> dexFlag.Some? && SplitSpec(data).Some?
      ensures r.Some? ==> r.value.dexFlag == dexFlag.value
      ensures r.Some? ==> r.value.fromToken == GetFromTokenAddress() && r.value.toToken == GetToTokenAddress()
      ensures r.Some? ==> r.value.selector == SplitSpec(data).value.selector && r.value.params == SplitSpec(data).value.params
      ensures r.Some? ==> (r.value.isReplace <==> GetPositionOfAmountIn() >= 0)
      ensures r.Some? ==> r.value.index == if r.value.isReplace then GetPositionOfAmountIn() else 0
      ensures r.Some? ==> IsNetworkCoin(r.value.fromToken) || (r.value.isReplace && r.value.index == 0)
      ensures r.Some? ==> AssetOf(r.value.fromToken).Native? || (r.value.isReplace && r.value.index == 0)
    {
      var split := SplitCallData(data);
      if split.None? || dexFlag.None? {
        return None;
      }
      var index := GetPositionOfAmountIn();
      var isReplace := true;
      if index < 0 {
        index := 0;
        isReplace := false;
      }
      r := Some(CallInfo(dexFlag.value, GetFromTokenAddress(), GetToTokenAddress(),
                         split.value.selector, index, split.value.params, isReplace));
    }

    /** When the call has an `amountIn`, it is the argument at the position the template replaces. */
    lemma PositionNamesAmountIn(deadline: nat)
      ensures GetPositionOfAmountIn() >= 0 ==> Arguments(GetTransaction(deadline).routerFunction)[GetPositionOfAmountIn()] == "amountIn"
      ensures GetPositionOfAmountIn() < 0 ==> "amountIn" !in Arguments(GetTransaction(deadline).routerFunction)
      ensures GetTransaction(deadline).amountIn.Some? <==> "amountIn" in Arguments(GetTransaction(deadline).routerFunction)
    {
      var args := Arguments(GetTransaction(deadline).routerFunction);
      if GetPositionOfAmountIn() < 0 {
        assert args == ["amountOutMin", "path", "to", "deadline"];
        assert forall k :: 0 <= k < |args| ==> args[k] != "amountIn" by {
          assert args[0] == "amountOutMin" && args[1] == "path" && args[2] == "to" && args[3] == "deadline";
        }
      }
    }
  }
}
