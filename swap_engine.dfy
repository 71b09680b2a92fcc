/**
 * The swap engine's behaviour as the tests pin it down, as functions from
 * the chain state before a call to its outcome: a revert reason, or the
 * state after the call together with the `SwapSucceedEvent` it emits.
 *
 * The router is abstract.  It asks for its input, which is the native value
 * the engine forwards or, for a token input, the first word of the call
 * after the selector, and it never takes more than the engine forwards.
 * It pays the engine the output preset with `setAmountOut`, and the engine
 * measures that output as the change of its own balance of the to-asset.
 */
module SwapEngine {
  import opened Wrappers
  import opened Bytes
  import opened Ledger
  import opened EthereumUtil
  import opened Fees
  import opened CallBuilder

  /** The engine's revert reasons. */
  datatype Error =
    | IncorrectEthValue      // "CrowdSwapV3: Incorrect ETH value sent"
    | AmountOutIsZero        // "amount out is 0"
    | MinimumAmountNotMet    // "Minimum amount not met"
    | SameFromAndToToken     // "fromToken should not be equal with toToken"
    | UnsupportedDexFlag     // "unsupported dex flag"
    | SwapListEmpty          // "Swap List is empty"
    | TemplateMalformed      // a hop template that cannot be spliced
    | TransferFailed         // a token or value transfer the payer cannot cover
    | RouterReverted         // the router call itself failed
    | Underflow              // a checked subtraction below zero

  datatype FeeCalcDirection = TokenIn | TokenOut

  datatype SwapParams = SwapParams(
    fromToken: Address,
    toToken: Address,
    receiverAddress: Address,
    amountIn: nat,
    dexFlag: nat,
    data: seq<byte>,
    affiliateCode: nat,
    minAmountOut: nat,
    feeCalcDirection: FeeCalcDirection)

  datatype CrossDexParams = CrossDexParams(
    amountIn: nat,
    swapList: seq<CallInfo>,
    affiliateCode: nat,
    minAmountOut: nat,
    feeCalcDirection: FeeCalcDirection,
    receiverAddress: Address)

  datatype SwapSucceedEvent = SwapSucceedEvent(
    sender: Address,
    fromToken: Address,
    toToken: Address,
    receiver: Address,
    amountIn: nat,
    amountOut: nat)

  /** What one call of the engine reads besides the balances: its own address, the fee recipient and percentage, the dex registry and the routers' preset outputs. */
  datatype Config = Config(
    engine: Address,
    feeTo: Address,
    feePercentage: nat,
    registry: map<nat, Address>,
    presets: map<Address, nat>)

  /** The router addresses the registry can resolve. */
  function Routers(cfg: Config): set<Address> {
    set f | f in cfg.registry :: cfg.registry[f]
  }

  /** The native value a call must carry: the input amount for a native from-token, nothing otherwise. */
  function ExpectedValue(fromToken: Address, amountIn: nat): nat {
    if IsNetworkCoin(fromToken) then amountIn else 0
  }

  function Lookup(cfg: Config, flag: nat): (r: Result<Address, Error>)
    ensures r.Success? <==> flag in cfg.registry
    ensures r.Success? ==> r.value == cfg.registry[flag] && r.value in Routers(cfg)
    ensures r.Failure? ==> r.error == UnsupportedDexFlag
  {
    if flag in cfg.registry then Success(cfg.registry[flag]) else Failure(UnsupportedDexFlag)
  }

  /** The input's arrival: the attached value, then for a token input an allowance-based pull of `amountIn`. */
  function PullIn(cfg: Config, s: State, sender: Address, value: nat, fromA: Asset, amountIn: nat): (r: Result<State, Error>)
    ensures r.Failure? ==> r.error == TransferFailed
  {
    match Transfer(s, Native, sender, cfg.engine, value)
    case None => Failure(TransferFailed)
    case Some(t) =>
      if fromA.Native? then Success(t)
      else
        match TransferFrom(t, fromA, sender, cfg.engine, cfg.engine, amountIn)
        case None => Failure(TransferFailed)
        case Some(u) => Success(u)
  }

  /** The balance effect of `PullIn`, as moves. */
  function PullMoves(cfg: Config, sender: Address, value: nat, fromA: Asset, amountIn: nat): seq<Move> {
    [Move(Native, sender, cfg.engine, value)] + (if fromA.Native? then [] else [Move(fromA, sender, cfg.engine, amountIn)])
  }

  /** The fee taken from the input before any router call; none in the TokenOut direction. */
  function InputFee(cfg: Config, amountIn: nat, dir: FeeCalcDirection): nat {
    if dir == TokenIn then CalculateFee(amountIn, cfg.feePercentage) else 0
  }

  /** Pulls the input in and pays the TokenIn fee; gives the state and the amount the first router call gets. */
  function Enter(cfg: Config, s: State, sender: Address, value: nat, fromA: Asset, amountIn: nat, dir: FeeCalcDirection)
    : (r: Result<(State, nat), Error>)
    ensures r.Failure? ==> r.error == TransferFailed || r.error == Underflow
    ensures r.Success? ==> r.value.1 + InputFee(cfg, amountIn, dir) == amountIn
  {
    var pulled :- PullIn(cfg, s, sender, value, fromA, amountIn);
    var fee := InputFee(cfg, amountIn, dir);
    if fee > amountIn then Failure(Underflow)
    else
      match ApplyMoves(pulled, [Move(fromA, cfg.engine, cfg.feeTo, fee)])
      case None => Failure(TransferFailed)
      case Some(t) => Success((t, amountIn - fee))
  }

  /** The input a router takes: the forwarded native value, or the first word of a token call. */
  function Requested(fromA: Asset, data: seq<byte>, forwarded: nat): (r: Result<nat, Error>)
    ensures r.Failure? ==> r.error == RouterReverted
  {
    if fromA.Native? then Success(forwarded)
    else if |data| < 4 + WORD_SIZE then Failure(RouterReverted)
    else Success(WordToNat(data[4..4 + WORD_SIZE]))
  }

  /** The two transfers of one router call: the input to the router, its preset output back to the engine. */
  function RouterMoves(cfg: Config, router: Address, fromA: Asset, toA: Asset, requested: nat): seq<Move> {
    [Move(fromA, cfg.engine, router, requested), Move(toA, router, cfg.engine, RouterOut(cfg.presets, router))]
  }

  /** One external call, its output measured as the engine's balance change of the to-asset. */
  function CallRouter(cfg: Config, s: State, router: Address, fromA: Asset, toA: Asset, data: seq<byte>, forwarded: nat)
    : (r: Result<(State, nat), Error>)
    ensures r.Failure? ==> r.error == RouterReverted || r.error == Underflow
    ensures r.Success? ==> Balance(r.value.0, toA, cfg.engine) == Balance(s, toA, cfg.engine) + r.value.1
  {
    var requested :- Requested(fromA, data, forwarded);
    if requested > forwarded then Failure(RouterReverted)
    else
      match ApplyMoves(s, RouterMoves(cfg, router, fromA, toA, requested))
      case None => Failure(RouterReverted)
      case Some(t) =>
        if Balance(t, toA, cfg.engine) < Balance(s, toA, cfg.engine) then Failure(Underflow)
        else Success((t, Balance(t, toA, cfg.engine) - Balance(s, toA, cfg.engine)))
  }

  /** The fee taken from the output; none in the TokenIn direction. */
  function OutputFee(cfg: Config, amountOut: nat, dir: FeeCalcDirection): nat {
    if dir == TokenOut then CalculateFee(amountOut, cfg.feePercentage) else 0
  }

  /** The payouts after the last router call. */
  function SettleMoves(cfg: Config, toA: Asset, receiver: Address, fee: nat, net: nat): seq<Move> {
    [Move(toA, cfg.engine, cfg.feeTo, fee), Move(toA, cfg.engine, receiver, net)]
  }

  /** Output checks and payouts; gives the state and the net amount the receiver gets. */
  function Settle(cfg: Config, s: State, toA: Asset, amountOut: nat, dir: FeeCalcDirection, minAmountOut: nat, receiver: Address)
    : (r: Result<(State, nat), Error>)
    ensures r.Failure? ==> r.error in {AmountOutIsZero, Underflow, MinimumAmountNotMet, TransferFailed}
    ensures r.Success? ==> r.value.1 + OutputFee(cfg, amountOut, dir) == amountOut && r.value.1 >= minAmountOut && amountOut > 0
  {
    if amountOut == 0 then Failure(AmountOutIsZero)
    else
      var fee := OutputFee(cfg, amountOut, dir);
      if fee > amountOut then Failure(Underflow)
      else if amountOut - fee < minAmountOut then Failure(MinimumAmountNotMet)
      else
        match ApplyMoves(s, SettleMoves(cfg, toA, receiver, fee, amountOut - fee))
        case None => Failure(TransferFailed)
        case Some(t) => Success((t, amountOut - fee))
  }

  /** `swap` up to and including its router call: the state after the call and the measured output. */
  function SwapToRouter(cfg: Config, s: State, sender: Address, value: nat, p: SwapParams): (r: Result<(State, nat), Error>)
  {
    if Normalize(p.fromToken) == Normalize(p.toToken) then Failure(SameFromAndToToken)
    else if value != ExpectedValue(p.fromToken, p.amountIn) then Failure(IncorrectEthValue)
    else
      var router :- Lookup(cfg, p.dexFlag);
      var entered :- Enter(cfg, s, sender, value, AssetOf(p.fromToken), p.amountIn, p.feeCalcDirection);
      CallRouter(cfg, entered.0, router, AssetOf(p.fromToken), AssetOf(p.toToken), p.data, entered.1)
  }

  /** `swap`: one router call between the input's arrival and the payouts. */
  function SwapOutcome(cfg: Config, s: State, sender: Address, value: nat, p: SwapParams)
    : (r: Result<(State, SwapSucceedEvent), Error>)
  {
    var called :- SwapToRouter(cfg, s, sender, value, p);
    var settled :- Settle(cfg, called.0, AssetOf(p.toToken), called.1, p.feeCalcDirection, p.minAmountOut, p.receiverAddress);
    Success((settled.0, SwapSucceedEvent(sender, Normalize(p.fromToken), Normalize(p.toToken), p.receiverAddress, p.amountIn, settled.1)))
  }

  /** A template's call bytes for the running amount; a malformed template reverts. */
  function HopCallData(h: CallInfo, amount: nat): (r: Result<seq<byte>, Error>)
    ensures r.Success? <==> WellFormed(h)
    ensures r.Failure? ==> r.error == TemplateMalformed
  {
    match Splice(h, amount)
    case None => Failure(TemplateMalformed)
    case Some(d) => Success(d)
  }

  /** One hop of `crossDexSwap`: resolve the flag, splice the running amount in, call the router. */
  function Hop(cfg: Config, s: State, h: CallInfo, amount: nat): (r: Result<(State, nat), Error>)
    ensures r.Failure? ==> r.error in {UnsupportedDexFlag, TemplateMalformed, RouterReverted, Underflow}
    ensures r.Success? ==> Balance(r.value.0, AssetOf(h.toToken), cfg.engine) == Balance(s, AssetOf(h.toToken), cfg.engine) + r.value.1
  {
    var router :- Lookup(cfg, h.dexFlag);
    var data :- HopCallData(h, amount);
    CallRouter(cfg, s, router, AssetOf(h.fromToken), AssetOf(h.toToken), data, amount)
  }

  /** The hop loop: every hop gets the measured output of the hop before it. */
  function RunHops(cfg: Config, s: State, hops: seq<CallInfo>, amount: nat): (r: Result<(State, nat), Error>)
    ensures r.Failure? ==> r.error in {UnsupportedDexFlag, TemplateMalformed, RouterReverted, Underflow}
    decreases |hops|
  {
    if hops == [] then Success((s, amount))
    else
      var stepped :- Hop(cfg, s, hops[0], amount);
      RunHops(cfg, stepped.0, hops[1..], stepped.1)
  }

  /** `crossDexSwap`: the fee once at the boundary, the hop loop in between. */
  function CrossDexOutcome(cfg: Config, s: State, sender: Address, value: nat, p: CrossDexParams)
    : (r: Result<(State, SwapSucceedEvent), Error>)
  {
    if p.swapList == [] then Failure(SwapListEmpty)
    else
      var first, last := p.swapList[0], p.swapList[|p.swapList| - 1];
      if value != ExpectedValue(first.fromToken, p.amountIn) then Failure(IncorrectEthValue)
      else
        var entered :- Enter(cfg, s, sender, value, AssetOf(first.fromToken), p.amountIn, p.feeCalcDirection);
        var hopped :- RunHops(cfg, entered.0, p.swapList, entered.1);
        var settled :- Settle(cfg, hopped.0, AssetOf(last.toToken), hopped.1, p.feeCalcDirection, p.minAmountOut, p.receiverAddress);
        Success((settled.0, SwapSucceedEvent(sender, Normalize(first.fromToken), Normalize(last.toToken), p.receiverAddress, p.amountIn, settled.1)))
  }
}
