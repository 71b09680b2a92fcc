/**
 * What the tests assert about `swap` and `crossDexSwap`, proved about the
 * outcome functions: which inputs revert and with which reason, where every
 * token goes on success, what the event reports, and that each hop is fed
 * the output measured on the hop before it.
 */
module SwapProperties {
  import opened Wrappers
  import opened Bytes
  import opened Ledger
  import opened EthereumUtil
  import opened Fees
  import opened CallBuilder
  import opened SwapEngine

  // ---------------------------------------------------------------------
  // Validation
  // ---------------------------------------------------------------------

  /** `swap` reverts with "fromToken should not be equal with toToken" exactly when the two addresses are the same. */
  lemma SwapRejectsSameToken(cfg: Config, s: State, sender: Address, value: nat, p: SwapParams)
    ensures SwapOutcome(cfg, s, sender, value, p) == Failure(SameFromAndToToken) <==> Normalize(p.fromToken) == Normalize(p.toToken)
  {
  }

  /**
   * For distinct tokens, `swap` reverts with "Incorrect ETH value sent"
   * exactly when the attached value is not `amountIn` for a native input or
   * not zero for a token input.
   */
  lemma SwapChecksValue(cfg: Config, s: State, sender: Address, value: nat, p: SwapParams)
    requires Normalize(p.fromToken) != Normalize(p.toToken)
    ensures SwapOutcome(cfg, s, sender, value, p) == Failure(IncorrectEthValue) <==> value != ExpectedValue(p.fromToken, p.amountIn)
  {
  }

  /** With valid tokens and value, `swap` reverts with "unsupported dex flag" exactly when the flag is not registered. */
  lemma SwapChecksFlag(cfg: Config, s: State, sender: Address, value: nat, p: SwapParams)
    requires Normalize(p.fromToken) != Normalize(p.toToken) && value == ExpectedValue(p.fromToken, p.amountIn)
    ensures SwapOutcome(cfg, s, sender, value, p) == Failure(UnsupportedDexFlag) <==> p.dexFlag !in cfg.registry
  {
    if p.dexFlag in cfg.registry {
      assert SwapToRouter(cfg, s, sender, value, p).Failure? ==> SwapToRouter(cfg, s, sender, value, p).error != UnsupportedDexFlag;
    }
  }

  /** `crossDexSwap` reverts with "Swap List is empty" exactly when the list is empty. */
  lemma CrossDexRejectsEmptyList(cfg: Config, s: State, sender: Address, value: nat, p: CrossDexParams)
    ensures CrossDexOutcome(cfg, s, sender, value, p) == Failure(SwapListEmpty) <==> p.swapList == []
  {
  }

  /** For a non-empty list, `crossDexSwap` checks the value against the first hop's from-token. */
  lemma CrossDexChecksValue(cfg: Config, s: State, sender: Address, value: nat, p: CrossDexParams)
    requires p.swapList != []
    ensures CrossDexOutcome(cfg, s, sender, value, p) == Failure(IncorrectEthValue)
        <==> value != ExpectedValue(p.swapList[0].fromToken, p.amountIn)
  {
  }

  /** Once the input is in, a first hop with an unregistered flag makes `crossDexSwap` revert with "unsupported dex flag". */
  lemma CrossDexChecksFirstFlag(cfg: Config, s: State, sender: Address, value: nat, p: CrossDexParams)
    requires p.swapList != [] && value == ExpectedValue(p.swapList[0].fromToken, p.amountIn)
    requires Enter(cfg, s, sender, value, AssetOf(p.swapList[0].fromToken), p.amountIn, p.feeCalcDirection).Success?
    requires p.swapList[0].dexFlag !in cfg.registry
    ensures CrossDexOutcome(cfg, s, sender, value, p) == Failure(UnsupportedDexFlag)
  {
  }

  /** A hop loop that goes through resolved every hop's flag and spliced every hop's template. */
  lemma {:induction false} RunHopsNeedsRegisteredFlags(cfg: Config, s: State, hops: seq<CallInfo>, amount: nat)
    requires RunHops(cfg, s, hops, amount).Success?
    ensures forall i :: 0 <= i < |hops| ==> hops[i].dexFlag in cfg.registry && WellFormed(hops[i])
    decreases |hops|
  {
    if hops != [] {
      var stepped := Hop(cfg, s, hops[0], amount).value;
      RunHopsNeedsRegisteredFlags(cfg, stepped.0, hops[1..], stepped.1);
      forall i | 0 < i < |hops|
        ensures hops[i].dexFlag in cfg.registry && WellFormed(hops[i])
      {
        assert hops[i] == hops[1..][i - 1];
      }
    }
  }

  /** A successful `crossDexSwap` used registered flags and well-formed templates only. */
  lemma CrossDexNeedsRegisteredFlags(cfg: Config, s: State, sender: Address, value: nat, p: CrossDexParams)
    requires CrossDexOutcome(cfg, s, sender, value, p).Success?
    ensures forall i :: 0 <= i < |p.swapList| ==> p.swapList[i].dexFlag in cfg.registry && WellFormed(p.swapList[i])
  {
    var entered := Enter(cfg, s, sender, value, AssetOf(p.swapList[0].fromToken), p.amountIn, p.feeCalcDirection).value;
    RunHopsNeedsRegisteredFlags(cfg, entered.0, p.swapList, entered.1);
  }

  // ---------------------------------------------------------------------
  // Output checks
  // ---------------------------------------------------------------------

  /** The payouts go through when the engine holds the output it measured. */
  lemma SettlePays(cfg: Config, s: State, toA: Asset, receiver: Address, fee: nat, net: nat)
    requires Balance(s, toA, cfg.engine) >= fee + net
    ensures ApplyMoves(s, SettleMoves(cfg, toA, receiver, fee, net)).Some?
  {
    var ms := SettleMoves(cfg, toA, receiver, fee, net);
    var t := Transfer(s, toA, cfg.engine, cfg.feeTo, fee).value;
    assert Balance(t, toA, cfg.engine) >= net;
    var u := Transfer(t, toA, cfg.engine, receiver, net).value;
    assert ms[1..] == [Move(toA, cfg.engine, receiver, net)];
    assert ms[1..][1..] == [];
    assert ApplyMoves(u, []) == Some(u);
    assert ApplyMoves(t, ms[1..]) == Some(u);
  }

  /** An output of 0 reverts with "amount out is 0", whatever the minimum. */
  lemma SettleRejectsZero(cfg: Config, s: State, toA: Asset, dir: FeeCalcDirection, minAmountOut: nat, receiver: Address)
    ensures Settle(cfg, s, toA, 0, dir, minAmountOut, receiver) == Failure(AmountOutIsZero)
  {
  }

  /**
   * For a positive output the engine holds, settling succeeds exactly when
   * the net output reaches the minimum, and otherwise reverts with
   * "Minimum amount not met".
   */
  lemma SettleChecksMinimum(cfg: Config, s: State, toA: Asset, amountOut: nat, dir: FeeCalcDirection, minAmountOut: nat, receiver: Address)
    requires amountOut > 0 && cfg.feePercentage <= FEE_SCALE
    requires Balance(s, toA, cfg.engine) >= amountOut
    ensures Settle(cfg, s, toA, amountOut, dir, minAmountOut, receiver).Success?
        <==> amountOut - OutputFee(cfg, amountOut, dir) >= minAmountOut
    ensures Settle(cfg, s, toA, amountOut, dir, minAmountOut, receiver).Failure? ==>
        Settle(cfg, s, toA, amountOut, dir, minAmountOut, receiver).error == MinimumAmountNotMet
  {
    var fee := OutputFee(cfg, amountOut, dir);
    FeeAtMostAmount(amountOut, cfg.feePercentage);
    SettlePays(cfg, s, toA, receiver, fee, amountOut - fee);
  }

  /** `swap` whose router call measured 0 reverts with "amount out is 0", even with a minimum of 0. */
  lemma SwapRejectsZeroOutput(cfg: Config, s: State, sender: Address, value: nat, p: SwapParams)
    requires SwapToRouter(cfg, s, sender, value, p).Success? && SwapToRouter(cfg, s, sender, value, p).value.1 == 0
    ensures SwapOutcome(cfg, s, sender, value, p) == Failure(AmountOutIsZero)
  {
  }

  /**
   * Once the router call has measured a positive output, `swap` succeeds
   * exactly when the net output reaches `minAmountOut`; below it, it reverts
   * with "Minimum amount not met".
   */
  lemma SwapChecksMinimum(cfg: Config, s: State, sender: Address, value: nat, p: SwapParams)
    requires cfg.feePercentage <= FEE_SCALE
    requires SwapToRouter(cfg, s, sender, value, p).Success? && SwapToRouter(cfg, s, sender, value, p).value.1 > 0
    ensures var out := SwapToRouter(cfg, s, sender, value, p).value.1;
      SwapOutcome(cfg, s, sender, value, p).Success? <==> out - OutputFee(cfg, out, p.feeCalcDirection) >= p.minAmountOut
    ensures SwapOutcome(cfg, s, sender, value, p).Failure? ==> SwapOutcome(cfg, s, sender, value, p).error == MinimumAmountNotMet
  {
    var called := SwapToRouter(cfg, s, sender, value, p).value;
    SettleChecksMinimum(cfg, called.0, AssetOf(p.toToken), called.1, p.feeCalcDirection, p.minAmountOut, p.receiverAddress);
  }

  /** `crossDexSwap` whose last hop measured 0 reverts with "amount out is 0". */
  lemma CrossDexRejectsZeroOutput(cfg: Config, s: State, sender: Address, value: nat, p: CrossDexParams)
    requires p.swapList != [] && value == ExpectedValue(p.swapList[0].fromToken, p.amountIn)
    requires Enter(cfg, s, sender, value, AssetOf(p.swapList[0].fromToken), p.amountIn, p.feeCalcDirection).Success?
    requires var entered := Enter(cfg, s, sender, value, AssetOf(p.swapList[0].fromToken), p.amountIn, p.feeCalcDirection).value;
      RunHops(cfg, entered.0, p.swapList, entered.1).Success? && RunHops(cfg, entered.0, p.swapList, entered.1).value.1 == 0
    ensures CrossDexOutcome(cfg, s, sender, value, p) == Failure(AmountOutIsZero)
  {
  }

  /** Once entry and the hop loop have gone through, `crossDexSwap` fails exactly when settling fails, with the same error. */
  lemma CrossDexSettleStep(cfg: Config, s: State, sender: Address, value: nat, p: CrossDexParams)
    requires p.swapList != [] && value == ExpectedValue(p.swapList[0].fromToken, p.amountIn)
    requires Enter(cfg, s, sender, value, AssetOf(p.swapList[0].fromToken), p.amountIn, p.feeCalcDirection).Success?
    requires var entered := Enter(cfg, s, sender, value, AssetOf(p.swapList[0].fromToken), p.amountIn, p.feeCalcDirection).value;
      RunHops(cfg, entered.0, p.swapList, entered.1).Success?
    ensures var entered := Enter(cfg, s, sender, value, AssetOf(p.swapList[0].fromToken), p.amountIn, p.feeCalcDirection).value;
      var hopped := RunHops(cfg, entered.0, p.swapList, entered.1).value;
      var settled := Settle(cfg, hopped.0, AssetOf(p.swapList[|p.swapList| - 1].toToken), hopped.1, p.feeCalcDirection, p.minAmountOut, p.receiverAddress);
      && (CrossDexOutcome(cfg, s, sender, value, p).Success? <==> settled.Success?)
      && (settled.Failure? ==> CrossDexOutcome(cfg, s, sender, value, p) == Failure(settled.error))
  {
  }

  /**
   * After a hop loop with a positive output, settling is the same minimum
   * check as in `swap`: it goes through exactly when the net output reaches
   * the minimum and otherwise reverts with "Minimum amount not met".
   * With `CrossDexSettleStep` this is the minimum check of `crossDexSwap`.
   */
  lemma HopsThenSettle(cfg: Config, s: State, hops: seq<CallInfo>, amount: nat, dir: FeeCalcDirection, minAmountOut: nat, receiver: Address)
    requires cfg.feePercentage <= FEE_SCALE
    requires hops != [] && RunHops(cfg, s, hops, amount).Success? && RunHops(cfg, s, hops, amount).value.1 > 0
    ensures var hopped := RunHops(cfg, s, hops, amount).value;
      var settled := Settle(cfg, hopped.0, AssetOf(hops[|hops| - 1].toToken), hopped.1, dir, minAmountOut, receiver);
      && (settled.Success? <==> hopped.1 - OutputFee(cfg, hopped.1, dir) >= minAmountOut)
      && (settled.Failure? ==> settled.error == MinimumAmountNotMet)
  {
    RunHopsHoldsOutput(cfg, s, hops, amount);
    var hopped := RunHops(cfg, s, hops, amount).value;
    SettleChecksMinimum(cfg, hopped.0, AssetOf(hops[|hops| - 1].toToken), hopped.1, dir, minAmountOut, receiver);
  }

  /** After a non-empty hop loop the engine holds at least the output the last hop measured. */
  lemma {:induction false} RunHopsHoldsOutput(cfg: Config, s: State, hops: seq<CallInfo>, amount: nat)
    requires hops != [] && RunHops(cfg, s, hops, amount).Success?
    ensures Balance(RunHops(cfg, s, hops, amount).value.0, AssetOf(hops[|hops| - 1].toToken), cfg.engine)
         >= RunHops(cfg, s, hops, amount).value.1
    decreases |hops|
  {
    var stepped := Hop(cfg, s, hops[0], amount).value;
    assert RunHops(cfg, s, hops, amount) == RunHops(cfg, stepped.0, hops[1..], stepped.1);
    if |hops| > 1 {
      RunHopsHoldsOutput(cfg, stepped.0, hops[1..], stepped.1);
      assert hops[1..][|hops| - 2] == hops[|hops| - 1];
    }
  }

  // ---------------------------------------------------------------------
  // Where the tokens go
  // ---------------------------------------------------------------------

  lemma PullInFlow(cfg: Config, s: State, sender: Address, value: nat, fromA: Asset, amountIn: nat)
    requires PullIn(cfg, s, sender, value, fromA, amountIn).Success?
    ensures forall b, w :: (Balance(PullIn(cfg, s, sender, value, fromA, amountIn).value, b, w)
      == Balance(s, b, w) + Flow(PullMoves(cfg, sender, value, fromA, amountIn), b, w))
  {
    var m := Move(Native, sender, cfg.engine, value);
    var n := Move(fromA, sender, cfg.engine, amountIn);
    var t := Transfer(s, Native, sender, cfg.engine, value).value;
    TransferMove(s, m);
    if fromA.Native? {
      assert PullMoves(cfg, sender, value, fromA, amountIn) == [m];
      forall b, w ensures Balance(t, b, w) == Balance(s, b, w) + Flow([m], b, w) { FlowOne(m, b, w); }
    } else {
      var u := TransferFrom(t, fromA, sender, cfg.engine, cfg.engine, amountIn).value;
      TransferFromMove(t, n, cfg.engine);
      assert PullMoves(cfg, sender, value, fromA, amountIn) == [m, n];
      forall b, w ensures Balance(u, b, w) == Balance(s, b, w) + Flow([m, n], b, w) {
        FlowTwo(m, n, b, w);
        assert Balance(t, b, w) == Balance(s, b, w) + MoveDelta(m, b, w);
        assert Balance(u, b, w) == Balance(t, b, w) + MoveDelta(n, b, w);
      }
    }
  }

  /** The input's arrival and the TokenIn fee: the pull moves, then the fee to the fee recipient. */
  lemma EnterFlow(cfg: Config, s: State, sender: Address, value: nat, fromA: Asset, amountIn: nat, dir: FeeCalcDirection)
    requires Enter(cfg, s, sender, value, fromA, amountIn, dir).Success?
    ensures forall b, w :: (Balance(Enter(cfg, s, sender, value, fromA, amountIn, dir).value.0, b, w)
      == Balance(s, b, w) + Flow(PullMoves(cfg, sender, value, fromA, amountIn), b, w)
         + MoveDelta(Move(fromA, cfg.engine, cfg.feeTo, InputFee(cfg, amountIn, dir)), b, w))
  {
    PullInFlow(cfg, s, sender, value, fromA, amountIn);
    var pulled := PullIn(cfg, s, sender, value, fromA, amountIn).value;
    var m := Move(fromA, cfg.engine, cfg.feeTo, InputFee(cfg, amountIn, dir));
    ApplyMovesFlow(pulled, [m]);
    forall b, w { FlowOne(m, b, w); }
  }

  /**
   * A router call that goes through took what the router asked for, at most
   * the forwarded amount, and paid back its preset output; for two distinct
   * assets and a router other than the engine, the measured output is
   * exactly that preset.
   */
  lemma CallRouterFlow(cfg: Config, s: State, router: Address, fromA: Asset, toA: Asset, data: seq<byte>, forwarded: nat)
    requires CallRouter(cfg, s, router, fromA, toA, data, forwarded).Success?
    ensures Requested(fromA, data, forwarded).Success? && Requested(fromA, data, forwarded).value <= forwarded
    ensures forall b, w :: (Balance(CallRouter(cfg, s, router, fromA, toA, data, forwarded).value.0, b, w)
      == Balance(s, b, w) + MoveDelta(Move(fromA, cfg.engine, router, Requested(fromA, data, forwarded).value), b, w)
         + MoveDelta(Move(toA, router, cfg.engine, RouterOut(cfg.presets, router)), b, w))
    ensures fromA != toA && router != cfg.engine ==>
      CallRouter(cfg, s, router, fromA, toA, data, forwarded).value.1 == RouterOut(cfg.presets, router)
  {
    var requested := Requested(fromA, data, forwarded).value;
    var ms := RouterMoves(cfg, router, fromA, toA, requested);
    ApplyMovesFlow(s, ms);
    forall b, w { FlowTwo(ms[0], ms[1], b, w); }
  }

  /** The router call as moves: the requested input to the router, its preset output to the engine. */
  lemma CallRouterMoved(cfg: Config, s: State, router: Address, fromA: Asset, toA: Asset, data: seq<byte>, forwarded: nat)
    requires CallRouter(cfg, s, router, fromA, toA, data, forwarded).Success?
    ensures Requested(fromA, data, forwarded).Success?
    ensures Moved(s, CallRouter(cfg, s, router, fromA, toA, data, forwarded).value.0,
      [Move(fromA, cfg.engine, router, Requested(fromA, data, forwarded).value), Move(toA, router, cfg.engine, RouterOut(cfg.presets, router))])
  {
    ApplyMovesFlow(s, RouterMoves(cfg, router, fromA, toA, Requested(fromA, data, forwarded).value));
  }

  /** The payouts: the output fee to the fee recipient, the net output to the receiver. */
  lemma SettleFlow(cfg: Config, s: State, toA: Asset, amountOut: nat, dir: FeeCalcDirection, minAmountOut: nat, receiver: Address)
    requires Settle(cfg, s, toA, amountOut, dir, minAmountOut, receiver).Success?
    ensures forall b, w :: (Balance(Settle(cfg, s, toA, amountOut, dir, minAmountOut, receiver).value.0, b, w)
      == Balance(s, b, w) + MoveDelta(Move(toA, cfg.engine, cfg.feeTo, OutputFee(cfg, amountOut, dir)), b, w)
         + MoveDelta(Move(toA, cfg.engine, receiver, amountOut - OutputFee(cfg, amountOut, dir)), b, w))
  {
    var fee := OutputFee(cfg, amountOut, dir);
    var ms := SettleMoves(cfg, toA, receiver, fee, amountOut - fee);
    ApplyMovesFlow(s, ms);
    forall b, w { FlowTwo(ms[0], ms[1], b, w); }
  }

  /** With the value the engine checks for, pulling the input amounts to one move of `amountIn` from the caller to the engine. */
  lemma PullMovesInput(cfg: Config, sender: Address, value: nat, fromA: Asset, amountIn: nat)
    requires value == (if fromA.Native? then amountIn else 0)
    ensures forall b, w :: (Flow(PullMoves(cfg, sender, value, fromA, amountIn), b, w)
      == MoveDelta(Move(fromA, sender, cfg.engine, amountIn), b, w))
  {
    var m := Move(Native, sender, cfg.engine, value);
    var n := Move(fromA, sender, cfg.engine, amountIn);
    if fromA.Native? {
      assert PullMoves(cfg, sender, value, fromA, amountIn) == [m];
      forall b, w { FlowOne(m, b, w); }
    } else {
      assert PullMoves(cfg, sender, value, fromA, amountIn) == [m, n];
      forall b, w { FlowTwo(m, n, b, w); }
    }
  }

  /** With the value the engine checks for, entry is the input from the caller to the engine and the input fee to the fee recipient. */
  lemma EnterMoves(cfg: Config, s: State, sender: Address, value: nat, fromToken: Address, amountIn: nat, dir: FeeCalcDirection)
    requires value == ExpectedValue(fromToken, amountIn)
    requires Enter(cfg, s, sender, value, AssetOf(fromToken), amountIn, dir).Success?
    ensures var e := Enter(cfg, s, sender, value, AssetOf(fromToken), amountIn, dir).value;
      forall b, w :: (Balance(e.0, b, w) == Balance(s, b, w)
        + MoveDelta(Move(AssetOf(fromToken), sender, cfg.engine, amountIn), b, w)
        + MoveDelta(Move(AssetOf(fromToken), cfg.engine, cfg.feeTo, InputFee(cfg, amountIn, dir)), b, w))
  {
    EnterFlow(cfg, s, sender, value, AssetOf(fromToken), amountIn, dir);
    NetworkCoinIsNative(fromToken);
    PullMovesInput(cfg, sender, value, AssetOf(fromToken), amountIn);
  }

  /** Entry leaves the engine holding the forwarded amount of the from-asset on top of what it had. */
  lemma EnterEngine(cfg: Config, s: State, sender: Address, value: nat, fromToken: Address, amountIn: nat, dir: FeeCalcDirection)
    requires value == ExpectedValue(fromToken, amountIn)
    requires Enter(cfg, s, sender, value, AssetOf(fromToken), amountIn, dir).Success?
    requires sender != cfg.engine && cfg.feeTo != cfg.engine
    ensures var e := Enter(cfg, s, sender, value, AssetOf(fromToken), amountIn, dir).value;
      Exchanged(s, e.0, cfg.engine, AssetOf(fromToken), 0, AssetOf(fromToken), e.1)
  {
    EnterMoves(cfg, s, sender, value, fromToken, amountIn, dir);
  }

  /** The payouts take the whole output of the to-asset away from the engine. */
  lemma SettleEngine(cfg: Config, s: State, toA: Asset, amountOut: nat, dir: FeeCalcDirection, minAmountOut: nat, receiver: Address)
    requires Settle(cfg, s, toA, amountOut, dir, minAmountOut, receiver).Success?
    requires receiver != cfg.engine && cfg.feeTo != cfg.engine
    ensures Exchanged(s, Settle(cfg, s, toA, amountOut, dir, minAmountOut, receiver).value.0, cfg.engine, toA, amountOut, toA, 0)
  {
    SettleFlow(cfg, s, toA, amountOut, dir, minAmountOut, receiver);
  }

  /** Entry as moves: the input from the caller to the engine, then the input fee to the fee recipient. */
  lemma EnterMoved(cfg: Config, s: State, sender: Address, value: nat, fromToken: Address, amountIn: nat, dir: FeeCalcDirection)
    requires value == ExpectedValue(fromToken, amountIn)
    requires Enter(cfg, s, sender, value, AssetOf(fromToken), amountIn, dir).Success?
    ensures Moved(s, Enter(cfg, s, sender, value, AssetOf(fromToken), amountIn, dir).value.0,
      [Move(AssetOf(fromToken), sender, cfg.engine, amountIn), Move(AssetOf(fromToken), cfg.engine, cfg.feeTo, InputFee(cfg, amountIn, dir))])
  {
    EnterMoves(cfg, s, sender, value, fromToken, amountIn, dir);
    var m := Move(AssetOf(fromToken), sender, cfg.engine, amountIn);
    var n := Move(AssetOf(fromToken), cfg.engine, cfg.feeTo, InputFee(cfg, amountIn, dir));
    forall b, w { FlowTwo(m, n, b, w); }
  }

  /** The payouts as moves. */
  lemma SettleMoved(cfg: Config, s: State, toA: Asset, amountOut: nat, dir: FeeCalcDirection, minAmountOut: nat, receiver: Address)
    requires Settle(cfg, s, toA, amountOut, dir, minAmountOut, receiver).Success?
    ensures Moved(s, Settle(cfg, s, toA, amountOut, dir, minAmountOut, receiver).value.0,
      [Move(toA, cfg.engine, cfg.feeTo, OutputFee(cfg, amountOut, dir)), Move(toA, cfg.engine, receiver, Settle(cfg, s, toA, amountOut, dir, minAmountOut, receiver).value.1)])
  {
    var fee := OutputFee(cfg, amountOut, dir);
    var ms := SettleMoves(cfg, toA, receiver, fee, amountOut - fee);
    ApplyMovesFlow(s, ms);
  }

  /** The amount the router call gets: the input less the TokenIn fee. */
  function Forwarded(cfg: Config, p: SwapParams): nat {
    var fee := InputFee(cfg, p.amountIn, p.feeCalcDirection);
    if fee <= p.amountIn then p.amountIn - fee else 0
  }

  /**
   * A successful `swap` is six token movements: the input from the caller
   * to the engine, the input fee to the fee recipient, what the router asks
   * for to the router, the router's preset output back to the engine, the
   * output fee to the fee recipient and the net output to the receiver.
   */
  lemma SwapFlow(cfg: Config, s: State, sender: Address, value: nat, p: SwapParams)
    requires SwapOutcome(cfg, s, sender, value, p).Success?
    ensures p.dexFlag in cfg.registry
    ensures Requested(AssetOf(p.fromToken), p.data, Forwarded(cfg, p)).Success?
    ensures var fromA, toA := AssetOf(p.fromToken), AssetOf(p.toToken);
      var router := cfg.registry[p.dexFlag];
      var req := Requested(fromA, p.data, Forwarded(cfg, p)).value;
      var out := SwapToRouter(cfg, s, sender, value, p).value.1;
      var fee2 := OutputFee(cfg, out, p.feeCalcDirection);
      var r := SwapOutcome(cfg, s, sender, value, p).value;
      && (fromA != toA && router != cfg.engine ==> out == RouterOut(cfg.presets, router))
      && r.1.amountOut + fee2 == out
      && Moved(s, r.0, [Move(fromA, sender, cfg.engine, p.amountIn),
                        Move(fromA, cfg.engine, cfg.feeTo, InputFee(cfg, p.amountIn, p.feeCalcDirection)),
                        Move(fromA, cfg.engine, router, req),
                        Move(toA, router, cfg.engine, RouterOut(cfg.presets, router)),
                        Move(toA, cfg.engine, cfg.feeTo, fee2),
                        Move(toA, cfg.engine, p.receiverAddress, r.1.amountOut)])
  {
    SwapStages(cfg, s, sender, value, p);
    var fromA, toA := AssetOf(p.fromToken), AssetOf(p.toToken);
    var router := cfg.registry[p.dexFlag];
    var dir := p.feeCalcDirection;
    var entered := Enter(cfg, s, sender, value, fromA, p.amountIn, dir).value;
    var called := CallRouter(cfg, entered.0, router, fromA, toA, p.data, entered.1).value;
    var settled := Settle(cfg, called.0, toA, called.1, dir, p.minAmountOut, p.receiverAddress).value;
    EnterMoved(cfg, s, sender, value, p.fromToken, p.amountIn, dir);
    CallRouterFlow(cfg, entered.0, router, fromA, toA, p.data, entered.1);
    CallRouterMoved(cfg, entered.0, router, fromA, toA, p.data, entered.1);
    SettleMoved(cfg, called.0, toA, called.1, dir, p.minAmountOut, p.receiverAddress);
    MovedThrough(s, entered.0, called.0, settled.0,
      Move(fromA, sender, cfg.engine, p.amountIn), Move(fromA, cfg.engine, cfg.feeTo, InputFee(cfg, p.amountIn, dir)),
      Move(fromA, cfg.engine, router, Requested(fromA, p.data, entered.1).value), Move(toA, router, cfg.engine, RouterOut(cfg.presets, router)),
      Move(toA, cfg.engine, cfg.feeTo, OutputFee(cfg, called.1, dir)), Move(toA, cfg.engine, p.receiverAddress, settled.1));
  }

  /** The stages of a successful `swap`: the flag resolves, entry, the router call and the payouts go through, and the outcome is the payouts' state with the event. */
  lemma SwapStages(cfg: Config, s: State, sender: Address, value: nat, p: SwapParams)
    requires SwapOutcome(cfg, s, sender, value, p).Success?
    ensures p.dexFlag in cfg.registry
    ensures var fromA, toA := AssetOf(p.fromToken), AssetOf(p.toToken);
      var dir := p.feeCalcDirection;
      && value == ExpectedValue(p.fromToken, p.amountIn)
      && Enter(cfg, s, sender, value, fromA, p.amountIn, dir).Success?
      && var entered := Enter(cfg, s, sender, value, fromA, p.amountIn, dir).value;
      && entered.1 == Forwarded(cfg, p)
      && CallRouter(cfg, entered.0, cfg.registry[p.dexFlag], fromA, toA, p.data, entered.1).Success?
      && var called := CallRouter(cfg, entered.0, cfg.registry[p.dexFlag], fromA, toA, p.data, entered.1).value;
      && SwapToRouter(cfg, s, sender, value, p).Success? && SwapToRouter(cfg, s, sender, value, p).value == called
      && Settle(cfg, called.0, toA, called.1, dir, p.minAmountOut, p.receiverAddress).Success?
      && var settled := Settle(cfg, called.0, toA, called.1, dir, p.minAmountOut, p.receiverAddress).value;
      SwapOutcome(cfg, s, sender, value, p).value
        == (settled.0, SwapSucceedEvent(sender, Normalize(p.fromToken), Normalize(p.toToken), p.receiverAddress, p.amountIn, settled.1))
  {
  }

  lemma NetworkCoinIsNative(a: Address)
    ensures AssetOf(a).Native? <==> IsNetworkCoin(a)
  {
  }

  /** Engine, fee recipient and router are three accounts apart from each other and from the caller and the receiver. */
  predicate SeparateParties(cfg: Config, sender: Address, receiver: Address, router: Address) {
    && cfg.engine != sender && cfg.engine != receiver && cfg.engine != router && cfg.engine != cfg.feeTo
    && cfg.feeTo != sender && cfg.feeTo != receiver && cfg.feeTo != router
    && router != sender && router != receiver
  }

  /**
   * The balance changes of a successful `swap` between two distinct assets,
   * as the tests check them: the caller pays `amountIn`; the fee recipient
   * gets the input fee in the from-token and the output fee in the to-token
   * (by direction, one of them is 0); the receiver gets the event's
   * `amountOut`, which with the output fee makes up the router's preset
   * output; the engine keeps of the from-token what the router did not ask
   * for and nothing of the to-token.
   */
  lemma SwapBalances(cfg: Config, s: State, sender: Address, value: nat, p: SwapParams)
    requires SwapOutcome(cfg, s, sender, value, p).Success?
    requires AssetOf(p.fromToken) != AssetOf(p.toToken)
    requires p.dexFlag in cfg.registry && SeparateParties(cfg, sender, p.receiverAddress, cfg.registry[p.dexFlag])
    ensures Requested(AssetOf(p.fromToken), p.data, Forwarded(cfg, p)).Success?
    ensures var t, ev := SwapOutcome(cfg, s, sender, value, p).value.0, SwapOutcome(cfg, s, sender, value, p).value.1;
      var fromA, toA := AssetOf(p.fromToken), AssetOf(p.toToken);
      var router := cfg.registry[p.dexFlag];
      var out := RouterOut(cfg.presets, router);
      var req := Requested(fromA, p.data, Forwarded(cfg, p)).value;
      && ev == SwapSucceedEvent(sender, Normalize(p.fromToken), Normalize(p.toToken), p.receiverAddress, p.amountIn, ev.amountOut)
      && ev.amountOut + OutputFee(cfg, out, p.feeCalcDirection) == out
      && (fromA.Native? ==> req == Forwarded(cfg, p))
      && Balance(t, fromA, sender) + p.amountIn == Balance(s, fromA, sender)
      && Balance(t, fromA, cfg.feeTo) == Balance(s, fromA, cfg.feeTo) + InputFee(cfg, p.amountIn, p.feeCalcDirection)
      && Balance(t, toA, cfg.feeTo) == Balance(s, toA, cfg.feeTo) + OutputFee(cfg, out, p.feeCalcDirection)
      && Balance(t, toA, p.receiverAddress) == Balance(s, toA, p.receiverAddress) + ev.amountOut
      && Balance(t, fromA, cfg.engine) + req == Balance(s, fromA, cfg.engine) + Forwarded(cfg, p)
      && Balance(t, toA, cfg.engine) == Balance(s, toA, cfg.engine)
      && Balance(t, fromA, router) == Balance(s, fromA, router) + req
      && Balance(t, toA, router) + out == Balance(s, toA, router)
  {
    SwapFlow(cfg, s, sender, value, p);
    SwapStages(cfg, s, sender, value, p);
    var fromA, toA := AssetOf(p.fromToken), AssetOf(p.toToken);
    var router := cfg.registry[p.dexFlag];
    var out := SwapToRouter(cfg, s, sender, value, p).value.1;
    var fee2 := OutputFee(cfg, out, p.feeCalcDirection);
    SixMovesPoints(cfg, s, SwapOutcome(cfg, s, sender, value, p).value.0, sender, p.receiverAddress, router, fromA, toA,
      p.amountIn, InputFee(cfg, p.amountIn, p.feeCalcDirection), Forwarded(cfg, p),
      Requested(fromA, p.data, Forwarded(cfg, p)).value, RouterOut(cfg.presets, router), fee2, SwapOutcome(cfg, s, sender, value, p).value.1.amountOut);
  }

  /** What the six transfers of a swap give each party, for two distinct assets and separate parties. */
  lemma SixMovesPoints(cfg: Config, s: State, t: State, sender: Address, receiver: Address, router: Address, fromA: Asset, toA: Asset,
                       amountIn: nat, fee1: nat, forwarded: nat, req: nat, routerOut: nat, fee2: nat, net: nat)
    requires Moved(s, t, [Move(fromA, sender, cfg.engine, amountIn), Move(fromA, cfg.engine, cfg.feeTo, fee1),
                          Move(fromA, cfg.engine, router, req), Move(toA, router, cfg.engine, routerOut),
                          Move(toA, cfg.engine, cfg.feeTo, fee2), Move(toA, cfg.engine, receiver, net)])
    requires fromA != toA && SeparateParties(cfg, sender, receiver, router)
    requires forwarded + fee1 == amountIn && fee2 + net == routerOut
    ensures Balance(t, fromA, sender) + amountIn == Balance(s, fromA, sender)
    ensures Balance(t, fromA, cfg.feeTo) == Balance(s, fromA, cfg.feeTo) + fee1
    ensures Balance(t, toA, cfg.feeTo) == Balance(s, toA, cfg.feeTo) + fee2
    ensures Balance(t, toA, receiver) == Balance(s, toA, receiver) + net
    ensures Balance(t, fromA, cfg.engine) + req == Balance(s, fromA, cfg.engine) + forwarded
    ensures Balance(t, toA, cfg.engine) == Balance(s, toA, cfg.engine)
    ensures Balance(t, fromA, router) == Balance(s, fromA, router) + req
    ensures Balance(t, toA, router) + routerOut == Balance(s, toA, router)
  {
    var m1, m2 := Move(fromA, sender, cfg.engine, amountIn), Move(fromA, cfg.engine, cfg.feeTo, fee1);
    var m3, m4 := Move(fromA, cfg.engine, router, req), Move(toA, router, cfg.engine, routerOut);
    var m5, m6 := Move(toA, cfg.engine, cfg.feeTo, fee2), Move(toA, cfg.engine, receiver, net);
    forall b, w ensures Balance(t, b, w) == Balance(s, b, w)
        + MoveDelta(m1, b, w) + MoveDelta(m2, b, w) + MoveDelta(m3, b, w) + MoveDelta(m4, b, w) + MoveDelta(m5, b, w) + MoveDelta(m6, b, w) {
      FlowSix(m1, m2, m3, m4, m5, m6, b, w);
    }
    assert Balance(t, fromA, cfg.engine) == Balance(s, fromA, cfg.engine)
        + MoveDelta(Move(fromA, sender, cfg.engine, amountIn), fromA, cfg.engine)
        + MoveDelta(Move(fromA, cfg.engine, cfg.feeTo, fee1), fromA, cfg.engine)
        + MoveDelta(Move(fromA, cfg.engine, router, req), fromA, cfg.engine)
        + MoveDelta(Move(toA, router, cfg.engine, routerOut), fromA, cfg.engine)
        + MoveDelta(Move(toA, cfg.engine, cfg.feeTo, fee2), fromA, cfg.engine)
        + MoveDelta(Move(toA, cfg.engine, receiver, net), fromA, cfg.engine);
    assert Balance(t, toA, cfg.engine) == Balance(s, toA, cfg.engine)
        + MoveDelta(Move(fromA, sender, cfg.engine, amountIn), toA, cfg.engine)
        + MoveDelta(Move(fromA, cfg.engine, cfg.feeTo, fee1), toA, cfg.engine)
        + MoveDelta(Move(fromA, cfg.engine, router, req), toA, cfg.engine)
        + MoveDelta(Move(toA, router, cfg.engine, routerOut), toA, cfg.engine)
        + MoveDelta(Move(toA, cfg.engine, cfg.feeTo, fee2), toA, cfg.engine)
        + MoveDelta(Move(toA, cfg.engine, receiver, net), toA, cfg.engine);
  }

  /** At the deployed default percentage the fee is one thousandth of the input (TokenIn) or of the output (TokenOut), and nothing on the other side. */
  lemma DefaultFees(cfg: Config, amountIn: nat, amountOut: nat, dir: FeeCalcDirection)
    requires cfg.feePercentage == DEFAULT_FEE_PERCENTAGE
    ensures InputFee(cfg, amountIn, dir) == (if dir == TokenIn then amountIn / 1000 else 0)
    ensures OutputFee(cfg, amountOut, dir) == (if dir == TokenOut then amountOut / 1000 else 0)
  {
    DefaultFeeIsOneThousandth(amountIn);
    DefaultFeeIsOneThousandth(amountOut);
  }

  /** The call's input word names the amount the engine forwards (always so for a native input). */
  predicate AsksForwarded(cfg: Config, p: SwapParams) {
    AssetOf(p.fromToken).Native? || (|p.data| >= 4 + WORD_SIZE && WordToNat(p.data[4..4 + WORD_SIZE]) == Forwarded(cfg, p))
  }

  /**
   * The TokenIn tests at the default percentage: the fee recipient gets
   * amountIn / 1000 of the from-token and nothing of the to-token, the
   * receiver gets the router's whole output, which the event reports, and
   * the engine keeps none of the to-token and, of the from-token, what the
   * router did not ask for: none when the call asks for the forwarded amount.
   */
  lemma SwapTokenInAtDefault(cfg: Config, s: State, sender: Address, value: nat, p: SwapParams)
    requires SwapOutcome(cfg, s, sender, value, p).Success?
    requires cfg.feePercentage == DEFAULT_FEE_PERCENTAGE && p.feeCalcDirection == TokenIn
    requires AssetOf(p.fromToken) != AssetOf(p.toToken)
    requires p.dexFlag in cfg.registry && SeparateParties(cfg, sender, p.receiverAddress, cfg.registry[p.dexFlag])
    ensures Requested(AssetOf(p.fromToken), p.data, Forwarded(cfg, p)).Success?
    ensures var t, ev := SwapOutcome(cfg, s, sender, value, p).value.0, SwapOutcome(cfg, s, sender, value, p).value.1;
      var fromA, toA := AssetOf(p.fromToken), AssetOf(p.toToken);
      var out := RouterOut(cfg.presets, cfg.registry[p.dexFlag]);
      var req := Requested(fromA, p.data, Forwarded(cfg, p)).value;
      && ev.amountIn == p.amountIn && ev.amountOut == out
      && Balance(t, fromA, sender) + p.amountIn == Balance(s, fromA, sender)
      && Balance(t, fromA, cfg.feeTo) == Balance(s, fromA, cfg.feeTo) + p.amountIn / 1000
      && Balance(t, toA, cfg.feeTo) == Balance(s, toA, cfg.feeTo)
      && Balance(t, toA, p.receiverAddress) == Balance(s, toA, p.receiverAddress) + out
      && Balance(t, fromA, cfg.engine) + req == Balance(s, fromA, cfg.engine) + Forwarded(cfg, p)
      && (AsksForwarded(cfg, p) ==> Balance(t, fromA, cfg.engine) == Balance(s, fromA, cfg.engine))
      && Balance(t, toA, cfg.engine) == Balance(s, toA, cfg.engine)
  {
    SwapBalances(cfg, s, sender, value, p);
    DefaultFees(cfg, p.amountIn, RouterOut(cfg.presets, cfg.registry[p.dexFlag]), TokenIn);
  }

  /**
   * The TokenOut tests at the default percentage: the fee recipient gets
   * out / 1000 of the to-token and nothing of the from-token, the receiver
   * and the event get the rest of the router's output, and the engine keeps
   * none of the to-token and, of the from-token, what the router did not ask
   * for: none when the call asks for the whole input.
   */
  lemma SwapTokenOutAtDefault(cfg: Config, s: State, sender: Address, value: nat, p: SwapParams)
    requires SwapOutcome(cfg, s, sender, value, p).Success?
    requires cfg.feePercentage == DEFAULT_FEE_PERCENTAGE && p.feeCalcDirection == TokenOut
    requires AssetOf(p.fromToken) != AssetOf(p.toToken)
    requires p.dexFlag in cfg.registry && SeparateParties(cfg, sender, p.receiverAddress, cfg.registry[p.dexFlag])
    ensures Requested(AssetOf(p.fromToken), p.data, Forwarded(cfg, p)).Success?
    ensures var t, ev := SwapOutcome(cfg, s, sender, value, p).value.0, SwapOutcome(cfg, s, sender, value, p).value.1;
      var fromA, toA := AssetOf(p.fromToken), AssetOf(p.toToken);
      var out := RouterOut(cfg.presets, cfg.registry[p.dexFlag]);
      var req := Requested(fromA, p.data, Forwarded(cfg, p)).value;
      && ev.amountIn == p.amountIn && ev.amountOut == out - out / 1000
      && Balance(t, fromA, sender) + p.amountIn == Balance(s, fromA, sender)
      && Balance(t, fromA, cfg.feeTo) == Balance(s, fromA, cfg.feeTo)
      && Balance(t, toA, cfg.feeTo) == Balance(s, toA, cfg.feeTo) + out / 1000
      && Balance(t, toA, p.receiverAddress) == Balance(s, toA, p.receiverAddress) + (out - out / 1000)
      && Balance(t, fromA, cfg.engine) + req == Balance(s, fromA, cfg.engine) + Forwarded(cfg, p)
      && (AsksForwarded(cfg, p) ==> Balance(t, fromA, cfg.engine) == Balance(s, fromA, cfg.engine))
      && Balance(t, toA, cfg.engine) == Balance(s, toA, cfg.engine)
  {
    SwapBalances(cfg, s, sender, value, p);
    DefaultFees(cfg, p.amountIn, RouterOut(cfg.presets, cfg.registry[p.dexFlag]), TokenOut);
  }

  // ---------------------------------------------------------------------
  // The hop loop
  // ---------------------------------------------------------------------

  /** A hop whose router takes exactly the running amount: a native input, or a token call whose first word is replaced. */
  predicate ExactHop(h: CallInfo) {
    (AssetOf(h.fromToken).Native? || (h.isReplace && h.index == 0)) && AssetOf(h.fromToken) != AssetOf(h.toToken)
  }

  /** A template of the shape `splitTransaction` builds is an exact hop exactly when its two tokens name different assets. */
  lemma TemplateExactHop(h: CallInfo)
    requires AssetOf(h.fromToken).Native? || (h.isReplace && h.index == 0)
    ensures ExactHop(h) <==> AssetOf(h.fromToken) != AssetOf(h.toToken)
  {
  }

  /** Every hop starts in the asset the previous hop ended in. */
  predicate Chained(hops: seq<CallInfo>) {
    forall i :: 0 < i < |hops| ==> AssetOf(hops[i].fromToken) == AssetOf(hops[i - 1].toToken)
  }

  /** Every preset output fits one 256-bit word. */
  predicate WordPresets(cfg: Config) {
    forall r :: r in cfg.presets ==> cfg.presets[r] < TWO_256
  }

  /** The hop-loop lemmas' setting: exact hops, chained assets, word-sized presets, and the engine not a router. */
  predicate ExactChain(cfg: Config, hops: seq<CallInfo>) {
    && (forall i :: 0 <= i < |hops| ==> ExactHop(hops[i]))
    && Chained(hops) && WordPresets(cfg) && cfg.engine !in Routers(cfg)
  }

  /**
   * One exact hop: its router takes the running amount and pays its preset
   * output, which is what the engine measures.
   */
  lemma HopExact(cfg: Config, s: State, h: CallInfo, amount: nat)
    requires Hop(cfg, s, h, amount).Success?
    requires ExactHop(h) && amount < TWO_256 && cfg.engine !in Routers(cfg)
    ensures h.dexFlag in cfg.registry
    ensures var router := cfg.registry[h.dexFlag];
      var fromA, toA := AssetOf(h.fromToken), AssetOf(h.toToken);
      var r := Hop(cfg, s, h, amount).value;
      && r.1 == RouterOut(cfg.presets, router)
      && forall b, w :: (Balance(r.0, b, w) == Balance(s, b, w)
        + MoveDelta(Move(fromA, cfg.engine, router, amount), b, w)
        + MoveDelta(Move(toA, router, cfg.engine, RouterOut(cfg.presets, router)), b, w))
  {
    var router := cfg.registry[h.dexFlag];
    var fromA, toA := AssetOf(h.fromToken), AssetOf(h.toToken);
    var data := HopCallData(h, amount).value;
    CallRouterFlow(cfg, s, router, fromA, toA, data, amount);
    if !fromA.Native? {
      SpliceInjectsAmount(h, amount);
      assert WordOf(data, 0) == data[4..4 + WORD_SIZE];
    }
  }

  /** The conditions of the hop-loop lemmas carry over from a chain of hops to its tail. */
  lemma ChainTail(cfg: Config, hops: seq<CallInfo>)
    requires |hops| > 1 && ExactChain(cfg, hops)
    ensures ExactChain(cfg, hops[1..])
    ensures AssetOf(hops[1..][0].fromToken) == AssetOf(hops[0].toToken)
    ensures hops[1..][|hops[1..]| - 1] == hops[|hops| - 1]
  {
    var rest := hops[1..];
    forall i | 0 <= i < |rest| ensures ExactHop(rest[i]) { assert rest[i] == hops[i + 1]; }
    forall i | 0 < i < |rest| ensures AssetOf(rest[i].fromToken) == AssetOf(rest[i - 1].toToken) {
      assert rest[i] == hops[i + 1] && rest[i - 1] == hops[i];
    }
  }

  /** An exact hop's output fits a word when the presets do. */
  lemma HopOutputIsWord(cfg: Config, s: State, h: CallInfo, amount: nat)
    requires Hop(cfg, s, h, amount).Success?
    requires ExactHop(h) && amount < TWO_256 && cfg.engine !in Routers(cfg) && WordPresets(cfg)
    ensures Hop(cfg, s, h, amount).value.1 < TWO_256
  {
    HopExact(cfg, s, h, amount);
    var router := cfg.registry[h.dexFlag];
    if router in cfg.presets { assert cfg.presets[router] < TWO_256; }
  }

  /**
   * Over a chain of exact hops the output of the loop is the last router's
   * preset output: each hop is fed what the one before it measured, not the
   * amount its own template was built with.
   */
  lemma {:induction false} RunHopsOutput(cfg: Config, s: State, hops: seq<CallInfo>, amount: nat)
    requires hops != [] && RunHops(cfg, s, hops, amount).Success?
    requires ExactChain(cfg, hops) && amount < TWO_256
    ensures hops[|hops| - 1].dexFlag in cfg.registry
    ensures RunHops(cfg, s, hops, amount).value.1 == RouterOut(cfg.presets, cfg.registry[hops[|hops| - 1].dexFlag])
    decreases |hops|
  {
    HopExact(cfg, s, hops[0], amount);
    var stepped := Hop(cfg, s, hops[0], amount).value;
    if |hops| == 1 {
      assert RunHops(cfg, stepped.0, hops[1..], stepped.1) == Success(stepped);
    } else {
      ChainTail(cfg, hops);
      HopOutputIsWord(cfg, s, hops[0], amount);
      RunHopsOutput(cfg, stepped.0, hops[1..], stepped.1);
    }
  }

  /**
   * The hop loop's accounting on the engine: over a chain of exact hops the
   * engine gives up the running amount in the first hop's from-asset and
   * ends with the loop's output in the last hop's to-asset, so every
   * intermediate asset passes through without residue.
   */
  lemma {:induction false} RunHopsEngineFlow(cfg: Config, s: State, hops: seq<CallInfo>, amount: nat)
    requires hops != [] && RunHops(cfg, s, hops, amount).Success?
    requires ExactChain(cfg, hops) && amount < TWO_256
    ensures var r := RunHops(cfg, s, hops, amount).value;
      forall b :: (Balance(r.0, b, cfg.engine) + (if b == AssetOf(hops[0].fromToken) then amount else 0)
                == Balance(s, b, cfg.engine) + (if b == AssetOf(hops[|hops| - 1].toToken) then r.1 else 0))
    decreases |hops|
  {
    var stepped := Hop(cfg, s, hops[0], amount).value;
    HopEngineDelta(cfg, s, hops[0], amount);
    assert RunHops(cfg, s, hops, amount) == RunHops(cfg, stepped.0, hops[1..], stepped.1);
    if |hops| > 1 {
      ChainTail(cfg, hops);
      HopOutputIsWord(cfg, s, hops[0], amount);
      RunHopsEngineFlow(cfg, stepped.0, hops[1..], stepped.1);
    }
  }

  /** One exact hop, seen from the engine: the running amount of the from-asset out, the measured output of the to-asset in. */
  lemma HopEngineDelta(cfg: Config, s: State, h: CallInfo, amount: nat)
    requires Hop(cfg, s, h, amount).Success?
    requires ExactHop(h) && amount < TWO_256 && cfg.engine !in Routers(cfg)
    ensures var r := Hop(cfg, s, h, amount).value;
      forall b :: (Balance(r.0, b, cfg.engine) + (if b == AssetOf(h.fromToken) then amount else 0)
                == Balance(s, b, cfg.engine) + (if b == AssetOf(h.toToken) then r.1 else 0))
  {
    HopExact(cfg, s, h, amount);
    var router := cfg.registry[h.dexFlag];
    assert router in Routers(cfg);
    var r := Hop(cfg, s, h, amount).value;
    var m1 := Move(AssetOf(h.fromToken), cfg.engine, router, amount);
    var m2 := Move(AssetOf(h.toToken), router, cfg.engine, RouterOut(cfg.presets, router));
    forall b ensures Balance(r.0, b, cfg.engine) + (if b == AssetOf(h.fromToken) then amount else 0)
                == Balance(s, b, cfg.engine) + (if b == AssetOf(h.toToken) then r.1 else 0)
    {
      assert Balance(r.0, b, cfg.engine) == Balance(s, b, cfg.engine) + MoveDelta(m1, b, cfg.engine) + MoveDelta(m2, b, cfg.engine);
    }
  }


  /** The hop loop touches no account but the engine's and the routers'. */
  lemma {:induction false} RunHopsTouchesOnlyRouters(cfg: Config, s: State, hops: seq<CallInfo>, amount: nat)
    requires RunHops(cfg, s, hops, amount).Success?
    ensures forall b, w :: w != cfg.engine && w !in Routers(cfg) ==>
      Balance(RunHops(cfg, s, hops, amount).value.0, b, w) == Balance(s, b, w)
    decreases |hops|
  {
    if hops != [] {
      var router := cfg.registry[hops[0].dexFlag];
      assert router in Routers(cfg);
      var stepped := Hop(cfg, s, hops[0], amount).value;
      var data := HopCallData(hops[0], amount).value;
      CallRouterFlow(cfg, s, router, AssetOf(hops[0].fromToken), AssetOf(hops[0].toToken), data, amount);
      RunHopsTouchesOnlyRouters(cfg, stepped.0, hops[1..], stepped.1);
    }
  }

  /** The hop loop, outside the engine and the routers: no moves at all. */
  lemma RunHopsOutsideMoved(cfg: Config, s: State, hops: seq<CallInfo>, amount: nat)
    requires RunHops(cfg, s, hops, amount).Success?
    ensures MovedOutside(s, RunHops(cfg, s, hops, amount).value.0, [], Routers(cfg) + {cfg.engine})
  {
    RunHopsTouchesOnlyRouters(cfg, s, hops, amount);
  }

  // ---------------------------------------------------------------------
  // crossDexSwap accounting
  // ---------------------------------------------------------------------

  /** The conditions under which the tests' cross-dex balance checks hold: exact, chained hops, word-sized amounts, and the caller, the receiver and the fee recipient apart from the engine and the routers. */
  predicate CrossDexSetting(cfg: Config, sender: Address, p: CrossDexParams) {
    && p.swapList != []
    && ExactChain(cfg, p.swapList) && p.amountIn < TWO_256
    && cfg.feeTo !in Routers(cfg) && sender !in Routers(cfg) && p.receiverAddress !in Routers(cfg)
    && cfg.engine != sender && cfg.engine != p.receiverAddress && cfg.engine != cfg.feeTo
  }

  /** The stages of a successful `crossDexSwap`: entry, the hop loop and the payouts all go through, and the outcome is the payouts' state with the event. */
  lemma CrossDexStages(cfg: Config, s: State, sender: Address, value: nat, p: CrossDexParams)
    requires CrossDexOutcome(cfg, s, sender, value, p).Success?
    ensures p.swapList != []
    ensures var first, last := p.swapList[0], p.swapList[|p.swapList| - 1];
      var dir := p.feeCalcDirection;
      && value == ExpectedValue(first.fromToken, p.amountIn)
      && Enter(cfg, s, sender, value, AssetOf(first.fromToken), p.amountIn, dir).Success?
      && var entered := Enter(cfg, s, sender, value, AssetOf(first.fromToken), p.amountIn, dir).value;
      && RunHops(cfg, entered.0, p.swapList, entered.1).Success?
      && var hopped := RunHops(cfg, entered.0, p.swapList, entered.1).value;
      && Settle(cfg, hopped.0, AssetOf(last.toToken), hopped.1, dir, p.minAmountOut, p.receiverAddress).Success?
      && var settled := Settle(cfg, hopped.0, AssetOf(last.toToken), hopped.1, dir, p.minAmountOut, p.receiverAddress).value;
      CrossDexOutcome(cfg, s, sender, value, p).value
        == (settled.0, SwapSucceedEvent(sender, Normalize(first.fromToken), Normalize(last.toToken), p.receiverAddress, p.amountIn, settled.1))
  {
  }

  /** The event of a successful `crossDexSwap` names the caller, the first from-token, the last to-token, the receiver and the input. */
  lemma CrossDexEvent(cfg: Config, s: State, sender: Address, value: nat, p: CrossDexParams)
    requires CrossDexOutcome(cfg, s, sender, value, p).Success?
    ensures p.swapList != []
    ensures var first, last := p.swapList[0], p.swapList[|p.swapList| - 1];
      var ev := CrossDexOutcome(cfg, s, sender, value, p).value.1;
      ev == SwapSucceedEvent(sender, Normalize(first.fromToken), Normalize(last.toToken), p.receiverAddress, p.amountIn, ev.amountOut)
  {
    CrossDexStages(cfg, s, sender, value, p);
  }

  /** Settling what a chain of exact hops measured pays out the last router's preset output less the output fee. */
  lemma HopsSettleNet(cfg: Config, s: State, hops: seq<CallInfo>, amount: nat, dir: FeeCalcDirection, minAmountOut: nat, receiver: Address)
    requires hops != [] && RunHops(cfg, s, hops, amount).Success?
    requires ExactChain(cfg, hops) && amount < TWO_256
    requires var hopped := RunHops(cfg, s, hops, amount).value;
      Settle(cfg, hopped.0, AssetOf(hops[|hops| - 1].toToken), hopped.1, dir, minAmountOut, receiver).Success?
    ensures hops[|hops| - 1].dexFlag in cfg.registry
    ensures var out := RouterOut(cfg.presets, cfg.registry[hops[|hops| - 1].dexFlag]);
      var hopped := RunHops(cfg, s, hops, amount).value;
      Settle(cfg, hopped.0, AssetOf(hops[|hops| - 1].toToken), hopped.1, dir, minAmountOut, receiver).value.1 + OutputFee(cfg, out, dir) == out
  {
    RunHopsOutput(cfg, s, hops, amount);
  }

  /** The event's amount and the output fee make up the last router's preset output. */
  lemma CrossDexNetOutput(cfg: Config, s: State, sender: Address, value: nat, p: CrossDexParams)
    requires CrossDexOutcome(cfg, s, sender, value, p).Success?
    requires CrossDexSetting(cfg, sender, p)
    ensures p.swapList[|p.swapList| - 1].dexFlag in cfg.registry
    ensures var out := RouterOut(cfg.presets, cfg.registry[p.swapList[|p.swapList| - 1].dexFlag]);
      CrossDexOutcome(cfg, s, sender, value, p).value.1.amountOut + OutputFee(cfg, out, p.feeCalcDirection) == out
  {
    CrossDexStages(cfg, s, sender, value, p);
    var entered := Enter(cfg, s, sender, value, AssetOf(p.swapList[0].fromToken), p.amountIn, p.feeCalcDirection).value;
    HopsSettleNet(cfg, entered.0, p.swapList, entered.1, p.feeCalcDirection, p.minAmountOut, p.receiverAddress);
  }

  /** The hop loop's accounting on the engine, as an exchange of the fed amount for the loop's output. */
  lemma RunHopsEngineExchange(cfg: Config, s: State, hops: seq<CallInfo>, amount: nat)
    requires hops != [] && RunHops(cfg, s, hops, amount).Success?
    requires ExactChain(cfg, hops) && amount < TWO_256
    ensures var r := RunHops(cfg, s, hops, amount).value;
      Exchanged(s, r.0, cfg.engine, AssetOf(hops[0].fromToken), amount, AssetOf(hops[|hops| - 1].toToken), r.1)
  {
    RunHopsEngineFlow(cfg, s, hops, amount);
  }

  /** A successful `crossDexSwap` leaves the engine with what it had of every asset. */
  lemma CrossDexEngineKept(cfg: Config, s: State, sender: Address, value: nat, p: CrossDexParams)
    requires CrossDexOutcome(cfg, s, sender, value, p).Success?
    requires CrossDexSetting(cfg, sender, p)
    ensures forall b :: Balance(CrossDexOutcome(cfg, s, sender, value, p).value.0, b, cfg.engine) == Balance(s, b, cfg.engine)
  {
    CrossDexStages(cfg, s, sender, value, p);
    var first, last := p.swapList[0], p.swapList[|p.swapList| - 1];
    var fromA, toA, dir := AssetOf(first.fromToken), AssetOf(last.toToken), p.feeCalcDirection;
    var entered := Enter(cfg, s, sender, value, fromA, p.amountIn, dir).value;
    var hopped := RunHops(cfg, entered.0, p.swapList, entered.1).value;
    var settled := Settle(cfg, hopped.0, toA, hopped.1, dir, p.minAmountOut, p.receiverAddress).value;
    EnterEngine(cfg, s, sender, value, first.fromToken, p.amountIn, dir);
    RunHopsEngineExchange(cfg, entered.0, p.swapList, entered.1);
    SettleEngine(cfg, hopped.0, toA, hopped.1, dir, p.minAmountOut, p.receiverAddress);
    ComposeEngine(cfg.engine, s, entered.0, hopped.0, settled.0, fromA, toA, entered.1, hopped.1);
  }

  /** The engine's balances across entry, a hop loop and the payouts: the forwarded amount comes and goes, and so does the output. */
  lemma ComposeEngine(engine: Address, s: State, e: State, h: State, f: State, fromA: Asset, toA: Asset, forwarded: nat, out: nat)
    requires Exchanged(s, e, engine, fromA, 0, fromA, forwarded)
    requires Exchanged(e, h, engine, fromA, forwarded, toA, out)
    requires Exchanged(h, f, engine, toA, out, toA, 0)
    ensures forall b :: Balance(f, b, engine) == Balance(s, b, engine)
  {
    forall b ensures Balance(f, b, engine) == Balance(s, b, engine) {
      assert Balance(e, b, engine) == Balance(s, b, engine) + (if b == fromA then forwarded else 0);
      assert Balance(h, b, engine) + (if b == fromA then forwarded else 0) == Balance(e, b, engine) + (if b == toA then out else 0);
    }
  }

  /** Outside the engine and the routers, a successful `crossDexSwap` is four transfers: the input, the input fee, the output fee and the event's amount to the receiver. */
  lemma CrossDexOutside(cfg: Config, s: State, sender: Address, value: nat, p: CrossDexParams)
    requires CrossDexOutcome(cfg, s, sender, value, p).Success?
    requires CrossDexSetting(cfg, sender, p)
    ensures p.swapList[|p.swapList| - 1].dexFlag in cfg.registry
    ensures var first, last := p.swapList[0], p.swapList[|p.swapList| - 1];
      var fromA, toA := AssetOf(first.fromToken), AssetOf(last.toToken);
      var out := RouterOut(cfg.presets, cfg.registry[last.dexFlag]);
      var r := CrossDexOutcome(cfg, s, sender, value, p).value;
      MovedOutside(s, r.0, [Move(fromA, sender, cfg.engine, p.amountIn),
                            Move(fromA, cfg.engine, cfg.feeTo, InputFee(cfg, p.amountIn, p.feeCalcDirection)),
                            Move(toA, cfg.engine, cfg.feeTo, OutputFee(cfg, out, p.feeCalcDirection)),
                            Move(toA, cfg.engine, p.receiverAddress, r.1.amountOut)], Routers(cfg) + {cfg.engine})
  {
    CrossDexStages(cfg, s, sender, value, p);
    var first, last := p.swapList[0], p.swapList[|p.swapList| - 1];
    var fromA, toA := AssetOf(first.fromToken), AssetOf(last.toToken);
    var dir := p.feeCalcDirection;
    var entered := Enter(cfg, s, sender, value, fromA, p.amountIn, dir).value;
    var hopped := RunHops(cfg, entered.0, p.swapList, entered.1).value;
    var settled := Settle(cfg, hopped.0, toA, hopped.1, dir, p.minAmountOut, p.receiverAddress).value;
    EnterMoved(cfg, s, sender, value, first.fromToken, p.amountIn, dir);
    RunHopsOutput(cfg, entered.0, p.swapList, entered.1);
    RunHopsOutsideMoved(cfg, entered.0, p.swapList, entered.1);
    SettleMoved(cfg, hopped.0, toA, hopped.1, dir, p.minAmountOut, p.receiverAddress);
    MovedAround(s, entered.0, hopped.0, settled.0,
      Move(fromA, sender, cfg.engine, p.amountIn), Move(fromA, cfg.engine, cfg.feeTo, InputFee(cfg, p.amountIn, dir)),
      Move(toA, cfg.engine, cfg.feeTo, OutputFee(cfg, hopped.1, dir)), Move(toA, cfg.engine, p.receiverAddress, settled.1),
      Routers(cfg) + {cfg.engine});
  }

  /** What the four outside transfers of a cross-dex swap give each party, for two distinct assets and parties apart from each other. */
  lemma FourMovesPoints(cfg: Config, s: State, t: State, sender: Address, receiver: Address, fromA: Asset, toA: Asset,
                        amountIn: nat, fee1: nat, fee2: nat, net: nat)
    requires MovedOutside(s, t, [Move(fromA, sender, cfg.engine, amountIn), Move(fromA, cfg.engine, cfg.feeTo, fee1),
                                 Move(toA, cfg.engine, cfg.feeTo, fee2), Move(toA, cfg.engine, receiver, net)], Routers(cfg) + {cfg.engine})
    requires fromA != toA && sender !in Routers(cfg) && receiver !in Routers(cfg) && cfg.feeTo !in Routers(cfg)
    requires cfg.engine != sender && cfg.engine != receiver && cfg.engine != cfg.feeTo && cfg.feeTo != sender && cfg.feeTo != receiver
    ensures Balance(t, fromA, sender) + amountIn == Balance(s, fromA, sender)
    ensures Balance(t, fromA, cfg.feeTo) == Balance(s, fromA, cfg.feeTo) + fee1
    ensures Balance(t, toA, cfg.feeTo) == Balance(s, toA, cfg.feeTo) + fee2
    ensures Balance(t, toA, receiver) == Balance(s, toA, receiver) + net
    ensures forall b, w :: b != fromA && b != toA && w != cfg.engine && w !in Routers(cfg) ==> Balance(t, b, w) == Balance(s, b, w)
  {
    var m1, m2 := Move(fromA, sender, cfg.engine, amountIn), Move(fromA, cfg.engine, cfg.feeTo, fee1);
    var m3, m4 := Move(toA, cfg.engine, cfg.feeTo, fee2), Move(toA, cfg.engine, receiver, net);
    forall b, w ensures Flow([m1, m2, m3, m4], b, w) == MoveDelta(m1, b, w) + MoveDelta(m2, b, w) + MoveDelta(m3, b, w) + MoveDelta(m4, b, w) {
      FlowFour(m1, m2, m3, m4, b, w);
    }
    assert Balance(t, fromA, sender) + amountIn == Balance(s, fromA, sender);
    assert Balance(t, fromA, cfg.feeTo) == Balance(s, fromA, cfg.feeTo) + fee1;
  }

  /**
   * The balance checks of the cross-dex tests: the caller pays `amountIn`
   * of the first from-token, the fee recipient gets the input fee of it and
   * the output fee of the last to-token, the receiver gets the event's
   * `amountOut`, and the engine keeps nothing of any asset; the event's
   * amount and the output fee make up the last router's preset output.
   */
  lemma CrossDexBalances(cfg: Config, s: State, sender: Address, value: nat, p: CrossDexParams)
    requires CrossDexOutcome(cfg, s, sender, value, p).Success?
    requires CrossDexSetting(cfg, sender, p)
    requires cfg.feeTo != sender && cfg.feeTo != p.receiverAddress
    requires AssetOf(p.swapList[0].fromToken) != AssetOf(p.swapList[|p.swapList| - 1].toToken)
    ensures p.swapList[|p.swapList| - 1].dexFlag in cfg.registry
    ensures var first, last := p.swapList[0], p.swapList[|p.swapList| - 1];
      var fromA, toA := AssetOf(first.fromToken), AssetOf(last.toToken);
      var out := RouterOut(cfg.presets, cfg.registry[last.dexFlag]);
      var t, ev := CrossDexOutcome(cfg, s, sender, value, p).value.0, CrossDexOutcome(cfg, s, sender, value, p).value.1;
      && ev.amountOut + OutputFee(cfg, out, p.feeCalcDirection) == out
      && Balance(t, fromA, sender) + p.amountIn == Balance(s, fromA, sender)
      && Balance(t, fromA, cfg.feeTo) == Balance(s, fromA, cfg.feeTo) + InputFee(cfg, p.amountIn, p.feeCalcDirection)
      && Balance(t, toA, cfg.feeTo) == Balance(s, toA, cfg.feeTo) + OutputFee(cfg, out, p.feeCalcDirection)
      && Balance(t, toA, p.receiverAddress) == Balance(s, toA, p.receiverAddress) + ev.amountOut
      && (forall b :: Balance(t, b, cfg.engine) == Balance(s, b, cfg.engine))
      && (forall b, w :: b != fromA && b != toA && w != cfg.engine && w !in Routers(cfg) ==> Balance(t, b, w) == Balance(s, b, w))
  {
    CrossDexNetOutput(cfg, s, sender, value, p);
    CrossDexEngineKept(cfg, s, sender, value, p);
    CrossDexOutside(cfg, s, sender, value, p);
    var first, last := p.swapList[0], p.swapList[|p.swapList| - 1];
    var out := RouterOut(cfg.presets, cfg.registry[last.dexFlag]);
    var r := CrossDexOutcome(cfg, s, sender, value, p).value;
    FourMovesPoints(cfg, s, r.0, sender, p.receiverAddress, AssetOf(first.fromToken), AssetOf(last.toToken), p.amountIn,
      InputFee(cfg, p.amountIn, p.feeCalcDirection), OutputFee(cfg, out, p.feeCalcDirection), r.1.amountOut);
  }
}
