# CrowdSwap V3 test harness and engine behaviour, in Dafny

This project models the CrowdSwap V3 aggregator's test code, and the engine
behaviour those tests pin down. The engine itself is Solidity and is not part
of this model. Its behaviour is rebuilt from what the tests set up and assert.
The model has three parts.

- **The test router helper** (`UniswapV2Mock`, in `uniswap_mock.dfy`):
  - the flag lookup at construction, and `create` presetting the router's output;
  - `getSwapType` and `getPositionOfAmountIn`;
  - the `amountOutMin`, value and path choice of `getTransaction`;
  - `splitTransaction`, which cuts encoded call data into a `CallInfo` template:
    a 4-byte selector, 32-byte words, the word index of the input amount and an
    `isReplace` flag.

  `call_builder.dfy` holds the engine's counterpart, the splice. It writes the
  running amount into the word at `index` as a 32-byte big-endian number.
  `bytes.dfy` holds the hex decoding and the big-endian words it needs.
- **Ledger helpers** (`ethereum_util.dfy`): `isNetworkCoin`, `uniBalanceOf` and
  `setupTokensAndApprove`. They work over a ledger of per-asset, per-account
  balances and allowances (`ledger.dfy`). A `Chain` object holds that ledger
  and the routers' preset outputs.
- **The engine as the tests see it**:
  - `swap_engine.dfy` defines `swap` and `crossDexSwap` as outcome functions.
    Each returns an error tag, or the new ledger with the `SwapSucceedEvent`.
  - `swap_lemmas.dfy` proves what the tests assert: which calls revert and with
    which reason, where every token goes, and how the hops are chained.
  - `crowdswap.dfy` holds the deployed object `CrowdSwapV3` (fee recipient,
    default fee, affiliate table, dex registry). Its `Swap` and `CrossDexSwap`
    methods apply the steps to the chain one by one, and the hop loop is a
    `while` loop. Each method is proved equal to its outcome function.

Fees follow the code and the tests. A percentage of 1e18 stands for 1%, and
the fee is floor(amount × percentage / 1e20). The deployed default is 1e17,
which the fixture comments as "0.1%" (crowdswapV3-fixture.ts:35), and the
tests expect a fee of `amount / 1000` (crowdswapV3.spec.ts:95). Reading 1e18
as 100% would make the default take `amount / 10`, which matches neither.

The router is abstract.
- It takes the forwarded native value for a native input. For a token input it
  takes the first 32-byte word after the selector, as the Uniswap V2
  `swapExact…` functions do. It reverts when that is more than the engine
  forwards.
- It pays its preset output of the hop's to-asset to the engine.
- The engine measures the output as its own balance change in that asset.

Error tags and the revert reasons they stand for:

| tag | reason |
|---|---|
| `SameFromAndToToken` | "fromToken should not be equal with toToken" |
| `IncorrectEthValue` | "Incorrect ETH value sent" |
| `UnsupportedDexFlag` | "unsupported dex flag" |
| `SwapListEmpty` | "Swap List is empty" |
| `AmountOutIsZero` | "amount out is 0" |
| `MinimumAmountNotMet` | "Minimum amount not met" |
| `TemplateMalformed`, `RouterReverted`, `TransferFailed`, `Underflow` | reverts of the underlying call or transfer |

## Model

| member | source | states |
|---|---|---|
| EthereumUtil.Normalize | test/swap/crowdswapV3/utils/ethereum-util.ts:9 | the normalised address has the same length, and each character is the lower-case form of the input's |
| EthereumUtil.NormalizeEqualIff | test/swap/crowdswapV3/utils/ethereum-util.ts:9-12 | two addresses normalise to the same string exactly when they are equal ignoring letter case |
| EthereumUtil.NormalizeIdempotent | test/swap/crowdswapV3/utils/ethereum-util.ts:9-12 | normalising twice is normalising once, so comparing addresses that are already normalised is safe |
| EthereumUtil.NetworkCoinExactly | test/swap/crowdswapV3/utils/ethereum-util.ts:8-14 | `isNetworkCoin` holds exactly for 0x…1010 and 0xEeee…EEeE, ignoring case, and for no other address |
| EthereumUtil.NetworkCoinIgnoresCase | test/swap/crowdswapV3/utils/ethereum-util.ts:9-12 | two addresses equal up to case are both network coins or both not |
| EthereumUtil.IsNetworkCoin | test/swap/crowdswapV3/utils/ethereum-util.ts:8-14 | both sides normalised, then compared with the two sentinels; NetworkCoinExactly and NetworkCoinIgnoresCase state what that means |
| EthereumUtil.AssetOf | test/swap/crowdswapV3/utils/ethereum-util.ts:50-63 | a network-coin address names the native coin, any other address the ERC20 at its normalised address; AssetOfIgnoresCase and TokenAsset state its properties |
| EthereumUtil.AssetOfIgnoresCase | test/swap/crowdswapV3/utils/ethereum-util.ts:9-12 | the ledger asset an address names does not depend on letter case |
| EthereumUtil.TokenAsset | test/swap/crowdswapV3/utils/ethereum-util.ts:54-62 | a token has a readable balance exactly when it is a plain address that is a network coin, or a token contract that is not one; the asset is then the one its address names |
| EthereumUtil.UniBalanceOf | test/swap/crowdswapV3/utils/ethereum-util.ts:50-63 | the native balance for a network-coin address, `balanceOf` for a non-native token contract, nothing in the other two cases |
| EthereumSetup.Fundings | test/swap/crowdswapV3/utils/ethereum-util.ts:32-35 | one funding record per dex, in order, holding the dex's router, to-token and `amountOut` |
| EthereumSetup.PrepareOwner | test/swap/crowdswapV3/utils/ethereum-util.ts:22-29 | for a non-native token contract, the owner gains exactly `ownerAmountIn` of it and the engine's allowance from the owner becomes `ownerAmountIn`, with nothing else changed; otherwise nothing changes |
| EthereumSetup.PrepareOwnerOnChain | test/swap/crowdswapV3/utils/ethereum-util.ts:22-29 | the chain's ledger becomes the owner preparation's, and the routers' presets are unchanged |
| EthereumSetup.FundRouterEffect | test/swap/crowdswapV3/utils/ethereum-util.ts:37-45 | funding one router leaves allowances alone and credits the router with exactly `amountOut` of the to-token (minted, or sent by the owner for native); it fails only on a native send the owner cannot cover |
| EthereumSetup.FundAllEffect | test/swap/crowdswapV3/utils/ethereum-util.ts:31-47 | allowances are untouched, and when every send succeeds each balance ends at its old value plus the routers' credits, less the owner's native sends |
| EthereumSetup.FundAllFails | test/swap/crowdswapV3/utils/ethereum-util.ts:37-40 | a failed funding round implies some dex pays out the native coin |
| EthereumSetup.FundAll | test/swap/crowdswapV3/utils/ethereum-util.ts:31-47 | every dex's router funded in list order, the flag false once a native send fails; FundAllEffect, FundAllFails and FundAllStep state its properties |
| EthereumSetup.SetupSpec | test/swap/crowdswapV3/utils/ethereum-util.ts:16-48 | the owner preparation, then FundAll over the dexes; SetupTokensAndApprove is proved to compute it |
| EthereumSetup.FundAllStep | test/swap/crowdswapV3/utils/ethereum-util.ts:31-47 | funding the dexes from position i on is funding dex i, then the rest |
| EthereumSetup.FundDex | test/swap/crowdswapV3/utils/ethereum-util.ts:33-45 | the chain's new ledger and the success flag are those of funding that one dex's router |
| EthereumSetup.SetupTokensAndApprove | test/swap/crowdswapV3/utils/ethereum-util.ts:16-48 | after the owner step and the loop over the dexes, the ledger and the flag are those of the specification (owner preparation, then every router funded in turn); the routers' presets are unchanged |
| Bytes.DecodeHex | test/swap/crowdswapV3/utils/uniswapV2-mock.ts:101-105 | hex decodes exactly when it has an even number of hex digits, into half as many bytes, each the value of its digit pair |
| Bytes.Arrayify | test/swap/crowdswapV3/utils/uniswapV2-mock.ts:101 | a string decodes only with a "0x" prefix, and then as its digits do |
| Bytes.DecodeEncodeHex | test/swap/crowdswapV3/utils/uniswapV2-mock.ts:101-105 | decoding the hex form of bytes gives those bytes back |
| Bytes.DecodeHexAppend | test/swap/crowdswapV3/utils/uniswapV2-mock.ts:103-106 | after an even-length prefix, the joined string decodes exactly when both parts do, into the joined bytes |
| Bytes.WordRoundTrip | test/swap/crowdswapV3/crowdswapV3.spec.ts:1383-1386 | a number below 2^256 written as a 32-byte big-endian word reads back as itself |
| Bytes.NatToWordOfWord | test/swap/crowdswapV3/utils/uniswapV2-mock.ts:104-105 | a 32-byte word read as a number and written back is the same word |
| UniswapMock.SplitCallData | test/swap/crowdswapV3/utils/uniswapV2-mock.ts:101-106 | the loop's selector and word list are those of the specification (the first 10 characters decoded, then 64-character chunks from position 10 on) |
| UniswapMock.SplitSpec | test/swap/crowdswapV3/utils/uniswapV2-mock.ts:101-106 | the selector from the first 10 characters and the 64-character chunks from position 10 on, none when `arrayify` would throw; SplitRoundTrip, SplitSelector and SplitIntoWords state what it computes |
| UniswapMock.SplitRoundTrip | test/swap/crowdswapV3/utils/uniswapV2-mock.ts:101-106 | splitting succeeds exactly when the whole call data decodes, and the selector followed by the joined words is the decoded call data |
| UniswapMock.SplitSelector | test/swap/crowdswapV3/utils/uniswapV2-mock.ts:101 | the selector is exactly the first 4 bytes of the call data |
| UniswapMock.SplitIntoWords | test/swap/crowdswapV3/utils/uniswapV2-mock.ts:104-105 | when the data after the selector is a multiple of 64 hex digits long, every word is 32 bytes, and there are (length − 10) / 64 of them |
| UniswapMock.ChunksDecode | test/swap/crowdswapV3/utils/uniswapV2-mock.ts:104-105 | the chunks from any position decode exactly when the rest of the data does, and join up to its bytes |
| UniswapMock.SpliceRebuildsCallData | test/swap/crowdswapV3/utils/uniswapV2-mock.ts:98-125 | splicing a template cut from call data, with the amount its replaced word already holds, rebuilds that call data |
| UniswapMock.UniswapV2Mock.constructor | test/swap/crowdswapV3/utils/uniswapV2-mock.ts:25-43 | every argument is stored, and the flag is the router's entry in `addressToFlag`, or none when it has no entry |
| UniswapMock.UniswapV2Mock.Create | test/swap/crowdswapV3/utils/uniswapV2-mock.ts:45-68 | a fresh helper holding the arguments, with the router's preset output set to `amountOut` and the ledger unchanged |
| UniswapMock.UniswapV2Mock.SetAmountOut | test/swap/crowdswapV3/utils/uniswapV2-mock.ts:167-170 | the helper's `amountOut` and the router's preset both become the new amount, and nothing else changes |
| UniswapMock.UniswapV2Mock.GetFromTokenAddress | test/swap/crowdswapV3/utils/uniswapV2-mock.ts:70-74 | the from-token's address, lower case for an `Address` value; GetSwapType, GetTransaction and SplitTransaction state where it is used |
| UniswapMock.UniswapV2Mock.GetToTokenAddress | test/swap/crowdswapV3/utils/uniswapV2-mock.ts:76-80 | the to-token's address, lower case for an `Address` value; GetSwapType, GetTransaction and SplitTransaction state where it is used |
| UniswapMock.UniswapV2Mock.GetSwapType | test/swap/crowdswapV3/utils/uniswapV2-mock.ts:88-96 | ETH_TO_TOKEN exactly when the from-token is native, even if the to-token is too; TOKEN_TO_ETH exactly when only the to-token is; TOKEN_TO_TOKEN otherwise |
| UniswapMock.UniswapV2Mock.GetPositionOfAmountIn | test/swap/crowdswapV3/utils/uniswapV2-mock.ts:182-220 | −1 exactly for ETH_TO_TOKEN and 0 otherwise |
| UniswapMock.UniswapV2Mock.GetTransaction | test/swap/crowdswapV3/utils/uniswapV2-mock.ts:127-166 | `amountOutMin` is floor(amountOut × 990 / 1000), so never above `amountOut`; the router function is `swapExactETHForTokens`, `swapExactTokensForETH` or `swapExactTokensForTokens` for ETH_TO_TOKEN, TOKEN_TO_ETH and TOKEN_TO_TOKEN; the value is `amountIn` exactly for ETH_TO_TOKEN; `amountIn` is an argument exactly otherwise; the path is [wrapToken, to] for ETH_TO_TOKEN and [from, to] otherwise |
| UniswapMock.UniswapV2Mock.PositionNamesAmountIn | test/swap/crowdswapV3/utils/uniswapV2-mock.ts:182-220 | a non-negative position is the index of the `amountIn` parameter of the router function `getTransaction` chooses; with −1, that function has no `amountIn` |
| UniswapMock.UniswapV2Mock.SplitTransaction | test/swap/crowdswapV3/utils/uniswapV2-mock.ts:98-125 | for a router with a flag, a template exists exactly when the data splits. It carries the helper's flag and token addresses and the split selector and words. `isReplace` is set exactly when the position is non-negative, and the index is that position, or 0 without replacement; so the from-token is native or word 0 is replaced |
| CallBuilder.Splice | test/swap/crowdswapV3/crowdswapV3.spec.ts:1383-1386 | a template yields call bytes exactly when it is well formed; the bytes are 4 + 32 × (number of words) long and start with the selector |
| CallBuilder.SpliceInjectsAmount | test/swap/crowdswapV3/crowdswapV3.spec.ts:1342-1359 | with `isReplace`, the word at `index` of the call holds the running amount and every other word is the template's |
| CallBuilder.SpliceVerbatim | test/swap/crowdswapV3/utils/uniswapV2-mock.ts:111-114 | without `isReplace`, the call is the template's selector and words whatever the amount |
| CallBuilder.SpliceDistinguishesAmounts | test/swap/crowdswapV3/crowdswapV3.spec.ts:1342-1359 | two amounts give the same call exactly when they are equal or the template has no replacement |
| CallBuilder.ConcatWordAt | test/swap/crowdswapV3/utils/uniswapV2-mock.ts:103-106 | word j of a word list sits at byte offset 32 j of the joined bytes |
| Fees.CalculateFee | test/swap/crowdswapV3/fixture/crowdswapV3-fixture.ts:35 | the fee is floor(amount × percentage / 1e20), given as the two bounds around the exact product |
| Fees.DefaultFeeIsOneThousandth | test/swap/crowdswapV3/crowdswapV3.spec.ts:95 | at the deployed default percentage 1e17, the fee is exactly amount / 1000 |
| Fees.FeeAtMostAmount | test/swap/crowdswapV3/crowdswapV3.spec.ts:95 | a percentage of at most 100% never takes more than the amount |
| Fees.FeeMonotonic | test/swap/crowdswapV3/crowdswapV3.spec.ts:95 | a larger amount never pays a smaller fee |
| Ledger.Mint | test/swap/crowdswapV3/utils/ethereum-util.ts:27 | minting raises exactly the one balance by the amount and touches no allowance |
| Ledger.Approve | test/swap/crowdswapV3/utils/ethereum-util.ts:28 | approving sets the one allowance to the amount, leaves every other allowance and every balance alone |
| Ledger.TransferFrom | test/swap/crowdswapV3/utils/ethereum-util.ts:28 | an allowance-based pull goes through exactly when both the allowance and the balance suffice, and it uses up that much allowance |
| Ledger.TransferFromMove | test/swap/crowdswapV3/crowdswapV3.spec.ts:146-150 | a pull that goes through moves the amount from the owner to the recipient and changes no other balance |
| Ledger.Transfer | test/swap/crowdswapV3/crowdswapV3.spec.ts:146-164 | a transfer goes through exactly when the sender holds enough, and it changes no allowance |
| Ledger.TransferMove | test/swap/crowdswapV3/crowdswapV3.spec.ts:146-164 | a transfer that goes through moves the amount between the two accounts and changes no other balance |
| Ledger.ApplyMovesFlow | test/swap/crowdswapV3/crowdswapV3.spec.ts:146-164 | after a list of transfers, every balance is its old value plus the list's net flow into it, and allowances are unchanged |
| Ledger.Chain.SetRouterAmountOut | test/swap/crowdswapV3/utils/uniswapV2-mock.ts:169 | the router's preset output becomes the amount; the ledger is unchanged |
| SwapEngine.Lookup | test/swap/crowdswapV3/crowdswapV3.spec.ts:669-726 | a flag resolves exactly when it is registered, to its router; otherwise the reason is "unsupported dex flag" |
| SwapEngine.PullIn | test/swap/crowdswapV3/crowdswapV3.spec.ts:146-150 | the input's arrival fails only as a failed transfer; EnterFlow states the balances it moves |
| SwapEngine.Enter | test/swap/crowdswapV3/crowdswapV3.spec.ts:95-101 | on success the forwarded amount plus the input fee is amountIn |
| SwapEngine.Requested | test/swap/crowdswapV3/utils/uniswapV2-mock.ts:182-220 | a router fails to read its input only by reverting: it takes the forwarded value for a native input and word 0 of a token call; CallRouterFlow and HopExact state the amounts |
| SwapEngine.CallRouter | test/swap/crowdswapV3/crowdswapV3.spec.ts:1399-1408 | on success the measured output is the engine's balance gain in the to-asset |
| SwapEngine.HopCallData | test/swap/crowdswapV3/crowdswapV3.spec.ts:1383-1386 | a hop has call bytes exactly when its template is well formed; otherwise it reverts as a malformed template |
| SwapEngine.Hop | test/swap/crowdswapV3/crowdswapV3.spec.ts:1399-1408 | on success the measured output is the engine's balance gain in the hop's to-asset; a failure is an unknown flag, a malformed template, a router revert or an underflow |
| SwapEngine.Settle | test/swap/crowdswapV3/crowdswapV3.spec.ts:490-608 | on success the output is positive, and net + output fee = output with net ≥ minAmountOut |
| SwapEngine.SwapToRouter | test/swap/crowdswapV3/crowdswapV3.spec.ts:80-165 | `swap` up to its router call; SwapRejectsSameToken, SwapChecksValue, SwapChecksFlag and SwapStages state its checks and stages |
| SwapEngine.SwapOutcome | test/swap/crowdswapV3/crowdswapV3.spec.ts:80-726 | `swap` as a function of the ledger; SwapStages, SwapFlow, SwapBalances, SwapChecksMinimum and SwapTokenInAtDefault / SwapTokenOutAtDefault state its properties |
| SwapEngine.RunHops | test/swap/crowdswapV3/crowdswapV3.spec.ts:1342-1408 | the hop loop fails only with a hop's own error; RunHopsOutput, RunHopsEngineFlow and RunHopsTouchesOnlyRouters state its accounting |
| SwapEngine.CrossDexOutcome | test/swap/crowdswapV3/crowdswapV3.spec.ts:1040-2322 | `crossDexSwap` as a function of the ledger; CrossDexStages, CrossDexEvent, CrossDexNetOutput and CrossDexBalances state its properties |
| SwapProperties.SwapRejectsSameToken | test/swap/crowdswapV3/crowdswapV3.spec.ts:610-667 | `swap` fails with "fromToken should not be equal with toToken" exactly when the two addresses are equal ignoring case |
| SwapProperties.SwapChecksValue | test/swap/crowdswapV3/crowdswapV3.spec.ts:364-488 | for distinct tokens, `swap` fails with "Incorrect ETH value sent" exactly when the value is not amountIn (native input) or not 0 (token input); amountIn ± 1 and any nonzero value on a token input are such cases |
| SwapProperties.SwapChecksFlag | test/swap/crowdswapV3/crowdswapV3.spec.ts:669-726 | after those checks, `swap` fails with "unsupported dex flag" exactly when the flag is unregistered |
| SwapProperties.CrossDexRejectsEmptyList | test/swap/crowdswapV3/crowdswapV3.spec.ts:2160-2237 | `crossDexSwap` fails with "Swap List is empty" exactly when the list is empty |
| SwapProperties.CrossDexChecksValue | test/swap/crowdswapV3/crowdswapV3.spec.ts:1817-1989 | for a non-empty list, `crossDexSwap` fails with "Incorrect ETH value sent" exactly when the value does not match the first hop's from-token |
| SwapProperties.CrossDexChecksFirstFlag | test/swap/crowdswapV3/crowdswapV3.spec.ts:2240-2322 | once the input is in, an unregistered first flag makes `crossDexSwap` fail with "unsupported dex flag" |
| SwapProperties.RunHopsNeedsRegisteredFlags | test/swap/crowdswapV3/crowdswapV3.spec.ts:2240-2322 | a hop loop that succeeds had every flag registered and every template well formed |
| SwapProperties.CrossDexNeedsRegisteredFlags | test/swap/crowdswapV3/crowdswapV3.spec.ts:2240-2322 | a successful `crossDexSwap` had every hop's flag registered |
| SwapProperties.SettlePays | test/swap/crowdswapV3/crowdswapV3.spec.ts:146-164 | the two payouts go through whenever the engine holds their sum |
| SwapProperties.SettleRejectsZero | test/swap/crowdswapV3/crowdswapV3.spec.ts:490-548 | an output of 0 fails with "amount out is 0" whatever the minimum |
| SwapProperties.SettleChecksMinimum | test/swap/crowdswapV3/crowdswapV3.spec.ts:550-608 | for a positive output the engine holds, the payout succeeds exactly when the net output reaches minAmountOut |
| SwapProperties.SwapRejectsZeroOutput | test/swap/crowdswapV3/crowdswapV3.spec.ts:490-548 | a router output of 0 makes `swap` fail with "amount out is 0" |
| SwapProperties.SwapChecksMinimum | test/swap/crowdswapV3/crowdswapV3.spec.ts:550-608 | for a positive router output, `swap` succeeds exactly when the net output reaches minAmountOut, so out + 1 fails and 90% of out succeeds |
| SwapProperties.CrossDexRejectsZeroOutput | test/swap/crowdswapV3/crowdswapV3.spec.ts:1992-2073 | a final hop output of 0 makes `crossDexSwap` fail with "amount out is 0" |
| SwapProperties.CrossDexSettleStep | test/swap/crowdswapV3/crowdswapV3.spec.ts:2076-2157 | once the input is in and the hop loop has gone through, `crossDexSwap` succeeds exactly when the payouts do, and otherwise fails with their error |
| SwapProperties.HopsThenSettle | test/swap/crowdswapV3/crowdswapV3.spec.ts:2076-2157 | after a hop loop with a positive output, the payouts go through exactly when the net output reaches minAmountOut, and otherwise fail with "Minimum amount not met" |
| SwapProperties.RunHopsHoldsOutput | test/swap/crowdswapV3/crowdswapV3.spec.ts:1399-1408 | after the hop loop the engine holds at least the output it measured |
| SwapProperties.EnterFlow | test/swap/crowdswapV3/crowdswapV3.spec.ts:146-150 | the input's arrival and the input fee change balances by exactly those transfers |
| SwapProperties.CallRouterFlow | test/swap/crowdswapV3/utils/uniswapV2-mock.ts:167-170 | a router call takes at most the forwarded amount and pays its preset back; for distinct assets the measured output is that preset |
| SwapProperties.SettleFlow | test/swap/crowdswapV3/crowdswapV3.spec.ts:152-164 | the payouts move the output fee to the fee recipient and the rest to the receiver, and nothing else |
| SwapProperties.SwapStages | test/swap/crowdswapV3/crowdswapV3.spec.ts:80-165 | a successful `swap` had a registered flag and the right value; entry, the router call and the payouts went through in turn, and the outcome is the payouts' ledger with the event built from their results |
| SwapProperties.CallRouterMoved | test/swap/crowdswapV3/utils/uniswapV2-mock.ts:167-170 | a router call that goes through is two transfers: the requested input to the router and its preset output to the engine |
| SwapProperties.SwapFlow | test/swap/crowdswapV3/crowdswapV3.spec.ts:80-165 | a successful `swap` changes balances by exactly six transfers (input, input fee, router input, router output, output fee, net output), and the event's amount plus the output fee is the router output |
| SwapProperties.SwapBalances | test/swap/crowdswapV3/crowdswapV3.spec.ts:135-164 | for distinct assets and separate parties: the sender pays amountIn, the fee recipient gets both fees, the receiver gets the event's amount, the engine keeps only what the router did not ask for and none of the to-token; the event carries the sender, both normalised tokens, the receiver and the gross amountIn |
| SwapProperties.DefaultFees | test/swap/crowdswapV3/crowdswapV3.spec.ts:95 | at the default percentage, the input fee is amountIn / 1000 for TokenIn and 0 for TokenOut, and the reverse on the output side |
| SwapProperties.SwapTokenInAtDefault | test/swap/crowdswapV3/crowdswapV3.spec.ts:80-362 | TokenIn: the fee recipient gains amountIn / 1000 of the from-token and none of the to-token; the receiver and the event get the whole router output; the engine keeps none of the to-token and, of the from-token, what the router did not ask for, which is none when the call asks for the forwarded amount |
| SwapProperties.SwapTokenOutAtDefault | test/swap/crowdswapV3/crowdswapV3.spec.ts:882-1036 | TokenOut: the fee recipient gains out / 1000 of the to-token and none of the from-token; the receiver and the event get the rest; the engine keeps none of the to-token and, of the from-token, what the router did not ask for, which is none when the call asks for the whole input |
| SwapProperties.HopExact | test/swap/crowdswapV3/crowdswapV3.spec.ts:1342-1359 | a hop whose template replaces word 0, or has a native input, has its router take exactly the running amount, and its measured output is the router's preset |
| SwapProperties.TemplateExactHop | test/swap/crowdswapV3/utils/uniswapV2-mock.ts:108-124 | a template shaped as `splitTransaction` builds it (native from-token, or word 0 replaced) is an exact hop exactly when its two tokens name different assets |
| SwapProperties.RunHopsOutput | test/swap/crowdswapV3/crowdswapV3.spec.ts:1342-1408 | over chained exact hops the loop's output is the last router's preset: each hop is fed the previous hop's measured output (30), not its template's amount (31) |
| SwapProperties.RunHopsEngineFlow | test/swap/crowdswapV3/crowdswapV3.spec.ts:1411-1437 | over chained exact hops the engine gives up the running amount of the first asset and gains the loop's output of the last, so no intermediate token stays behind |
| SwapProperties.RunHopsTouchesOnlyRouters | test/swap/crowdswapV3/crowdswapV3.spec.ts:1411-1437 | the hop loop changes no balance outside the engine and the registered routers |
| SwapProperties.CrossDexStages | test/swap/crowdswapV3/crowdswapV3.spec.ts:1383-1408 | a successful `crossDexSwap` is the input's arrival, the hop loop and the payouts, with the event built from their results |
| SwapProperties.CrossDexEvent | test/swap/crowdswapV3/crowdswapV3.spec.ts:1399-1408 | the event of a successful `crossDexSwap` carries the caller, the normalised first from-token and last to-token, the receiver and the gross amountIn |
| SwapProperties.CrossDexNetOutput | test/swap/crowdswapV3/crowdswapV3.spec.ts:1399-1408 | the event's amount plus the output fee is the last router's preset output |
| SwapProperties.HopsSettleNet | test/swap/crowdswapV3/crowdswapV3.spec.ts:1399-1437 | paying out what a chain of exact hops measured gives the receiver the last router's preset output less the output fee |
| SwapProperties.CrossDexEngineKept | test/swap/crowdswapV3/crowdswapV3.spec.ts:1414-1437 | a successful `crossDexSwap` leaves the engine with what it had of every asset, intermediate tokens included |
| SwapProperties.CrossDexOutside | test/swap/crowdswapV3/crowdswapV3.spec.ts:1410-1437 | outside the engine and the routers, a successful `crossDexSwap` changes balances by exactly four transfers: the input, the input fee, the output fee and the event's amount to the receiver |
| SwapProperties.CrossDexBalances | test/swap/crowdswapV3/crowdswapV3.spec.ts:1411-1437 | the sender pays amountIn; the fee recipient gets the input fee and the output fee; the receiver gets the event's amount; the engine keeps nothing of any token; other tokens of non-router accounts are untouched |
| CrowdSwap.RegistryOf | test/swap/crowdswapV3/fixture/crowdswapV3-fixture.ts:72-75 | the registry the initializer builds from the network list; RegistryOfDomain and RegistryOfResolves state it |
| CrowdSwap.RegistryOfDomain | test/swap/crowdswapV3/fixture/crowdswapV3-fixture.ts:72-75 | exactly the flags of the network list are registered |
| CrowdSwap.RegistryOfResolves | test/swap/crowdswapV3/fixture/crowdswapV3-fixture.ts:72-75 | a listed flag that no later entry reuses resolves to its own router |
| CrowdSwap.FixtureRegistry | test/swap/crowdswapV3/fixture/crowdswapV3-fixture.ts:67-75 | the fixture's registry is {1 ↦ quickswap, 2 ↦ uniswap2} |
| CrowdSwap.FixtureFlagsResolve | test/swap/crowdswapV3/fixture/crowdswapV3-fixture.ts:67-84 | the flag a helper looks up for each fixture router resolves back to that router; only flags 1 and 2 are registered; the engine's own flag 0 is not |
| CrowdSwap.FixtureRejectsUnknownFlag | test/swap/crowdswapV3/crowdswapV3.spec.ts:669-726 | with the fixture's registry, any flag other than 1 and 2 (such as 201) makes `swap` fail with "unsupported dex flag" |
| CrowdSwap.CrowdSwapV3.constructor | test/swap/crowdswapV3/fixture/crowdswapV3-fixture.ts:72-82 | the engine starts with the given fee recipient and default percentage, the registry of the network list, and no affiliate percentages |
| CrowdSwap.CrowdSwapV3.AffiliateFeePercentage | test/swap/crowdswapV3/crowdswapV3.spec.ts:62-76 | the stored percentage of a code, 0 when unset; SetAffiliateFeePercentage and the constructor state it |
| CrowdSwap.CrowdSwapV3.SetAffiliateFeePercentage | test/swap/crowdswapV3/crowdswapV3.spec.ts:62-76 | the code reads back the new percentage and every other code its old one; an unset code reads 0 |
| CrowdSwap.CrowdSwapV3.Swap | test/swap/crowdswapV3/crowdswapV3.spec.ts:80-726 | the step-by-step update returns the outcome function's event and leaves its ledger; on failure it returns the same error and restores the ledger |
| CrowdSwap.CrowdSwapV3.CrossDexSwap | test/swap/crowdswapV3/crowdswapV3.spec.ts:1040-2322 | the hop loop threads the running amount through the list; the result and the ledger are the outcome function's, with the ledger restored on failure |

## Left out

- ABI encoding (`populateTransaction`) belongs to a library outside the model. `GetTransaction` returns the call's arguments as a record. `SplitTransaction` takes the encoded call data as a parameter.
- `getDeadLine` reads the latest block's timestamp, which is chain I/O. The model takes the deadline as a parameter.
- `getAddress` is modelled as lower-casing. Its checksum output and its exception on malformed addresses are not modelled.
- EthereumUtil.Normalize, IsNetworkCoin and NetworkCoinExactly: `getAddress` also accepts 40 hex digits without "0x" and adds the prefix, so `isNetworkCoin("000…1010")` holds in the source but not in the model. No test passes an unprefixed address, and adding the prefix would break `NormalizeEqualIff`.
- UniswapMock.UniswapV2Mock.SplitTransaction: for a router with no entry in `addressToFlag`, the source returns a template whose `dexFlag` is undefined, which no contract call can encode. The model returns none in that case.
- Async execution and `Promise.all` are modelled as sequential funding. If one native send fails, the round still funds the other routers and reports the failure.
- The engine's reentrancy guard, UUPS upgrade and ownership are not modelled, nor are gas and plain ETH receipt. The fallback for unknown selectors (crowdswapV3.spec.ts:30-60) is not modelled either.
- Affiliate codes during a swap are not modelled: every swap charges the default percentage, as in every test. Only the affiliate table's set and get are modelled.
- No check that a hop's from-token equals the previous hop's to-token, because no test asserts one. `Chained` is only a hypothesis of the hop-loop lemmas.
- Whether amountOut == minAmountOut succeeds is left as the model's `>=`, because no test asserts it.
- The router pays the engine, whatever `to` address the call data names. Every test names the engine.
- SwapProperties.SwapBalances, SwapTokenInAtDefault and SwapTokenOutAtDefault assume two distinct assets. The last two state that the engine keeps no from-token only when `AsksForwarded` holds: the input is native, or word 0 of the call is the forwarded amount. They also assume the engine, the fee recipient and the router are distinct from each other and from the caller and the receiver, as in the fixture.
- SwapProperties.RunHopsEngineFlow, RunHopsOutput, HopsSettleNet, CrossDexNetOutput, CrossDexEngineKept, CrossDexOutside and CrossDexBalances assume the hypotheses `ExactChain` bundles. These are five conditions. Every hop's router takes exactly the running amount. Every hop's two tokens name different assets. The assets chain from hop to hop. Preset outputs are below 2^256. The engine is not a router. Every template `SplitTransaction` builds meets the first condition, and TemplateExactHop shows it meets the second whenever the helper's two tokens name different assets.
- uint256 wrap-around is not modelled: amounts are unbounded naturals. 2^256 appears only where a number is written into a 32-byte word.
- In the TokenOut test at crowdswapV3.spec.ts:979, the dex input is computed as ownerAmountIn − swapFee, and that can be negative. Amounts in the model are naturals.
- hardhat.config.ts and deploy/swap/34_deploy_CrowdSwapV3.ts are configuration and deployment I/O. Only the constant 1e17 is taken from the deploy script.
