/**
 * The chain state the tests observe: native and ERC20 balances per account,
 * ERC20 allowances, and the output amount preset in each test router.
 * The token contracts and the native-value transfer are collaborators; only
 * their effect on balances is modelled here.
 */
module Ledger {
  import opened Wrappers

  /** A hex address string as the test code handles it ("0x" and 40 hex digits). */
  type Address = string

  /** What a balance is counted in: the chain's native coin or one ERC20 token. */
  datatype Asset = Native | Erc20(token: Address)

  datatype State = State(
    balances: map<(Asset, Address), nat>,
    allowances: map<(Asset, Address, Address), nat>)

  const Empty := State(map[], map[])

  /** An account's balance; an account never credited holds 0. */
  function Balance(s: State, a: Asset, who: Address): nat {
    if (a, who) in s.balances then s.balances[(a, who)] else 0
  }

  /** ERC20 allowance of `spender` over `owner`'s tokens; 0 unless approved. */
  function Allowance(s: State, a: Asset, owner: Address, spender: Address): nat {
    if (a, owner, spender) in s.allowances then s.allowances[(a, owner, spender)] else 0
  }

  /** Adds `amount` to one balance (an ERC20 mint, or native value arriving from outside). */
  function Mint(s: State, a: Asset, who: Address, amount: nat): (r: State)
    ensures r.allowances == s.allowances
    ensures forall b, w :: Balance(r, b, w) == Balance(s, b, w) + (if b == a && w == who then amount else 0)
  {
    s.(balances := s.balances[(a, who) := Balance(s, a, who) + amount])
  }

  /** Moves `amount` of `a` from one account to another; fails when `from` holds too little. */
  function Transfer(s: State, a: Asset, from: Address, to: Address, amount: nat): (r: Option<State>)
    ensures r.Some? <==> Balance(s, a, from) >= amount
    ensures r.Some? ==> r.value.allowances == s.allowances
  {
    if Balance(s, a, from) < amount then None
    else
      var debited := s.balances[(a, from) := Balance(s, a, from) - amount];
      var t := s.(balances := debited);
      Some(t.(balances := debited[(a, to) := Balance(t, a, to) + amount]))
  }

  /** ERC20 `approve`: sets (overwrites) the allowance. */
  function Approve(s: State, a: Asset, owner: Address, spender: Address, amount: nat): (r: State)
    ensures r.balances == s.balances
    ensures Allowance(r, a, owner, spender) == amount
    ensures forall b, o, p :: (b, o, p) != (a, owner, spender) ==> Allowance(r, b, o, p) == Allowance(s, b, o, p)
  {
    s.(allowances := s.allowances[(a, owner, spender) := amount])
  }

  /**
   * ERC20 `transferFrom` called by `spender`: needs an allowance and a balance
   * of at least `amount`, and uses up that much allowance.
   */
  function TransferFrom(s: State, a: Asset, owner: Address, spender: Address, to: Address, amount: nat): (r: Option<State>)
    ensures r.Some? <==> Allowance(s, a, owner, spender) >= amount && Balance(s, a, owner) >= amount
    ensures r.Some? ==> Allowance(r.value, a, owner, spender) == Allowance(s, a, owner, spender) - amount
    ensures r.Some? ==> forall b, o, p :: (b, o, p) != (a, owner, spender) ==> Allowance(r.value, b, o, p) == Allowance(s, b, o, p)
  {
    if Allowance(s, a, owner, spender) < amount then None
    else
      var moved :- Transfer(s, a, owner, to, amount);
      Some(Approve(moved, a, owner, spender, Allowance(s, a, owner, spender) - amount))
  }

  /** One transfer of a swap: `amount` of `asset` from one account to another. */
  datatype Move = Move(asset: Asset, from: Address, to: Address, amount: nat)

  /** What one move does to one balance: incoming minus outgoing. */
  function MoveDelta(m: Move, b: Asset, w: Address): int {
    (if m.asset == b && m.to == w then m.amount else 0) - (if m.asset == b && m.from == w then m.amount else 0)
  }

  /** A transfer that goes through changes each balance by its move. */
  lemma TransferMove(s: State, m: Move)
    requires Transfer(s, m.asset, m.from, m.to, m.amount).Some?
    ensures forall b, w :: Balance(Transfer(s, m.asset, m.from, m.to, m.amount).value, b, w) == Balance(s, b, w) + MoveDelta(m, b, w)
  {
  }

  /** So does an allowance-based transfer. */
  lemma TransferFromMove(s: State, m: Move, spender: Address)
    requires TransferFrom(s, m.asset, m.from, spender, m.to, m.amount).Some?
    ensures forall b, w :: Balance(TransferFrom(s, m.asset, m.from, spender, m.to, m.amount).value, b, w) == Balance(s, b, w) + MoveDelta(m, b, w)
  {
  }

  /** What a sequence of moves does to one balance. */
  function Flow(ms: seq<Move>, b: Asset, w: Address): int
    decreases |ms|
  {
    if ms == [] then 0 else MoveDelta(ms[0], b, w) + Flow(ms[1..], b, w)
  }

  lemma FlowOne(m: Move, b: Asset, w: Address)
    ensures Flow([m], b, w) == MoveDelta(m, b, w)
  {
    assert [m][1..] == [];
  }

  lemma FlowTwo(m: Move, n: Move, b: Asset, w: Address)
    ensures Flow([m, n], b, w) == MoveDelta(m, b, w) + MoveDelta(n, b, w)
  {
    assert [m, n][1..] == [n];
    FlowOne(n, b, w);
  }

  /** `t` is `s` after the moves `ms`, as far as balances go. */
  ghost predicate Moved(s: State, t: State, ms: seq<Move>) {
    forall b, w :: Balance(t, b, w) == Balance(s, b, w) + Flow(ms, b, w)
  }

  /** Outside the accounts in `excluded`, `t` is `s` after the moves `ms`. */
  ghost predicate MovedOutside(s: State, t: State, ms: seq<Move>, excluded: set<Address>) {
    forall b, w :: w !in excluded ==> Balance(t, b, w) == Balance(s, b, w) + Flow(ms, b, w)
  }

  /** On account `w`, `t` is `s` less `gave` of `gaveA` and plus `got` of `gotA`. */
  ghost predicate Exchanged(s: State, t: State, w: Address, gaveA: Asset, gave: nat, gotA: Asset, got: nat) {
    forall b :: Balance(t, b, w) + (if b == gaveA then gave else 0) == Balance(s, b, w) + (if b == gotA then got else 0)
  }

  /** Two moves, then something that touches no account outside `excluded`, then two more moves: outside `excluded`, the four moves in a row. */
  lemma MovedAround(s: State, e: State, h: State, f: State, m1: Move, m2: Move, m3: Move, m4: Move, excluded: set<Address>)
    requires Moved(s, e, [m1, m2]) && MovedOutside(e, h, [], excluded) && Moved(h, f, [m3, m4])
    ensures MovedOutside(s, f, [m1, m2, m3, m4], excluded)
  {
    forall b, w | w !in excluded ensures Balance(f, b, w) == Balance(s, b, w) + Flow([m1, m2, m3, m4], b, w) {
      FlowTwo(m1, m2, b, w);
      FlowTwo(m3, m4, b, w);
      FlowFour(m1, m2, m3, m4, b, w);
    }
  }

  /** Three runs of two moves each, one after the other, are the six moves in a row. */
  lemma MovedThrough(s: State, e: State, h: State, f: State, m1: Move, m2: Move, m3: Move, m4: Move, m5: Move, m6: Move)
    requires Moved(s, e, [m1, m2]) && Moved(e, h, [m3, m4]) && Moved(h, f, [m5, m6])
    ensures Moved(s, f, [m1, m2, m3, m4, m5, m6])
  {
    forall b, w ensures Balance(f, b, w) == Balance(s, b, w) + Flow([m1, m2, m3, m4, m5, m6], b, w) {
      FlowTwo(m1, m2, b, w);
      FlowTwo(m3, m4, b, w);
      FlowTwo(m5, m6, b, w);
      FlowSix(m1, m2, m3, m4, m5, m6, b, w);
    }
  }

  /** The flow of six moves is the sum of their deltas. */
  lemma FlowSix(m1: Move, m2: Move, m3: Move, m4: Move, m5: Move, m6: Move, b: Asset, w: Address)
    ensures Flow([m1, m2, m3, m4, m5, m6], b, w)
         == MoveDelta(m1, b, w) + MoveDelta(m2, b, w) + MoveDelta(m3, b, w) + MoveDelta(m4, b, w) + MoveDelta(m5, b, w) + MoveDelta(m6, b, w)
  {
    assert [m1, m2, m3, m4, m5, m6][1..] == [m2, m3, m4, m5, m6];
    assert [m2, m3, m4, m5, m6][1..] == [m3, m4, m5, m6];
    FlowFour(m3, m4, m5, m6, b, w);
  }

  /** The flow of four moves is the sum of their deltas. */
  lemma FlowFour(m1: Move, m2: Move, m3: Move, m4: Move, b: Asset, w: Address)
    ensures Flow([m1, m2, m3, m4], b, w) == MoveDelta(m1, b, w) + MoveDelta(m2, b, w) + MoveDelta(m3, b, w) + MoveDelta(m4, b, w)
  {
    assert [m1, m2, m3, m4][1..] == [m2, m3, m4];
    assert [m2, m3, m4][1..] == [m3, m4];
    FlowTwo(m3, m4, b, w);
  }

  /** Performs the moves in order; fails at the first one whose sender holds too little. */
  function ApplyMoves(s: State, ms: seq<Move>): Option<State>
    decreases |ms|
  {
    if ms == [] then Some(s)
    else
      var t :- Transfer(s, ms[0].asset, ms[0].from, ms[0].to, ms[0].amount);
      ApplyMoves(t, ms[1..])
  }

  /** Successful moves change each balance by exactly its flow and leave allowances alone. */
  lemma {:induction false} ApplyMovesFlow(s: State, ms: seq<Move>)
    ensures ApplyMoves(s, ms).Some? ==> ApplyMoves(s, ms).value.allowances == s.allowances
    ensures ApplyMoves(s, ms).Some? ==> forall b, w :: Balance(ApplyMoves(s, ms).value, b, w) == Balance(s, b, w) + Flow(ms, b, w)
    decreases |ms|
  {
    if ms != [] {
      var m := ms[0];
      var t := Transfer(s, m.asset, m.from, m.to, m.amount);
      if t.Some? {
        ApplyMovesFlow(t.value, ms[1..]);
      }
    }
  }

  /** Two runs of moves in a row are one run of their concatenation. */
  lemma {:induction false} ApplyMovesAppend(s: State, ms: seq<Move>, ns: seq<Move>)
    ensures ApplyMoves(s, ms + ns) == (match ApplyMoves(s, ms) case None => None case Some(t) => ApplyMoves(t, ns))
    decreases |ms|
  {
    if ms != [] {
      assert (ms + ns)[0] == ms[0] && (ms + ns)[1..] == ms[1..] + ns;
      var t := Transfer(s, ms[0].asset, ms[0].from, ms[0].to, ms[0].amount);
      if t.Some? {
        ApplyMovesAppend(t.value, ms[1..], ns);
      }
    } else {
      assert ms + ns == ns;
    }
  }

  /** The flow of a concatenation is the sum of the flows. */
  lemma {:induction false} FlowAppend(ms: seq<Move>, ns: seq<Move>, b: Asset, w: Address)
    ensures Flow(ms + ns, b, w) == Flow(ms, b, w) + Flow(ns, b, w)
    decreases |ms|
  {
    if ms != [] {
      assert (ms + ns)[0] == ms[0] && (ms + ns)[1..] == ms[1..] + ns;
      FlowAppend(ms[1..], ns, b, w);
    } else {
      assert ms + ns == ns;
    }
  }

  /** The output amount a test router was told to pay; 0 before any `setAmountOut`. */
  function RouterOut(presets: map<Address, nat>, router: Address): nat {
    if router in presets then presets[router] else 0
  }

  /** The chain: every account's balances and the state of the test routers. */
  class Chain {
    var state: State
    var routerAmountOut: map<Address, nat>

    constructor (initial: State)
      ensures state == initial && routerAmountOut == map[]
    {
      state := initial;
      routerAmountOut := map[];
    }

    /** The test router's `setAmountOut`: the next swap through `router` pays `amount`. */
    method SetRouterAmountOut(router: Address, amount: nat)
      modifies this
      ensures routerAmountOut == old(routerAmountOut)[router := amount]
      ensures RouterOut(routerAmountOut, router) == amount
      ensures state == old(state)
    {
      routerAmountOut := routerAmountOut[router := amount];
    }
  }
}
