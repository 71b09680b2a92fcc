/**
 * The call template a cross-dex hop carries (`CallInfo`) and the engine's
 * splice: the call bytes are the selector followed by the parameter words,
 * where, when `isReplace` is set, the word at `index` is overwritten with the
 * 32-byte big-endian running amount.
 */
module CallBuilder {
  import opened Wrappers
  import opened Bytes
  import opened Ledger

  datatype CallInfo = CallInfo(
    dexFlag: nat,
    fromToken: Address,
    toToken: Address,
    selector: seq<byte>,
    index: nat,
    params: seq<seq<byte>>,
    isReplace: bool)

  /** The parameter words laid end to end. */
  function Concat(ws: seq<seq<byte>>): (r: seq<byte>)
    decreases |ws|
  {
    if ws == [] then [] else ws[0] + Concat(ws[1..])
  }

  predicate AllWords(ws: seq<seq<byte>>) {
    forall j :: 0 <= j < |ws| ==> |ws[j]| == WORD_SIZE
  }

  /** A template the engine can splice: a 4-byte selector, whole words, and an index inside them when one is replaced. */
  predicate WellFormed(t: CallInfo) {
    |t.selector| == 4 && AllWords(t.params) && (t.isReplace ==> t.index < |t.params|)
  }

  /** The word list with the running amount in place, when the template asks for it. */
  function SplicedParams(t: CallInfo, amount: nat): seq<seq<byte>>
    requires t.isReplace ==> t.index < |t.params|
  {
    if t.isReplace then t.params[t.index := NatToWord(amount)] else t.params
  }

  /** The call bytes of one hop; a malformed template has none. */
  function Splice(t: CallInfo, amount: nat): (r: Option<seq<byte>>)
    ensures r.Some? <==> WellFormed(t)
    ensures r.Some? ==> |r.value| == 4 + WORD_SIZE * |t.params|
    ensures r.Some? ==> r.value[..4] == t.selector
  {
    if !WellFormed(t) then None
    else
      var ps := SplicedParams(t, amount);
      ConcatLength(ps);
      Some(t.selector + Concat(ps))
  }

  lemma {:induction false} ConcatLength(ws: seq<seq<byte>>)
    requires AllWords(ws)
    ensures |Concat(ws)| == WORD_SIZE * |ws|
    decreases |ws|
  {
    if ws != [] {
      ConcatLength(ws[1..]);
    }
  }

  /** Word j of a word list sits at byte offset 32 j of its concatenation. */
  lemma {:induction false} ConcatWordAt(ws: seq<seq<byte>>, j: nat)
    requires AllWords(ws) && j < |ws|
    ensures |Concat(ws)| == WORD_SIZE * |ws|
    ensures Concat(ws)[WORD_SIZE * j..WORD_SIZE * j + WORD_SIZE] == ws[j]
    decreases |ws|
  {
    ConcatLength(ws);
    ConcatLength(ws[1..]);
    var c := Concat(ws);
    if j > 0 {
      ConcatWordAt(ws[1..], j - 1);
      var tail := Concat(ws[1..]);
      assert c == ws[0] + tail;
      assert c[WORD_SIZE * j..WORD_SIZE * j + WORD_SIZE] == tail[WORD_SIZE * (j - 1)..WORD_SIZE * (j - 1) + WORD_SIZE];
    }
  }

  /** The 32-byte word at position j of spliced call bytes. */
  function WordOf(data: seq<byte>, j: nat): seq<byte>
    requires 4 + WORD_SIZE * (j + 1) <= |data|
  {
    data[4 + WORD_SIZE * j..4 + WORD_SIZE * (j + 1)]
  }

  /** With `isReplace` the word at `index` carries the running amount and every other word is the template's. */
  lemma SpliceInjectsAmount(t: CallInfo, amount: nat)
    requires WellFormed(t) && t.isReplace && amount < TWO_256
    ensures Splice(t, amount).Some?
    ensures WordToNat(WordOf(Splice(t, amount).value, t.index)) == amount
    ensures forall j :: 0 <= j < |t.params| && j != t.index ==> WordOf(Splice(t, amount).value, j) == t.params[j]
  {
    var ps := SplicedParams(t, amount);
    var r := Splice(t, amount).value;
    assert AllWords(ps);
    assert r == t.selector + Concat(ps);
    forall j | 0 <= j < |t.params|
      ensures WordOf(r, j) == ps[j]
    {
      ConcatWordAt(ps, j);
    }
    WordRoundTrip(amount);
  }

  /** Without `isReplace` the call bytes are the template's selector and words, unchanged, whatever the amount. */
  lemma SpliceVerbatim(t: CallInfo, amount: nat)
    requires WellFormed(t) && !t.isReplace
    ensures Splice(t, amount) == Some(t.selector + Concat(t.params))
  {
  }

  /** The spliced bytes depend on the amount exactly when `isReplace` is set. */
  lemma SpliceDistinguishesAmounts(t: CallInfo, a: nat, b: nat)
    requires WellFormed(t) && a < TWO_256 && b < TWO_256
    ensures Splice(t, a) == Splice(t, b) <==> (a == b || !t.isReplace)
  {
    if t.isReplace && a != b {
      SpliceInjectsAmount(t, a);
      SpliceInjectsAmount(t, b);
    }
  }
}
