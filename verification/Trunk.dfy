// The trunk network as the scheduler sees it: an uninterpreted sequence machine.
//
// A slot's device memory after consuming some tokens has two parts. The KV rows are
// position-addressed and only ever appended to, so the rows of a prefix are a prefix of the
// rows. The recurrent (GDN) state is one cell that is overwritten by every token and so exists
// only at the point where the scan was left.

module Trunk {
  import opened Wrappers

  type Token = nat
  type Gdn = int
  type Row = int

  datatype Mem = Mem(gdn: Gdn, rows: seq<Row>)

  /** `pick` is the device argmax: it sees the memory after the last consumed token, the
      penalty table (a multiset of recent tokens) and the vocabulary mask, if one is armed. */
  datatype Network = Network(
    init: Gdn,
    gdnStep: (Gdn, seq<Row>, Token) -> Gdn,
    rowStep: (Gdn, seq<Row>, Token) -> Row,
    pick: (Mem, multiset<Token>, Option<set<Token>>) -> Token)

  function Feed(net: Network, m: Mem, t: Token): Mem {
    Mem(net.gdnStep(m.gdn, m.rows, t), m.rows + [net.rowStep(m.gdn, m.rows, t)])
  }

  /** The memory a cold slot holds after consuming exactly `toks`. */
  function Fold(net: Network, toks: seq<Token>): Mem {
    if toks == [] then Mem(net.init, [])
    else Feed(net, Fold(net, toks[..|toks| - 1]), toks[|toks| - 1])
  }

  /** Feeding `more` on top of `m`, one token at a time. */
  function FeedAll(net: Network, m: Mem, more: seq<Token>): Mem
    decreases |more|
  {
    if more == [] then m else FeedAll(net, Feed(net, m, more[0]), more[1..])
  }

  lemma FoldSnoc(net: Network, toks: seq<Token>, t: Token)
    ensures Fold(net, toks + [t]) == Feed(net, Fold(net, toks), t)
  {
    assert (toks + [t])[..|toks|] == toks;
  }

  lemma {:induction false} FoldAppend(net: Network, toks: seq<Token>, more: seq<Token>)
    ensures FeedAll(net, Fold(net, toks), more) == Fold(net, toks + more)
    decreases |more|
  {
    if more == [] {
      assert toks + more == toks;
    } else {
      FoldSnoc(net, toks, more[0]);
      FoldAppend(net, toks + [more[0]], more[1..]);
      assert toks + [more[0]] + more[1..] == toks + more;
    }
  }

  lemma {:induction false} FoldLength(net: Network, toks: seq<Token>)
    ensures |Fold(net, toks).rows| == |toks|
    decreases |toks|
  {
    if toks != [] {
      FoldLength(net, toks[..|toks| - 1]);
    }
  }

  /** KV is position-addressable: the rows of a prefix are a prefix of the rows. */
  lemma {:induction false} RowsOfPrefix(net: Network, toks: seq<Token>, k: nat)
    requires k <= |toks|
    ensures |Fold(net, toks).rows| == |toks|
    ensures Fold(net, toks[..k]).rows == Fold(net, toks).rows[..k]
    decreases |toks|
  {
    FoldLength(net, toks);
    FoldLength(net, toks[..k]);
    if k < |toks| {
      var init := toks[..|toks| - 1];
      RowsOfPrefix(net, init, k);
      assert init[..k] == toks[..k];
      assert Fold(net, toks).rows[..|init|] == Fold(net, init).rows;
      assert Fold(net, toks).rows[..k] == Fold(net, init).rows[..k];
    } else {
      assert toks[..k] == toks;
    }
  }
}
