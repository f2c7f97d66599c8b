// The device state the host scheduler moves around: one band of recurrent-state cells and one
// KV plane per physical slot. Kernels are uninterpreted; only where they read and write counts.

module Device {
  import opened Wrappers
  import opened Trunk

  /** `cells` holds the live state of every slot, then the checkpoint bands. */
  datatype Dev = Dev(cells: seq<Gdn>, kv: seq<seq<Row>>)

  predicate InPlane(d: Dev, slot: nat, upTo: nat) {
    slot < |d.cells| && slot < |d.kv| && upTo <= |d.kv[slot]|
  }

  /** The device never changes the number of cells or the depth of a plane. */
  ghost predicate SameDims(d: Dev, d': Dev) {
    && |d'.cells| == |d.cells| && |d'.kv| == |d.kv|
    && forall i :: 0 <= i < |d.kv| ==> |d'.kv[i]| == |d.kv[i]|
  }

  /** What a forward at position `pos` of `slot` attends to. */
  function MemAt(d: Dev, slot: nat, pos: nat): Mem
    requires InPlane(d, slot, pos)
  {
    Mem(d.cells[slot], d.kv[slot][..pos])
  }

  function CopyCell(d: Dev, src: nat, dst: nat): Dev
    requires src < |d.cells| && dst < |d.cells|
  {
    d.(cells := d.cells[dst := d.cells[src]])
  }

  function ZeroSlot(net: Network, d: Dev, slot: nat): Dev
    requires slot < |d.cells|
  {
    d.(cells := d.cells[slot := net.init])
  }

  // ------------------------------------------------------------------ sequential forwards

  /** Prefill (or decode) `toks` at positions pos, pos+1, ... of `slot`. */
  function Consume(net: Network, d: Dev, slot: nat, pos: nat, toks: seq<Token>): (r: Dev)
    requires InPlane(d, slot, pos + |toks|)
    ensures |r.cells| == |d.cells| && |r.kv| == |d.kv|
    ensures forall i :: 0 <= i < |d.cells| && i != slot ==> r.cells[i] == d.cells[i]
    ensures forall i :: 0 <= i < |d.kv| ==> |r.kv[i]| == |d.kv[i]| && (i != slot ==> r.kv[i] == d.kv[i])
    decreases |toks|
  {
    if toks == [] then d
    else
      var m := Feed(net, MemAt(d, slot, pos), toks[0]);
      var d1 := Dev(d.cells[slot := m.gdn], d.kv[slot := d.kv[slot][pos := m.rows[pos]]]);
      Consume(net, d1, slot, pos + 1, toks[1..])
  }

  /** A sequential forward leaves the slot as if it had been fed the tokens one by one. */
  lemma {:induction false} ConsumeFeeds(net: Network, d: Dev, slot: nat, pos: nat, toks: seq<Token>)
    requires InPlane(d, slot, pos + |toks|)
    ensures MemAt(Consume(net, d, slot, pos, toks), slot, pos + |toks|) == FeedAll(net, MemAt(d, slot, pos), toks)
    decreases |toks|
  {
    if toks != [] {
      var m := Feed(net, MemAt(d, slot, pos), toks[0]);
      var d1 := Dev(d.cells[slot := m.gdn], d.kv[slot := d.kv[slot][pos := m.rows[pos]]]);
      assert MemAt(d1, slot, pos + 1) == m;
      ConsumeFeeds(net, d1, slot, pos + 1, toks[1..]);
    }
  }

  // ------------------------------------------------------------------ tree-shaped verify

  /** parent[0] = -1, and every other column hangs below an earlier one. */
  predicate IsTree(parent: seq<int>) {
    |parent| > 0 && parent[0] == -1 && forall c :: 0 < c < |parent| ==> 0 <= parent[c] < c
  }

  /** Memory after the root path that ends in column `c`. */
  function NodeMem(net: Network, m: Mem, parent: seq<int>, tokens: seq<Token>, c: nat): Mem
    requires IsTree(parent) && |tokens| == |parent| && c < |parent|
    decreases c
  {
    Feed(net, if c == 0 then m else NodeMem(net, m, parent, tokens, parent[c]), tokens[c])
  }

  function LastRow(m: Mem): Row {
    if m.rows == [] then 0 else m.rows[|m.rows| - 1]
  }

  /** Verify all columns in one forward: column c writes its KV row at pos + c, every column but
      the last checkpoints its state at ckpt + c, and the slot ends in the last column's state. */
  function Verify(net: Network, d: Dev, slot: nat, pos: nat, parent: seq<int>, tokens: seq<Token>, ckpt: nat): (r: Dev)
    requires IsTree(parent) && |tokens| == |parent| && InPlane(d, slot, pos + |tokens|)
    requires slot < ckpt && ckpt + |tokens| - 1 <= |d.cells|
    ensures |r.cells| == |d.cells| && |r.kv| == |d.kv|
    ensures forall i :: 0 <= i < |d.kv| ==> |r.kv[i]| == |d.kv[i]| && (i != slot ==> r.kv[i] == d.kv[i])
    ensures forall i :: 0 <= i < |d.cells| && i != slot && !(ckpt <= i < ckpt + |tokens| - 1) ==> r.cells[i] == d.cells[i]
  {
    var m := MemAt(d, slot, pos);
    var n := |tokens|;
    Dev(seq(|d.cells|, i requires 0 <= i < |d.cells| =>
          if i == slot then NodeMem(net, m, parent, tokens, n - 1).gdn
          else if ckpt <= i < ckpt + n - 1 then NodeMem(net, m, parent, tokens, i - ckpt).gdn
          else d.cells[i]),
        d.kv[slot := seq(|d.kv[slot]|, i requires 0 <= i < |d.kv[slot]| =>
          if pos <= i < pos + n then LastRow(NodeMem(net, m, parent, tokens, i - pos))
          else d.kv[slot][i])])
  }

  /** Move the KV rows of an accepted path down to consecutive positions. */
  function Compact(d: Dev, slot: nat, pos: nat, src: seq<nat>): (r: Dev)
    requires InPlane(d, slot, pos + |src|)
    requires forall k :: 0 <= k < |src| ==> pos + src[k] < |d.kv[slot]|
  {
    d.(kv := d.kv[slot := seq(|d.kv[slot]|, i requires 0 <= i < |d.kv[slot]| =>
      if pos <= i < pos + |src| then d.kv[slot][pos + src[i - pos]] else d.kv[slot][i])])
  }

  /** Step `k` of the path goes to a child of the node before. */
  ghost predicate Descends(parent: seq<int>, path: seq<nat>, k: nat)
    requires 0 < k < |path|
  {
    path[k] < |parent| && path[k] != 0 && parent[path[k]] == path[k - 1]
  }

  /** A path from the root of the tree, one child at a time. */
  ghost predicate RootPath(parent: seq<int>, path: seq<nat>) {
    && IsTree(parent) && |path| > 0 && path[0] == 0
    && (forall k :: 0 <= k < |path| ==> path[k] < |parent|)
    && (forall k :: 0 < k < |path| ==> Descends(parent, path, k))
  }

  /** A root path cut short is a root path. */
  lemma RootPathPrefix(parent: seq<int>, path: seq<nat>, k: nat)
    requires RootPath(parent, path) && 0 < k <= |path|
    ensures RootPath(parent, path[..k])
  {
    forall i | 0 < i < k ensures Descends(parent, path[..k], i) {
      assert Descends(parent, path, i);
    }
  }

  function PathTokens(tokens: seq<Token>, path: seq<nat>): seq<Token>
    requires forall k :: 0 <= k < |path| ==> path[k] < |tokens|
  {
    seq(|path|, k requires 0 <= k < |path| => tokens[path[k]])
  }

  lemma {:induction false} FeedAllSnoc(net: Network, m: Mem, ts: seq<Token>, t: Token)
    ensures FeedAll(net, m, ts + [t]) == Feed(net, FeedAll(net, m, ts), t)
    decreases |ts|
  {
    if ts == [] {
      assert ts + [t] == [t] && [t][1..] == [];
    } else {
      FeedAllSnoc(net, Feed(net, m, ts[0]), ts[1..], t);
      assert (ts + [t])[1..] == ts[1..] + [t];
    }
  }

  /** A node's memory is the root memory fed the tokens on its path, and its rows are the
      root's rows followed by the rows its path wrote, wherever those columns sit. */
  lemma {:induction false} PathMem(net: Network, m: Mem, parent: seq<int>, tokens: seq<Token>, path: seq<nat>)
    requires RootPath(parent, path) && |tokens| == |parent|
    ensures NodeMem(net, m, parent, tokens, path[|path| - 1]) == FeedAll(net, m, PathTokens(tokens, path))
    ensures NodeMem(net, m, parent, tokens, path[|path| - 1]).rows
         == m.rows + seq(|path|, k requires 0 <= k < |path| => LastRow(NodeMem(net, m, parent, tokens, path[k])))
    decreases |path|
  {
    var last := path[|path| - 1];
    var node := NodeMem(net, m, parent, tokens, last);
    var lasts := seq(|path|, k requires 0 <= k < |path| => LastRow(NodeMem(net, m, parent, tokens, path[k])));
    if |path| == 1 {
      assert PathTokens(tokens, path) == [tokens[0]];
      assert [tokens[0]][1..] == [];
      assert lasts == [LastRow(node)];
    } else {
      var init := path[..|path| - 1];
      RootPathPrefix(parent, path, |path| - 1);
      assert Descends(parent, path, |path| - 1);
      PathMem(net, m, parent, tokens, init);
      var up := NodeMem(net, m, parent, tokens, parent[last]);
      assert parent[last] == init[|init| - 1];
      FeedAllSnoc(net, m, PathTokens(tokens, init), tokens[last]);
      assert PathTokens(tokens, path) == PathTokens(tokens, init) + [tokens[last]];
      var initLasts := seq(|init|, k requires 0 <= k < |init| => LastRow(NodeMem(net, m, parent, tokens, init[k])));
      assert lasts == initLasts + [LastRow(node)];
      assert node.rows == up.rows + [LastRow(node)];
    }
  }

  lemma {:induction false} RootPathRises(parent: seq<int>, path: seq<nat>, k: nat)
    requires RootPath(parent, path) && k < |path|
    ensures k <= path[k]
    decreases k
  {
    if k > 0 {
      assert Descends(parent, path, k);
      RootPathRises(parent, path, k - 1);
    }
  }

  /** Host-side commit of an accepted path: compact its rows, adopt its leaf's checkpoint. */
  function Adopt(d: Dev, slot: nat, pos: nat, path: seq<nat>, width: nat, ckpt: nat): (r: Dev)
    requires InPlane(d, slot, pos + |path|) && path != []
    requires forall k :: 0 <= k < |path| ==> path[k] < width && pos + path[k] < |d.kv[slot]|
    requires slot < ckpt && ckpt + width - 1 <= |d.cells|
    ensures SameDims(d, r)
  {
    var leaf := path[|path| - 1];
    var d1 := Compact(d, slot, pos, path);
    if leaf != width - 1 then CopyCell(d1, ckpt + leaf, slot) else d1
  }

  /** After verify and commit, the slot holds exactly the committed prefix and the accepted
      path: what sequential decode of those tokens would have left there. */
  lemma VerifyThenAdopt(net: Network, d: Dev, slot: nat, pos: nat, parent: seq<int>, tokens: seq<Token>,
                        ckpt: nat, path: seq<nat>)
    requires IsTree(parent) && |tokens| == |parent| && InPlane(d, slot, pos + |tokens|)
    requires slot < ckpt && ckpt + |tokens| - 1 <= |d.cells|
    requires RootPath(parent, path) && |path| <= |tokens|
    ensures var v := Verify(net, d, slot, pos, parent, tokens, ckpt);
            var a := Adopt(v, slot, pos, path, |tokens|, ckpt);
            && MemAt(a, slot, pos + |path|) == FeedAll(net, MemAt(d, slot, pos), PathTokens(tokens, path))
            && |a.cells| == |d.cells| && |a.kv| == |d.kv|
            && (forall i :: 0 <= i < |d.kv| ==> |a.kv[i]| == |d.kv[i]| && (i != slot ==> a.kv[i] == d.kv[i]))
            && (forall i :: 0 <= i < |d.cells| && i != slot && !(ckpt <= i < ckpt + |tokens| - 1) ==> a.cells[i] == d.cells[i])
  {
    var m := MemAt(d, slot, pos);
    var v := Verify(net, d, slot, pos, parent, tokens, ckpt);
    var a := Adopt(v, slot, pos, path, |tokens|, ckpt);
    PathMem(net, m, parent, tokens, path);
    var node := NodeMem(net, m, parent, tokens, path[|path| - 1]);
    assert a.kv[slot][..pos + |path|] == node.rows;
    assert a.cells[slot] == node.gdn;
  }

  // ------------------------------------------------------------------ chains

  function ChainParent(n: nat): (p: seq<int>)
    ensures |p| == n && (n > 0 ==> IsTree(p))
  {
    seq(n, i requires 0 <= i < n => i - 1)
  }

  function FirstColumns(n: nat): (p: seq<nat>)
    ensures |p| == n && forall k :: 0 <= k < n ==> p[k] == k
  {
    seq(n, i => i)
  }

  lemma ChainPath(n: nat, k: nat)
    requires 0 < k <= n
    ensures RootPath(ChainParent(n), FirstColumns(k))
  {
  }
}
