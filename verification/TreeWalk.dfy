// The greedy accept walk over a draft tree, and what a tree step leaves behind.

module TreeWalk {
  import opened Wrappers
  import opened Trunk
  import opened Device
  import opened GreedyLane
  import opened Lossless
  import Penalty

  /** `c` is the first child of `cur` that carries `want`. */
  ghost predicate FirstMatch(parent: seq<int>, tokens: seq<Token>, cur: nat, want: Token, c: nat)
    requires IsTree(parent) && |tokens| == |parent|
  {
    && 0 < c < |parent| && parent[c] == cur && tokens[c] == want
    && forall b :: 0 < b < c ==> !(parent[b] == cur && tokens[b] == want)
  }

  ghost predicate NoMatch(parent: seq<int>, tokens: seq<Token>, cur: nat, want: Token)
    requires IsTree(parent) && |tokens| == |parent|
  {
    forall b :: 0 < b < |parent| ==> !(parent[b] == cur && tokens[b] == want)
  }

  /** Step `k` takes the first child that carries the target's choice. */
  ghost predicate Matched(parent: seq<int>, tokens: seq<Token>, preds: seq<Token>, path: seq<nat>, k: nat)
    requires IsTree(parent) && |tokens| == |preds| == |parent| && 0 < k < |path|
  {
    && Descends(parent, path, k) && path[k - 1] < |parent|
    && FirstMatch(parent, tokens, path[k - 1], preds[path[k - 1]], path[k])
  }

  /** The walk follows the target's choice from the root until no child carries it. */
  ghost predicate IsWalk(parent: seq<int>, tokens: seq<Token>, preds: seq<Token>, path: seq<nat>)
    requires IsTree(parent) && |tokens| == |preds| == |parent|
  {
    && RootPath(parent, path)
    && (forall k :: 0 < k < |path| ==> Matched(parent, tokens, preds, path, k))
    && NoMatch(parent, tokens, path[|path| - 1], preds[path[|path| - 1]])
  }

  function PredsAlong(preds: seq<Token>, path: seq<nat>): seq<Token>
    requires forall k :: 0 <= k < |path| ==> path[k] < |preds|
  {
    seq(|path|, k requires 0 <= k < |path| => preds[path[k]])
  }

  ghost predicate ChildTable(parent: seq<int>, children: seq<seq<nat>>, upTo: nat) {
    && |children| == |parent|
    && (forall p, i :: 0 <= p < |children| && 0 <= i < |children[p]| ==>
          0 < children[p][i] < upTo <= |parent| && parent[children[p][i]] == p)
    && (forall p, i, j :: 0 <= p < |children| && 0 <= i < j < |children[p]| ==> children[p][i] < children[p][j])
    && (forall b :: 0 < b < upTo <= |parent| && 0 <= parent[b] < |children| ==> b in children[parent[b]])
  }

  /** Children of every node, in ascending order. */
  method Children(parent: seq<int>) returns (children: seq<seq<nat>>)
    requires IsTree(parent)
    ensures ChildTable(parent, children, |parent|)
  {
    children := seq(|parent|, _ => []);
    var c := 1;
    while c < |parent|
      invariant 1 <= c <= |parent|
      invariant ChildTable(parent, children, c)
    {
      var p := parent[c];
      ChildAdded(parent, children, c);
      hide ChildTable;
      children := children[p := children[p] + [c]];
      c := c + 1;
    }
  }

  lemma ChildAdded(parent: seq<int>, children: seq<seq<nat>>, c: nat)
    requires IsTree(parent) && 0 < c < |parent| && ChildTable(parent, children, c)
    ensures ChildTable(parent, children[parent[c] := children[parent[c]] + [c]], c + 1)
  {
    var p := parent[c];
    var next := children[p := children[p] + [c]];
    forall b | 0 < b < c + 1 && 0 <= parent[b] < |next| ensures b in next[parent[b]] {
      if b < c {
        assert b in children[parent[b]];
      } else {
        assert next[p][|children[p]|] == c;
      }
    }
  }

  method TreeAcceptWalk(parent: seq<int>, tokens: seq<Token>, preds: seq<Token>)
    returns (path: seq<nat>, emitted: seq<Token>)
    requires IsTree(parent) && |tokens| == |preds| == |parent|
    ensures IsWalk(parent, tokens, preds, path)
    ensures emitted == PredsAlong(preds, path)
  {
    var children := Children(parent);
    path := [0];
    emitted := [];
    var cur := 0;
    while true
      invariant RootPath(parent, path) && cur == path[|path| - 1]
      invariant forall k :: 0 < k < |path| ==> Matched(parent, tokens, preds, path, k)
      invariant emitted == PredsAlong(preds, path[..|path| - 1])
      decreases |parent| - cur
    {
      var want := preds[cur];
      assert PredsAlong(preds, path) == PredsAlong(preds, path[..|path| - 1]) + [want];
      emitted := emitted + [want];
      var i := 0;
      while i < |children[cur]| && tokens[children[cur][i]] != want
        invariant 0 <= i <= |children[cur]|
        invariant forall j :: 0 <= j < i ==> tokens[children[cur][j]] != want
      {
        i := i + 1;
      }
      if i == |children[cur]| {
        forall b | 0 < b < |parent| && parent[b] == cur ensures tokens[b] != want {
          assert b in children[parent[b]];
        }
        return;
      }
      var c := children[cur][i];
      forall b | 0 < b < c && parent[b] == cur ensures tokens[b] != want {
        assert b in children[parent[b]];
        var j :| 0 <= j < |children[cur]| && children[cur][j] == b;
        assert j < i;
      }
      assert FirstMatch(parent, tokens, cur, want, c);
      assert (path + [c])[..|path|] == path;
      forall k | 0 < k < |path| ensures Matched(parent, tokens, preds, path + [c], k) {
        assert Matched(parent, tokens, preds, path, k);
      }
      assert Matched(parent, tokens, preds, path + [c], |path|);
      forall k | 0 < k < |path + [c]| ensures Descends(parent, path + [c], k) {
        assert Matched(parent, tokens, preds, path + [c], k);
      }
      path := path + [c];
      cur := c;
    }
  }

  /** The walk is a function of the tree: ties always go to the first child. */
  lemma {:induction false} WalksAgree(parent: seq<int>, tokens: seq<Token>, preds: seq<Token>,
                                      p: seq<nat>, q: seq<nat>, k: nat)
    requires IsTree(parent) && |tokens| == |preds| == |parent|
    requires IsWalk(parent, tokens, preds, p) && IsWalk(parent, tokens, preds, q) && k < |p| <= |q|
    ensures p[k] == q[k]
    decreases k
  {
    if k > 0 {
      WalksAgree(parent, tokens, preds, p, q, k - 1);
      assert Matched(parent, tokens, preds, p, k) && Matched(parent, tokens, preds, q, k);
    }
  }

  lemma WalkNotLonger(parent: seq<int>, tokens: seq<Token>, preds: seq<Token>, p: seq<nat>, q: seq<nat>)
    requires IsTree(parent) && |tokens| == |preds| == |parent|
    requires IsWalk(parent, tokens, preds, p) && IsWalk(parent, tokens, preds, q) && |p| <= |q|
    ensures |p| == |q|
  {
    WalksAgree(parent, tokens, preds, p, q, |p| - 1);
    assert |p| < |q| ==> Matched(parent, tokens, preds, q, |p|);
  }

  lemma WalkUnique(parent: seq<int>, tokens: seq<Token>, preds: seq<Token>, p: seq<nat>, q: seq<nat>)
    requires IsTree(parent) && |tokens| == |preds| == |parent|
    requires IsWalk(parent, tokens, preds, p) && IsWalk(parent, tokens, preds, q)
    ensures p == q
  {
    if |p| <= |q| {
      WalkNotLonger(parent, tokens, preds, p, q);
    } else {
      WalkNotLonger(parent, tokens, preds, q, p);
    }
    forall k | 0 <= k < |p| ensures p[k] == q[k] { WalksAgree(parent, tokens, preds, p, q, k); }
  }

  /** Lowest child of `cur` at or above `c` that carries `want`. */
  function FirstChild(parent: seq<int>, tokens: seq<Token>, cur: nat, want: Token, c: nat): (r: Option<nat>)
    requires IsTree(parent) && |tokens| == |parent| && cur < c <= |parent|
    requires forall b :: 0 < b < c ==> !(parent[b] == cur && tokens[b] == want)
    ensures r.None? ==> NoMatch(parent, tokens, cur, want)
    ensures r.Some? ==> FirstMatch(parent, tokens, cur, want, r.value) && cur < r.value
    decreases |parent| - c
  {
    if c == |parent| then None
    else if parent[c] == cur && tokens[c] == want then Some(c)
    else FirstChild(parent, tokens, cur, want, c + 1)
  }

  function Walk(parent: seq<int>, tokens: seq<Token>, preds: seq<Token>, cur: nat): (path: seq<nat>)
    requires IsTree(parent) && |tokens| == |preds| == |parent| && cur < |parent|
    ensures path != [] && path[0] == cur && forall k :: 0 <= k < |path| ==> path[k] < |parent|
    decreases |parent| - cur
  {
    match FirstChild(parent, tokens, cur, preds[cur], cur + 1)
    case None => [cur]
    case Some(c) => [cur] + Walk(parent, tokens, preds, c)
  }

  lemma {:induction false} WalkMatches(parent: seq<int>, tokens: seq<Token>, preds: seq<Token>, cur: nat, k: nat)
    requires IsTree(parent) && |tokens| == |preds| == |parent| && cur < |parent|
    requires 0 < k < |Walk(parent, tokens, preds, cur)|
    ensures Matched(parent, tokens, preds, Walk(parent, tokens, preds, cur), k)
    decreases k
  {
    hide NoMatch;
    var c := FirstChild(parent, tokens, cur, preds[cur], cur + 1).value;
    var rest := Walk(parent, tokens, preds, c);
    assert Walk(parent, tokens, preds, cur) == [cur] + rest;
    if k > 1 {
      WalkMatches(parent, tokens, preds, c, k - 1);
      hide Walk, FirstMatch;
    }
  }

  lemma {:induction false} WalkEnds(parent: seq<int>, tokens: seq<Token>, preds: seq<Token>, cur: nat)
    requires IsTree(parent) && |tokens| == |preds| == |parent| && cur < |parent|
    ensures var path := Walk(parent, tokens, preds, cur);
            NoMatch(parent, tokens, path[|path| - 1], preds[path[|path| - 1]])
    decreases |parent| - cur
  {
    hide NoMatch;
    var next := FirstChild(parent, tokens, cur, preds[cur], cur + 1);
    if next.Some? {
      WalkEnds(parent, tokens, preds, next.value);
    }
  }

  /** The recursive form is a walk. */
  lemma WalkFromRoot(parent: seq<int>, tokens: seq<Token>, preds: seq<Token>)
    requires IsTree(parent) && |tokens| == |preds| == |parent|
    ensures IsWalk(parent, tokens, preds, Walk(parent, tokens, preds, 0))
  {
    var w := Walk(parent, tokens, preds, 0);
    WalkEnds(parent, tokens, preds, 0);
    hide NoMatch, FirstMatch;
    forall k | 0 < k < |w| ensures Matched(parent, tokens, preds, w, k) && Descends(parent, w, k) {
      WalkMatches(parent, tokens, preds, 0, k);
    }
    hide Walk, Matched;
  }

  /** So the loop computes it. */
  lemma WalkIsTheWalk(parent: seq<int>, tokens: seq<Token>, preds: seq<Token>, path: seq<nat>)
    requires IsTree(parent) && |tokens| == |preds| == |parent|
    ensures IsWalk(parent, tokens, preds, path) <==> path == Walk(parent, tokens, preds, 0)
  {
    WalkFromRoot(parent, tokens, preds);
    hide Walk;
    if IsWalk(parent, tokens, preds, path) {
      WalkUnique(parent, tokens, preds, path, Walk(parent, tokens, preds, 0));
    }
  }

  // ------------------------------------------------------------------ the tree step

  /** `preds[c]` is the target's choice after the root path that ends in column c. */
  ghost predicate TargetPreds(net: Network, m: Mem, parent: seq<int>, tokens: seq<Token>, preds: seq<Token>)
    requires IsTree(parent) && |tokens| == |parent|
  {
    && |preds| == |parent|
    && forall c :: 0 <= c < |parent| ==> preds[c] == net.pick(NodeMem(net, m, parent, tokens, c), multiset{}, None)
  }

  /** The tokens on the walk are the committed token and then everything emitted but the last. */
  lemma WalkTokens(parent: seq<int>, tokens: seq<Token>, preds: seq<Token>, path: seq<nat>)
    requires IsTree(parent) && |tokens| == |preds| == |parent| && IsWalk(parent, tokens, preds, path)
    ensures PathTokens(tokens, path) == [tokens[0]] + PredsAlong(preds, path)[..|path| - 1]
  {
    var lhs, rhs := PathTokens(tokens, path), [tokens[0]] + PredsAlong(preds, path)[..|path| - 1];
    forall k | 0 <= k < |path| ensures lhs[k] == rhs[k] {
      if k > 0 {
        assert Matched(parent, tokens, preds, path, k);
      }
    }
  }

  lemma WalkPrefixTokens(tokens: seq<Token>, last: Token, path: seq<nat>, ts: seq<Token>, i: nat)
    requires forall k :: 0 <= k < |path| ==> path[k] < |tokens|
    requires i < |path| == |ts| && PathTokens(tokens, path) == [last] + ts[..|path| - 1]
    ensures PathTokens(tokens, path[..i + 1]) == [last] + ts[..i]
  {
    assert PathTokens(tokens, path[..i + 1]) == PathTokens(tokens, path)[..i + 1];
  }

  /** Column path[i] attends to the committed tokens and the first i the walk emits. */
  lemma WalkMem(net: Network, s: Stream, parent: seq<int>, tokens: seq<Token>, preds: seq<Token>, path: seq<nat>, i: nat)
    requires IsTree(parent) && |tokens| == |preds| == |parent| && tokens[0] == s.last
    requires IsWalk(parent, tokens, preds, path) && i < |path|
    ensures NodeMem(net, Fold(net, s.cache), parent, tokens, path[i])
         == Fold(net, s.cache + ([s.last] + PredsAlong(preds, path)[..i]))
  {
    hide NodeMem, FeedAll, Fold;
    var ts, pre := PredsAlong(preds, path), path[..i + 1];
    WalkTokens(parent, tokens, preds, path);
    RootPathPrefix(parent, path, i + 1);
    PathMem(net, Fold(net, s.cache), parent, tokens, pre);
    WalkPrefixTokens(tokens, s.last, path, ts, i);
    FoldAppend(net, s.cache, PathTokens(tokens, pre));
  }

  lemma WalkChooses(net: Network, eos: set<Token>, req: Request, s: Stream,
                    parent: seq<int>, tokens: seq<Token>, preds: seq<Token>, path: seq<nat>, i: nat)
    requires IsTree(parent) && |tokens| == |preds| == |parent| && tokens[0] == s.last
    requires !req.penalized && req.schema.None?
    requires TargetPreds(net, Fold(net, s.cache), parent, tokens, preds)
    requires IsWalk(parent, tokens, preds, path) && i < |path|
    ensures preds[path[i]] == Choose(net, req, TakeAll(eos, req, s, PredsAlong(preds, path)[..i]))
  {
    hide TakeAll, NodeMem, Fold;
    WalkMem(net, s, parent, tokens, preds, path, i);
    TakenFeeds(eos, req, s, PredsAlong(preds, path)[..i]);
  }

  lemma WalkIsRootPath(parent: seq<int>, tokens: seq<Token>, preds: seq<Token>, path: seq<nat>)
    requires IsTree(parent) && |tokens| == |preds| == |parent| && IsWalk(parent, tokens, preds, path)
    ensures RootPath(parent, path) && |path| <= |parent|
  {
    RootPathRises(parent, path, |path| - 1);
  }

  lemma TakenFeeds(eos: set<Token>, req: Request, s: Stream, ts: seq<Token>)
    ensures var si := TakeAll(eos, req, s, ts); si.cache + [si.last] == s.cache + ([s.last] + ts)
  {
    if ts == [] {
      assert s.cache + ([s.last] + ts) == s.cache + [s.last];
    } else {
      TakeAllIs(eos, req, s, ts);
      assert s.cache + ([s.last] + ts) == s.cache + [s.last] + ts[..|ts| - 1] + [ts[|ts| - 1]];
    }
  }

  /** Every emitted token is what plain decode chooses after the ones before it. */
  lemma WalkIsGreedy(net: Network, eos: set<Token>, req: Request, s: Stream,
                     parent: seq<int>, tokens: seq<Token>, preds: seq<Token>, path: seq<nat>)
    requires IsTree(parent) && |tokens| == |preds| == |parent| && tokens[0] == s.last
    requires !req.penalized && req.schema.None?
    requires TargetPreds(net, Fold(net, s.cache), parent, tokens, preds)
    requires IsWalk(parent, tokens, preds, path)
    ensures Follows(net, eos, req, s, PredsAlong(preds, path))
  {
    var ts := PredsAlong(preds, path);
    forall i | 0 <= i < |ts| ensures ts[i] == Choose(net, req, TakeAll(eos, req, s, ts[..i])) {
      WalkChooses(net, eos, req, s, parent, tokens, preds, path, i);
    }
    FollowsFrom(net, eos, req, s, ts, 0);
    assert ts[..0] == [] && ts[0..] == ts;
  }

  /** The walk's tokens are committed in the slot's recurrent state and KV rows. */
  lemma WalkCommits(net: Network, s: Stream, d: Dev, slot: nat, ckpt: nat,
                    parent: seq<int>, tokens: seq<Token>, preds: seq<Token>, path: seq<nat>)
    requires IsTree(parent) && |tokens| == |preds| == |parent| && tokens[0] == s.last
    requires InPlane(d, slot, |s.cache| + |tokens|) && slot < ckpt && ckpt + |tokens| - 1 <= |d.cells|
    requires MemAt(d, slot, |s.cache|) == Fold(net, s.cache)
    requires IsWalk(parent, tokens, preds, path)
    ensures |path| <= |tokens|
    ensures var v := Verify(net, d, slot, |s.cache|, parent, tokens, ckpt);
            var a := Adopt(v, slot, |s.cache|, path, |tokens|, ckpt);
            MemAt(a, slot, |s.cache| + |path|)
              == Fold(net, s.cache + [s.last] + PredsAlong(preds, path)[..|path| - 1])
  {
    WalkIsRootPath(parent, tokens, preds, path);
    WalkTokens(parent, tokens, preds, path);
    VerifyThenAdopt(net, d, slot, |s.cache|, parent, tokens, ckpt, path);
    FoldAppend(net, s.cache, PathTokens(tokens, path));
    var e := PredsAlong(preds, path)[..|path| - 1];
    assert s.cache + ([s.last] + e) == s.cache + [s.last] + e;
  }

  /** The stream half: a tree step of an unconstrained lane is that many plain steps. */
  lemma TreeCommitIsPlain(net: Network, eos: set<Token>, req: Request, s: Stream,
                          parent: seq<int>, tokens: seq<Token>, preds: seq<Token>, path: seq<nat>)
    requires IsTree(parent) && |tokens| == |preds| == |parent| && tokens[0] == s.last
    requires !s.finished && s.generated < req.maxNew && !req.penalized && req.schema.None?
    requires TargetPreds(net, Fold(net, s.cache), parent, tokens, preds)
    requires IsWalk(parent, tokens, preds, path)
    ensures var emitted := PredsAlong(preds, path);
            var n := |path| - 1;
            SameLane(Commit(eos, req, s, emitted[..n], emitted[n]),
                     Decodes(net, eos, req, s, |Emit(eos, req, s.generated, emitted[..n], emitted[n]).0|))
  {
    WalkIsGreedy(net, eos, req, s, parent, tokens, preds, path);
    var emitted, n := PredsAlong(preds, path), |path| - 1;
    hide Decodes, Follows, TargetPreds, IsWalk, Commit, Emit, SameLane;
    assert emitted[..n] + [emitted[n]] == emitted;
    NoSchemaIsQuiet(req, s.schemaState, Emit(eos, req, s.generated, emitted[..n], emitted[n]).0);
    CommitIsPlain(net, eos, req, s, emitted[..n], emitted[n]);
  }

  /** A tree step on an unpenalized lane without a schema is lossless for every draft tree, and
      it leaves the slot's recurrent state and KV rows as sequential decode would. */
  lemma TreeStepIsPlain(net: Network, eos: set<Token>, req: Request, s: Stream, d: Dev, slot: nat, ckpt: nat,
                        parent: seq<int>, tokens: seq<Token>, preds: seq<Token>, path: seq<nat>)
    requires IsTree(parent) && |tokens| == |preds| == |parent| && tokens[0] == s.last
    requires !s.finished && s.generated < req.maxNew && !req.penalized && req.schema.None?
    requires InPlane(d, slot, |s.cache| + |tokens|) && slot < ckpt && ckpt + |tokens| - 1 <= |d.cells|
    requires MemAt(d, slot, |s.cache|) == Fold(net, s.cache)
    requires TargetPreds(net, Fold(net, s.cache), parent, tokens, preds)
    requires IsWalk(parent, tokens, preds, path)
    ensures |path| <= |tokens|
    ensures var emitted := PredsAlong(preds, path);
            var n := |path| - 1;
            var c := Commit(eos, req, s, emitted[..n], emitted[n]);
            var v := Verify(net, d, slot, |s.cache|, parent, tokens, ckpt);
            var a := Adopt(v, slot, |s.cache|, path, |tokens|, ckpt);
            && SameLane(c, Decodes(net, eos, req, s, |Emit(eos, req, s.generated, emitted[..n], emitted[n]).0|))
            && |c.cache| == |s.cache| + |path|
            && MemAt(a, slot, |c.cache|) == Fold(net, c.cache)
  {
    WalkIsRootPath(parent, tokens, preds, path);
    hide Decodes, Verify, Adopt, TargetPreds, IsWalk, Emit, SameLane, Fold;
    WalkCommits(net, s, d, slot, ckpt, parent, tokens, preds, path);
    TreeCommitIsPlain(net, eos, req, s, parent, tokens, preds, path);
    var emitted, n := PredsAlong(preds, path), |path| - 1;
    assert Commit(eos, req, s, emitted[..n], emitted[n]).cache == s.cache + [s.last] + emitted[..n];
  }
}
