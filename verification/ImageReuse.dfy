// What the image check of a reused prefix buys the scheduler: over prompts with spliced images, a
// restored prefix is the cold one for every network exactly when the check pins its images.

module ImageReuse {
  import opened Wrappers
  import opened Trunk
  import opened Device
  import opened Slots
  import opened LaneSteps
  import opened SchedAdmit
  import opened Images

  /** What the trunk consumes at a position: the token, and the image whose embeddings start there. */
  type Splice = (Token, Option<nat>) -> Token

  function SeenAt(splice: Splice, toks: seq<Token>, images: seq<Image>, p: nat): Token
    requires p < |toks|
  {
    splice(toks[p], At(images, p))
  }

  /** The first `n` positions of a prompt as the trunk consumes them. */
  function Seen(splice: Splice, toks: seq<Token>, images: seq<Image>, n: nat): (r: seq<Token>)
    requires n <= |toks|
    ensures |r| == n && forall p :: 0 <= p < n ==> r[p] == SeenAt(splice, toks, images, p)
  {
    seq(n, p requires 0 <= p < n => SeenAt(splice, toks, images, p))
  }

  /** Two prompts leave the same memory after `l` positions, whatever the network and its splice. */
  ghost predicate SameMemory(toks: seq<Token>, images: seq<Image>, toks': seq<Token>, images': seq<Image>, l: nat)
    requires l <= |toks| && l <= |toks'|
  {
    forall net: Network, splice: Splice :: Fold(net, Seen(splice, toks, images, l)) == Fold(net, Seen(splice, toks', images', l))
  }

  /** A splice that tells one image from everything else, and a network that remembers position p. */
  function Tells(o: Option<nat>): Splice {
    (t: Token, i: Option<nat>) => if i == o then 1 else 0
  }

  function Remembers(p: nat): Network {
    Network(0, (g: Gdn, rows: seq<Row>, t: Token) => if |rows| == p then t else g,
            (g: Gdn, rows: seq<Row>, t: Token) => 0, (m: Mem, table: multiset<Token>, mask: Option<set<Token>>) => 0)
  }

  lemma {:induction false} Remembered(p: nat, toks: seq<Token>)
    ensures p < |toks| ==> Fold(Remembers(p), toks).gdn == toks[p]
    decreases |toks|
  {
    if p < |toks| {
      FoldLength(Remembers(p), toks[..|toks| - 1]);
      Remembered(p, toks[..|toks| - 1]);
    }
  }

  /** Over the tokens a slot and a request agree on, the restored memory is the cold one for every
      network exactly when the check passes and no image of the slot is missing from the request. */
  lemma ReuseIsColdExactly(cache: seq<Token>, slot: seq<Image>, prompt: seq<Token>, req: seq<Image>, l: nat)
    requires l <= |cache| && l <= |prompt| && cache[..l] == prompt[..l] && DistinctStarts(slot) && DistinctStarts(req)
    ensures SameMemory(cache, slot, prompt, req, l) <==> Compatible(slot, req, l) && SlotCovered(slot, req, l)
  {
    CompatibleMeans(slot, req, l);
    hide Compatible, SlotCovered;
    assert forall p :: 0 <= p < l ==> cache[..l][p] == prompt[..l][p];
    if SameContent(slot, req, l) {
      forall net: Network, splice: Splice ensures Fold(net, Seen(splice, cache, slot, l)) == Fold(net, Seen(splice, prompt, req, l)) {
        assert Seen(splice, cache, slot, l) == Seen(splice, prompt, req, l);
      }
    } else {
      var p :| 0 <= p < l && At(slot, p) != At(req, p);
      var splice := Tells(At(slot, p));
      Remembered(p, Seen(splice, cache, slot, l));
      Remembered(p, Seen(splice, prompt, req, l));
      assert Fold(Remembers(p), Seen(splice, cache, slot, l)) != Fold(Remembers(p), Seen(splice, prompt, req, l));
    }
  }

  /** The scheduler's restore of a ring entry, over prompts with images. */
  lemma ResumedColdWithImages(net: Network, splice: Splice, cfg: Config, d: Dev, p: nat, sl: Slot, cache: seq<Token>,
                              slot: seq<Image>, prompt: seq<Token>, req: seq<Image>, j: nat)
    requires SlotOk(net, cfg, d, p, sl, sl.cache) && sl.cache == Seen(splice, cache, slot, |cache|)
    requires j < RING_K && 0 < sl.ringLen[j] <= |cache| && sl.ringLen[j] <= |prompt|
    requires cache[..sl.ringLen[j]] == prompt[..sl.ringLen[j]] && DistinctStarts(slot) && DistinctStarts(req)
    requires Compatible(slot, req, sl.ringLen[j]) && SlotCovered(slot, req, sl.ringLen[j])
    ensures RingCell(cfg, p, j) < |d.cells|
    ensures Live(net, CopyCell(d, RingCell(cfg, p, j), p), p, Seen(splice, prompt, req, sl.ringLen[j]))
  {
    var n := sl.ringLen[j];
    CompatibleMeans(slot, req, n);
    assert sl.cache[..n] == Seen(splice, prompt, req, n) by {
      assert forall k :: 0 <= k < n ==> cache[..n][k] == prompt[..n][k];
    }
    var seen := Seen(splice, prompt, req, n);
    assert seen[..n] == seen;
    hide Compatible, SlotCovered, SameContent;
    ResumedCold(net, cfg, d, p, sl, seen, j);
  }
}
