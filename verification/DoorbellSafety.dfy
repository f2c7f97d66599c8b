// Safety of the two-rank transport: whatever order the NIC places things in, K2 reads exactly
// the peer's words, nothing is overwritten early, and the ranks stay one barrier apart.

module DoorbellSafety {
  import opened Doorbell

  /** The slot begins with these words. */
  ghost predicate Holds(slot: seq<Word>, ws: seq<Word>) {
    |ws| <= |slot| && forall i :: 0 <= i < |ws| ==> slot[i] == ws[i]
  }

  /** What epoch f left where epoch e's tail will be looked for reads as e's number, and no epoch
      in between reaches that far into the slot. */
  ghost predicate FalseTail(j: Job, x: nat, f: nat, e: nat) {
    && 0 < f < e && f % R == e % R && j.len(e) < j.len(f) && j.len(e) < |j.data(x, f)|
    && j.data(x, f)[j.len(e)] == e
    && forall g: nat :: f < g < e && g % R == e % R ==> j.len(g) < j.len(e)
  }

  /** No stale word of the job can pass for a tail. */
  ghost predicate NoFalseTail(j: Job) {
    forall x: nat, f: nat, e: nat :: x < 2 ==> !FalseTail(j, x, f, e)
  }

  // ------------------------------------------------------------------ invariant

  /** Counters of one rank: stream order, reuse gate, and the proxy's two cursors. */
  ghost predicate Counters(a: Rank) {
    && a.k2 <= a.k1 <= a.k2 + 1 && |a.reduced| == a.k2
    && a.tx.retired <= a.tx.posted == |a.tx.placed| <= a.tx.ready == a.k1 <= a.tx.retired + R
    && (a.k2 <= a.rx.done || a.k2 <= a.rx.proved) && a.rx.proved <= a.k1 && a.rx.done <= a.rx.checked
    && (a.rx.checked == a.rx.done || a.rx.checked <= a.rx.seen)
  }

  ghost predicate PlacedOk(n: nat, p: Placed) {
    && p.len == n
    && (forall i :: i in p.words ==> i <= n)
    && (n in p.words ==> AllBelow(p.words, n))
  }

  ghost predicate SendOk(j: Job, x: nat, a: Rank)
    requires Shaped(j, a)
  {
    && (forall e: nat :: a.tx.retired < e <= a.k1 ==> Holds(a.tx.send[e % R], Wire(j, x, e)))
    && (forall e: nat :: a.tx.posted < e <= a.k1 ==> a.tx.lenLocal[e % LEN_EPOCHS] == Tag(e, j.len(e)))
    && (forall k :: 0 <= k < |a.tx.placed| ==> PlacedOk(j.len(k + 1), a.tx.placed[k]))
    && (forall k :: 0 <= k < a.tx.retired && k < |a.tx.placed| ==> Complete(a.tx.placed[k]))
  }

  /** Where a receive-ring word came from: the newest epoch that placed one there, if any. */
  ghost predicate From(j: Job, x: nat, a: Rank, s: nat, i: nat, w: Word) {
    (w == 0 && NoneSince(a, s, i, 0)) || exists e: nat :: CameFrom(j, x, a, s, i, w, e)
  }

  ghost predicate CameFrom(j: Job, x: nat, a: Rank, s: nat, i: nat, w: Word, e: nat) {
    && 0 < e <= |a.tx.placed| && e % R == s && i in a.tx.placed[e - 1].words
    && i < |Wire(j, x, e)| && w == Wire(j, x, e)[i] && NoneSince(a, s, i, e)
  }

  /** No epoch after e placed its word i in slot s. */
  ghost predicate NoneSince(a: Rank, s: nat, i: nat, e: nat) {
    forall k :: e <= k < |a.tx.placed| && (k + 1) % R == s ==> i !in a.tx.placed[k].words
  }

  ghost predicate TagOk(j: Job, a: Rank, idx: nat, t: Tag) {
    t.epoch == 0 || (t.epoch <= |a.tx.placed| && t.len == j.len(t.epoch))
  }

  /** The tail of epoch e is in place at the peer. */
  ghost predicate TailPlaced(a: Rank, e: nat) {
    0 < e <= |a.tx.placed| && a.tx.placed[e - 1].len in a.tx.placed[e - 1].words
  }

  /** Placed words of an epoch the peer has not consumed are still in the peer's slot. */
  ghost predicate SlotKeeps(j: Job, x: nat, a: Rank, b: Rank, e: nat)
    requires Shaped(j, b) && 0 < e <= |a.tx.placed|
  {
    forall i :: i in a.tx.placed[e - 1].words && i < j.cap && i < |Wire(j, x, e)| ==> b.rx.recv[e % R][i] == Wire(j, x, e)[i]
  }

  /** What `b` holds of what rank x, in state `a`, has sent. */
  ghost predicate RecvOk(j: Job, x: nat, a: Rank, b: Rank)
    requires Shaped(j, a) && Shaped(j, b)
  {
    && b.rx.committed <= |a.tx.placed| && b.rx.seen <= |a.tx.placed|
    && (forall e: nat :: 0 < e <= b.rx.checked || 0 < e <= b.rx.proved ==> TailPlaced(a, e))
    && (forall e: nat :: b.k2 < e <= |a.tx.placed| ==> SlotKeeps(j, x, a, b, e))
    && (forall s, i :: 0 <= s < R && 0 <= i < j.cap ==> From(j, x, a, s, i, b.rx.recv[s][i]))
    && (forall k :: 0 <= k < LEN_EPOCHS ==> TagOk(j, a, k, b.rx.lenPeer[k]))
    && (forall k :: 0 <= k < |b.reduced| ==> b.reduced[k] == j.data(x, k + 1))
  }

  /** Everything about one direction and both ranks; x is the rank in state `a`. */
  ghost predicate Good(j: Job, x: nat, a: Rank, b: Rank) {
    && x < 2 && Shaped(j, a) && Shaped(j, b) && Counters(a) && Counters(b)
    && SendOk(j, x, a) && SendOk(j, 1 - x, b)
    && RecvOk(j, x, a, b) && RecvOk(j, 1 - x, b, a)
  }

  /** Skew: a rank is at most two published epochs past what its peer has consumed. */
  lemma Window(j: Job, x: nat, a: Rank, b: Rank)
    requires Good(j, x, a, b)
    ensures a.rx.checked <= |b.tx.placed| && b.rx.checked <= |a.tx.placed|
    ensures a.rx.proved <= |b.tx.placed| && b.rx.proved <= |a.tx.placed|
    ensures |a.tx.placed| <= a.k1 <= b.k2 + 2 && |b.tx.placed| <= b.k1 <= a.k2 + 2
    ensures a.k1 <= b.k1 + 1 && b.k1 <= a.k1 + 1
  {
    if a.rx.checked > 0 { assert TailPlaced(b, a.rx.checked); }
    if b.rx.checked > 0 { assert TailPlaced(a, b.rx.checked); }
    if a.rx.proved > 0 { assert TailPlaced(b, a.rx.proved); }
    if b.rx.proved > 0 { assert TailPlaced(a, b.rx.proved); }
  }

  // ------------------------------------------------------------------ local steps

  lemma SlotsApart(e: nat, f: nat)
    requires e < f < e + R
    ensures e % R != f % R && e % LEN_EPOCHS != f % LEN_EPOCHS
  {
  }

  lemma K1Sends(j: Job, x: nat, a: Rank)
    requires JobOk(j) && Shaped(j, a) && Counters(a) && SendOk(j, x, a) && CanK1(a)
    ensures Shaped(j, K1(j, x, a)) && Counters(K1(j, x, a)) && SendOk(j, x, K1(j, x, a))
  {
    var e, a' := a.k1 + 1, K1(j, x, a);
    forall f: nat | a'.tx.retired < f <= a'.k1 ensures Holds(a'.tx.send[f % R], Wire(j, x, f)) {
      if f < e {
        SlotsApart(f, e);
      }
    }
    forall f: nat | a'.tx.posted < f <= a'.k1 ensures a'.tx.lenLocal[f % LEN_EPOCHS] == Tag(f, j.len(f)) {
      if f < e {
        SlotsApart(f, e);
      }
    }
  }

  lemma K1Keeps(j: Job, x: nat, a: Rank, b: Rank)
    requires JobOk(j) && Good(j, x, a, b) && CanK1(a)
    ensures Good(j, x, K1(j, x, a), b)
  {
    hide TailPlaced, SlotKeeps, From, TagOk, Holds, PlacedOk, Complete;
    K1Sends(j, x, a);
    SendFrame(j, x, a, K1(j, x, a), b);
    RecvFrame(j, 1 - x, b, a, K1(j, x, a));
  }

  /** The sender's ring may change freely; the receiver only depends on what was placed. */
  lemma SendFrame(j: Job, x: nat, a: Rank, a': Rank, b: Rank)
    requires Shaped(j, a) && Shaped(j, a') && Shaped(j, b) && RecvOk(j, x, a, b) && a'.tx.placed == a.tx.placed
    ensures RecvOk(j, x, a', b)
  {
    forall e: nat | 0 < e <= b.rx.checked || 0 < e <= b.rx.proved ensures TailPlaced(a', e) { assert TailPlaced(a, e); }
    forall e: nat | b.k2 < e <= |a'.tx.placed| ensures SlotKeeps(j, x, a', b, e) { assert SlotKeeps(j, x, a, b, e); }
    forall s, i | 0 <= s < R && 0 <= i < j.cap ensures From(j, x, a', s, i, b.rx.recv[s][i]) {
      FromFrame(j, x, a, a', s, i, b.rx.recv[s][i]);
    }
    forall k | 0 <= k < LEN_EPOCHS ensures TagOk(j, a', k, b.rx.lenPeer[k]) { assert TagOk(j, a, k, b.rx.lenPeer[k]); }
  }

  /** Newly posted epochs have placed nothing yet, so every word still comes from where it did. */
  lemma FromFrame(j: Job, x: nat, a: Rank, a': Rank, s: nat, i: nat, w: Word)
    requires From(j, x, a, s, i, w) && |a.tx.placed| <= |a'.tx.placed|
    requires forall k :: 0 <= k < |a.tx.placed| ==> a.tx.placed[k].words == a'.tx.placed[k].words
    requires forall k :: |a.tx.placed| <= k < |a'.tx.placed| ==> a'.tx.placed[k].words == {}
    ensures From(j, x, a', s, i, w)
  {
    if !(w == 0 && NoneSince(a, s, i, 0)) {
      var e: nat :| CameFrom(j, x, a, s, i, w, e);
      assert CameFrom(j, x, a', s, i, w, e);
    }
  }

  /** The receiver's own kernels and sends do not touch its receive side. */
  lemma RecvFrame(j: Job, x: nat, a: Rank, b: Rank, b': Rank)
    requires Shaped(j, a) && Shaped(j, b) && Shaped(j, b') && RecvOk(j, x, a, b)
    requires b'.rx.recv == b.rx.recv && b'.rx.lenPeer == b.rx.lenPeer && b'.reduced == b.reduced && b'.k2 == b.k2
    requires b'.rx.committed == b.rx.committed && (b'.rx.seen == b.rx.seen || b'.rx.seen == b.rx.committed)
    requires b'.rx.checked <= b.rx.checked || (b'.rx.checked == b.rx.checked + 1 && TailPlaced(a, b'.rx.checked))
    requires b'.rx.proved <= b.rx.proved || (b'.rx.proved == b.k2 + 1 && TailPlaced(a, b'.rx.proved) && Counters(b))
    ensures RecvOk(j, x, a, b')
  {
    forall e: nat | b'.k2 < e <= |a.tx.placed| ensures SlotKeeps(j, x, a, b', e) { assert SlotKeeps(j, x, a, b, e); }
  }

  lemma PostSends(j: Job, x: nat, a: Rank)
    requires Shaped(j, a) && Counters(a) && SendOk(j, x, a) && CanPost(a)
    ensures Shaped(j, Post(a)) && Counters(Post(a)) && SendOk(j, x, Post(a))
  {
    var e := a.tx.posted + 1;
    assert a.tx.lenLocal[e % LEN_EPOCHS] == Tag(e, j.len(e));
  }

  lemma PostReaches(j: Job, x: nat, a: Rank, b: Rank)
    requires Shaped(j, a) && Shaped(j, b) && Counters(a) && RecvOk(j, x, a, b) && CanPost(a)
    ensures Shaped(j, Post(a)) && RecvOk(j, x, Post(a), b)
  {
    var a', e := Post(a), a.tx.posted + 1;
    forall f: nat | 0 < f <= b.rx.checked || 0 < f <= b.rx.proved ensures TailPlaced(a', f) { assert TailPlaced(a, f); }
    forall f: nat | b.k2 < f <= |a'.tx.placed| ensures SlotKeeps(j, x, a', b, f) {
      if f < e { assert SlotKeeps(j, x, a, b, f); }
    }
    forall s, i | 0 <= s < R && 0 <= i < j.cap ensures From(j, x, a', s, i, b.rx.recv[s][i]) {
      FromFrame(j, x, a, a', s, i, b.rx.recv[s][i]);
    }
    forall k | 0 <= k < LEN_EPOCHS ensures TagOk(j, a', k, b.rx.lenPeer[k]) { assert TagOk(j, a, k, b.rx.lenPeer[k]); }
  }

  lemma PostKeeps(j: Job, x: nat, a: Rank, b: Rank)
    requires JobOk(j) && Good(j, x, a, b) && CanPost(a)
    ensures Good(j, x, Post(a), b)
  {
    hide TailPlaced, SlotKeeps, From, TagOk, Holds, PlacedOk, Complete;
    PostSends(j, x, a);
    PostReaches(j, x, a, b);
    RecvFrame(j, 1 - x, b, a, Post(a));
  }

  lemma RetireKeeps(j: Job, x: nat, a: Rank, b: Rank, m: nat)
    requires JobOk(j) && Good(j, x, a, b) && CanRetire(a, m)
    ensures Good(j, x, Retire(a, m), b)
  {
    SendFrame(j, x, a, Retire(a, m), b);
    RecvFrame(j, 1 - x, b, a, Retire(a, m));
  }

  lemma ProxyKeeps(j: Job, x: nat, a: Rank, a': Rank, b: Rank)
    requires JobOk(j) && Good(j, x, a, b)
    requires (CanLook(a) && a' == Look(a)) || (CanRelease(a) && a' == Release(a))
    ensures Good(j, x, a', b)
  {
    hide TailPlaced, SlotKeeps, From, TagOk, Holds, PlacedOk, Complete;
    SendFrame(j, x, a, a', b);
    RecvFrame(j, 1 - x, b, a, a');
  }

  // ------------------------------------------------------------------ validation and consumption

  /** Epoch e's tail word is in the peer's slot. */
  predicate TailIn(j: Job, b: Rank, e: nat)
    requires |b.rx.recv| == R
  {
    j.len(e) < |b.rx.recv[e % R]| && b.rx.recv[e % R][j.len(e)] == e
  }

  /** A consumed epoch has all its words in place. */
  lemma ConsumedPlaced(j: Job, x: nat, a: Rank, b: Rank, g: nat, i: nat)
    requires Good(j, x, a, b) && 0 < g <= b.k2
    ensures g <= |a.tx.placed| && (i in a.tx.placed[g - 1].words <==> i <= j.len(g))
  {
    assert TailPlaced(a, g) && PlacedOk(j.len(g), a.tx.placed[g - 1]);
  }

  /** The tail word of an unconsumed epoch shows exactly when its own tail was placed, or when the
      newest older epoch reaching that far into the slot left a false one. */
  lemma TailMeans(j: Job, x: nat, a: Rank, b: Rank, e: nat)
    requires JobOk(j) && Good(j, x, a, b) && b.k2 < e <= |a.tx.placed|
    ensures TailIn(j, b, e) <==> TailPlaced(a, e) || exists f: nat :: FalseTail(j, x, f, e)
  {
    Window(j, x, a, b);
    assert PlacedOk(j.len(e), a.tx.placed[e - 1]);
    if TailPlaced(a, e) {
      assert SlotKeeps(j, x, a, b, e);
    } else {
      if TailIn(j, b, e) {
        StaleTail(j, x, a, b, e);
      }
      forall f: nat | FalseTail(j, x, f, e) ensures TailIn(j, b, e) {
        FalseTailShows(j, x, a, b, f, e);
      }
    }
  }

  lemma StaleTail(j: Job, x: nat, a: Rank, b: Rank, e: nat)
    requires JobOk(j) && Good(j, x, a, b) && b.k2 < e <= |a.tx.placed| && TailIn(j, b, e) && !TailPlaced(a, e)
    ensures exists f: nat :: FalseTail(j, x, f, e)
  {
    Window(j, x, a, b);
    var n := j.len(e);
    assert PlacedOk(n, a.tx.placed[e - 1]);
    assert From(j, x, a, e % R, n, e);
    var f: nat :| CameFrom(j, x, a, e % R, n, e, f);
    assert PlacedOk(j.len(f), a.tx.placed[f - 1]);
    if f > e {
      SlotsApart(e, f);
    }
    forall g: nat | f < g < e && g % R == e % R ensures j.len(g) < n {
      OlderConsumed(g, e, b.k2);
      ConsumedPlaced(j, x, a, b, g, n);
      assert n !in a.tx.placed[g - 1].words;
    }
    assert FalseTail(j, x, f, e);
  }

  /** An older epoch of the same slot is consumed once the next one is within the window. */
  lemma OlderConsumed(g: nat, e: nat, k2: nat)
    requires g < e <= k2 + 2 && g % R == e % R
    ensures g <= k2
  {
    if g + R > e {
      SlotsApart(g, e);
    }
  }

  lemma FalseTailShows(j: Job, x: nat, a: Rank, b: Rank, f: nat, e: nat)
    requires JobOk(j) && Good(j, x, a, b) && b.k2 < e <= |a.tx.placed| && !TailPlaced(a, e) && FalseTail(j, x, f, e)
    ensures TailIn(j, b, e)
  {
    Window(j, x, a, b);
    var n, s := j.len(e), e % R;
    var w := b.rx.recv[s][n];
    assert From(j, x, a, s, n, w);
    OlderConsumed(f, e, b.k2);
    ConsumedPlaced(j, x, a, b, f, n);
    var h: nat :| CameFrom(j, x, a, s, n, w, h);
    assert a.tx.placed[f - 1] == a.tx.placed[f - 1] && h >= f;
    if h > e {
      SlotsApart(e, h);
    } else if f < h < e {
      OlderConsumed(h, e, b.k2);
      ConsumedPlaced(j, x, a, b, h, n);
    }
  }

  /** Without false tails, the tail word proves the tail is in place. */
  lemma TailProves(j: Job, x: nat, a: Rank, b: Rank, e: nat)
    requires JobOk(j) && NoFalseTail(j) && Good(j, x, a, b) && b.k2 < e <= |a.tx.placed| && TailIn(j, b, e)
    ensures TailPlaced(a, e)
  {
    TailMeans(j, x, a, b, e);
  }

  /** The proxy's check of an epoch the GPU has not proved looks exactly at that tail word. */
  lemma TailCheckMeans(j: Job, x: nat, a: Rank, b: Rank)
    requires JobOk(j) && Good(j, x, a, b) && b.rx.checked < b.rx.seen && b.rx.proved <= b.rx.checked
    requires b.rx.lenPeer[(b.rx.checked + 1) % LEN_EPOCHS].epoch == b.rx.checked + 1
    ensures b.k2 < b.rx.checked + 1 <= |a.tx.placed|
    ensures CanCheck(b) <==> TailIn(j, b, b.rx.checked + 1)
  {
    var e := b.rx.checked + 1;
    assert TagOk(j, a, e % LEN_EPOCHS, b.rx.lenPeer[e % LEN_EPOCHS]);
  }

  /** What the proxy's check proves, GPU-proved epochs included. */
  lemma TailCheckProves(j: Job, x: nat, a: Rank, b: Rank)
    requires JobOk(j) && NoFalseTail(j) && Good(j, x, a, b) && CanCheck(b)
    ensures TailPlaced(a, b.rx.checked + 1)
  {
    if b.rx.proved <= b.rx.checked {
      TailCheckMeans(j, x, a, b);
      TailProves(j, x, a, b, b.rx.checked + 1);
    }
  }

  /** What a rank takes for arrived has arrived: the tail behind its next check or proof is placed. */
  ghost predicate Backed(a: Rank, b: Rank, t: Step) {
    && (t.DoCheck? ==> TailPlaced(b, a.rx.checked + 1))
    && (t.DoProve? ==> TailPlaced(b, a.k1))
  }

  lemma StepBacked(j: Job, x: nat, a: Rank, b: Rank, t: Step)
    requires JobOk(j) && NoFalseTail(j) && Good(j, x, a, b) && Can(j, a, b, t)
    ensures Backed(a, b, t)
  {
    hide Good, NoFalseTail, TailPlaced, CanCheck, CanProve, JobOk;
    GoodSwaps(j, x, a, b);
    if t.DoCheck? {
      TailCheckProves(j, 1 - x, b, a);
    } else if t.DoProve? {
      ProveBacked(j, 1 - x, b, a);
    }
  }

  lemma ProveBacked(j: Job, x: nat, a: Rank, b: Rank)
    requires JobOk(j) && NoFalseTail(j) && Good(j, x, a, b) && CanProve(j, b)
    ensures TailPlaced(a, b.k1)
  {
    if b.rx.done < b.k1 {
      TailProves(j, x, a, b, b.k1);
    }
  }

  lemma CheckKeeps(j: Job, x: nat, a: Rank, b: Rank)
    requires JobOk(j) && Good(j, x, a, b) && CanCheck(b) && TailPlaced(a, b.rx.checked + 1)
    ensures Good(j, x, a, Check(b))
  {
    hide TailPlaced, SlotKeeps, From, TagOk, Holds, PlacedOk, Complete;
    SendFrame(j, 1 - x, b, Check(b), a);
    RecvFrame(j, x, a, b, Check(b));
  }

  lemma ProveKeeps(j: Job, x: nat, a: Rank, b: Rank)
    requires JobOk(j) && Good(j, x, a, b) && CanProve(j, b) && TailPlaced(a, b.k1)
    ensures Good(j, x, a, Prove(b))
  {
    hide TailPlaced, SlotKeeps, From, TagOk, Holds, PlacedOk, Complete;
    SendFrame(j, 1 - x, b, Prove(b), a);
    RecvFrame(j, x, a, b, Prove(b));
  }

  /** K2 reads exactly the words the peer's K1 of that epoch wrote. */
  lemma K2Reads(j: Job, x: nat, a: Rank, b: Rank)
    requires JobOk(j) && Good(j, x, a, b) && CanK2(b)
    ensures var e := b.k2 + 1; b.rx.recv[e % R][..j.len(e)] == j.data(x, e)
  {
    var e := b.k2 + 1;
    assert TailPlaced(a, e) && SlotKeeps(j, x, a, b, e);
    assert PlacedOk(j.len(e), a.tx.placed[e - 1]);
    assert forall i :: 0 <= i < j.len(e) ==> i in a.tx.placed[e - 1].words && Wire(j, x, e)[i] == j.data(x, e)[i];
  }

  lemma K2Keeps(j: Job, x: nat, a: Rank, b: Rank)
    requires JobOk(j) && Good(j, x, a, b) && CanK2(b)
    ensures Good(j, x, a, K2(j, b))
  {
    K2Reads(j, x, a, b);
    var b' := K2(j, b);
    hide TailPlaced, SlotKeeps, From, TagOk, Holds, PlacedOk, Complete;
    SendFrame(j, 1 - x, b, b', a);
    forall e: nat | b'.k2 < e <= |a.tx.placed| ensures SlotKeeps(j, x, a, b', e) { assert SlotKeeps(j, x, a, b, e); }
  }

  // ------------------------------------------------------------------ placement

  lemma MarkedTags(j: Job, x: nat, a: Rank, e: nat, p: Placed)
    requires 0 < e <= |a.tx.placed| && p.len == a.tx.placed[e - 1].len && a.tx.placed[e - 1].words <= p.words
    ensures var a' := MarkPlaced(a, e, p);
            && (forall f: nat :: TailPlaced(a, f) ==> TailPlaced(a', f))
            && (forall k, t :: TagOk(j, a, k, t) ==> TagOk(j, a', k, t))
  {
  }

  /** A tag or a commit moves no payload word. */
  lemma MarkedFrom(j: Job, x: nat, a: Rank, e: nat, p: Placed, b: Rank)
    requires Shaped(j, a) && Shaped(j, b) && 0 < e <= |a.tx.placed| && a.tx.placed[e - 1].words == p.words
    requires forall s, i :: 0 <= s < R && 0 <= i < j.cap ==> From(j, x, a, s, i, b.rx.recv[s][i])
    ensures var a' := MarkPlaced(a, e, p);
            forall s, i :: 0 <= s < R && 0 <= i < j.cap ==> From(j, x, a', s, i, b.rx.recv[s][i])
  {
    var a' := MarkPlaced(a, e, p);
    forall s, i | 0 <= s < R && 0 <= i < j.cap ensures From(j, x, a', s, i, b.rx.recv[s][i]) {
      FromFrame(j, x, a, a', s, i, b.rx.recv[s][i]);
    }
  }

  /** Progress of one posted epoch: flags and words are only ever added. */
  ghost predicate Grows(n: nat, p: Placed, p': Placed) {
    p'.len == p.len && p.words <= p'.words && (p.tag ==> p'.tag) && (p.commit ==> p'.commit) && PlacedOk(n, p')
  }

  lemma MarkedSend(j: Job, x: nat, a: Rank, e: nat, p: Placed)
    requires Shaped(j, a) && SendOk(j, x, a) && Counters(a) && 0 < e <= |a.tx.placed| && Grows(j.len(e), a.tx.placed[e - 1], p)
    ensures var a' := MarkPlaced(a, e, p); Shaped(j, a') && SendOk(j, x, a') && Counters(a')
  {
    var a' := MarkPlaced(a, e, p);
    forall k | 0 <= k < a'.tx.retired && k < |a'.tx.placed| ensures Complete(a'.tx.placed[k]) {
      assert Complete(a.tx.placed[k]);
    }
  }

  /** What the sender holds of the other direction does not depend on its own placements. */
  lemma PlacementReceives(j: Job, x: nat, a: Rank, a': Rank, b: Rank, b': Rank)
    requires Shaped(j, a) && Shaped(j, a') && Shaped(j, b) && Shaped(j, b') && RecvOk(j, x, b, a)
    requires a'.rx == a.rx && a'.k2 == a.k2 && a'.reduced == a.reduced && b'.tx == b.tx
    ensures RecvOk(j, x, b', a')
  {
    hide TailPlaced, SlotKeeps, From, TagOk;
    RecvFrame(j, x, b, a, a');
    SendFrame(j, x, b, b', a');
  }

  /** A placement touches the sender's record and the receiver's memory, and nothing else. */
  lemma PlacementKeeps(j: Job, x: nat, a: Rank, b: Rank, e: nat, p: Placed, b': Rank)
    requires Good(j, x, a, b) && 0 < e <= |a.tx.placed| && Grows(j.len(e), a.tx.placed[e - 1], p)
    requires Shaped(j, b') && b'.tx == b.tx && b'.k1 == b.k1 && b'.k2 == b.k2 && b'.reduced == b.reduced
    requires b'.rx.seen == b.rx.seen && b'.rx.checked == b.rx.checked && b'.rx.done == b.rx.done && b'.rx.proved == b.rx.proved
    requires Shaped(j, MarkPlaced(a, e, p)) && RecvOk(j, x, MarkPlaced(a, e, p), b')
    ensures Good(j, x, MarkPlaced(a, e, p), b')
  {
    MarkedSend(j, x, a, e, p);
    hide TailPlaced, SlotKeeps, From, TagOk, Holds, PlacedOk, Complete;
    PlacementReceives(j, 1 - x, a, MarkPlaced(a, e, p), b, b');
  }

  lemma TagKeeps(j: Job, x: nat, a: Rank, b: Rank, e: nat)
    requires JobOk(j) && Good(j, x, a, b) && CanPlaceTag(a, e)
    ensures Good(j, x, MarkPlaced(a, e, a.tx.placed[e - 1].(tag := true)), PlaceTag(a, b, e))
  {
    var p := a.tx.placed[e - 1].(tag := true);
    var a', b' := MarkPlaced(a, e, p), PlaceTag(a, b, e);
    assert PlacedOk(j.len(e), a.tx.placed[e - 1]);
    MarkedTags(j, x, a, e, p);
    MarkedFrom(j, x, a, e, p, b);
    forall f: nat | b'.k2 < f <= |a'.tx.placed| ensures SlotKeeps(j, x, a', b', f) { assert SlotKeeps(j, x, a, b, f); }
    forall k | 0 <= k < LEN_EPOCHS ensures TagOk(j, a', k, b'.rx.lenPeer[k]) { assert TagOk(j, a, k, b.rx.lenPeer[k]); }
    hide TailPlaced, SlotKeeps, From, TagOk, Holds;
    PlacementKeeps(j, x, a, b, e, p, b');
  }

  lemma CommitKeeps(j: Job, x: nat, a: Rank, b: Rank, e: nat)
    requires JobOk(j) && Good(j, x, a, b) && CanPlaceCommit(a, e)
    ensures Good(j, x, MarkPlaced(a, e, a.tx.placed[e - 1].(commit := true)), PlaceCommit(b, e))
  {
    var p := a.tx.placed[e - 1].(commit := true);
    var a', b' := MarkPlaced(a, e, p), PlaceCommit(b, e);
    assert PlacedOk(j.len(e), a.tx.placed[e - 1]);
    MarkedTags(j, x, a, e, p);
    MarkedFrom(j, x, a, e, p, b);
    forall f: nat | b'.k2 < f <= |a'.tx.placed| ensures SlotKeeps(j, x, a', b', f) { assert SlotKeeps(j, x, a, b, f); }
    hide TailPlaced, SlotKeeps, From, TagOk, Holds;
    PlacementKeeps(j, x, a, b, e, p, b');
  }

  /** A word still to be placed belongs to an epoch the peer has not consumed, and its send slot
      still holds it: neither ring is overwritten early. */
  lemma PlacedInTime(j: Job, x: nat, a: Rank, b: Rank, e: nat, i: nat)
    requires JobOk(j) && Good(j, x, a, b) && CanPlaceWord(a, e, i)
    ensures b.k2 < e && a.tx.retired < e && i <= j.len(e) < j.cap
    ensures a.tx.send[e % R][i] == Wire(j, x, e)[i]
  {
    assert PlacedOk(j.len(e), a.tx.placed[e - 1]);
    assert e <= b.k2 ==> TailPlaced(a, e);
    assert e <= a.tx.retired ==> Complete(a.tx.placed[e - 1]);
    assert Holds(a.tx.send[e % R], Wire(j, x, e));
  }

  lemma WordSlot(j: Job, x: nat, a: Rank, b: Rank, e: nat, i: nat, f: nat)
    requires JobOk(j) && Good(j, x, a, b) && CanPlaceWord(a, e, i) && b.k2 < f <= |a.tx.placed|
    ensures var p := a.tx.placed[e - 1];
            SlotKeeps(j, x, MarkPlaced(a, e, p.(words := p.words + {i})), PlaceWord(a, b, e, i), f)
  {
    PlacedInTime(j, x, a, b, e, i);
    Window(j, x, a, b);
    assert SlotKeeps(j, x, a, b, f);
    if f < e {
      SlotsApart(f, e);
    } else if e < f {
      SlotsApart(e, f);
    }
  }

  /** Placing word i of epoch e makes no other word older, and no newer epoch of the slot has
      placed anything yet. */
  lemma OtherFrom(j: Job, x: nat, a: Rank, e: nat, p: Placed, i: nat, s: nat, k: nat, w: Word)
    requires 0 < e <= |a.tx.placed| && p.words == a.tx.placed[e - 1].words + {i} && From(j, x, a, s, k, w)
    requires s != e % R || k != i
    ensures From(j, x, MarkPlaced(a, e, p), s, k, w)
  {
    var a' := MarkPlaced(a, e, p);
    assert forall f: nat :: NoneSince(a, s, k, f) ==> NoneSince(a', s, k, f);
    if !(w == 0 && NoneSince(a, s, k, 0)) {
      var f: nat :| CameFrom(j, x, a, s, k, w, f);
      assert CameFrom(j, x, a', s, k, w, f);
    }
  }

  lemma WordFrom(j: Job, x: nat, a: Rank, b: Rank, e: nat, i: nat)
    requires JobOk(j) && Good(j, x, a, b) && CanPlaceWord(a, e, i)
    ensures var p := a.tx.placed[e - 1];
            var a', b' := MarkPlaced(a, e, p.(words := p.words + {i})), PlaceWord(a, b, e, i);
            forall s, k :: 0 <= s < R && 0 <= k < j.cap ==> From(j, x, a', s, k, b'.rx.recv[s][k])
  {
    PlacedInTime(j, x, a, b, e, i);
    Window(j, x, a, b);
    var p := a.tx.placed[e - 1].(words := a.tx.placed[e - 1].words + {i});
    var a', b' := MarkPlaced(a, e, p), PlaceWord(a, b, e, i);
    forall s, k | 0 <= s < R && 0 <= k < j.cap ensures From(j, x, a', s, k, b'.rx.recv[s][k]) {
      if s == e % R && k == i {
        forall g | e <= g < |a'.tx.placed| ensures (g + 1) % R == s ==> i !in a'.tx.placed[g].words {
          SlotsApart(e, g + 1);
        }
        assert CameFrom(j, x, a', s, k, b'.rx.recv[s][k], e);
      } else {
        assert b'.rx.recv[s][k] == b.rx.recv[s][k];
        OtherFrom(j, x, a, e, p, i, s, k, b.rx.recv[s][k]);
      }
    }
  }

  lemma WordKeeps(j: Job, x: nat, a: Rank, b: Rank, e: nat, i: nat)
    requires JobOk(j) && Good(j, x, a, b) && CanPlaceWord(a, e, i)
    ensures var p := a.tx.placed[e - 1];
            Good(j, x, MarkPlaced(a, e, p.(words := p.words + {i})), PlaceWord(a, b, e, i))
  {
    var p := a.tx.placed[e - 1].(words := a.tx.placed[e - 1].words + {i});
    var a', b' := MarkPlaced(a, e, p), PlaceWord(a, b, e, i);
    PlacedInTime(j, x, a, b, e, i);
    assert PlacedOk(j.len(e), a.tx.placed[e - 1]);
    MarkedTags(j, x, a, e, p);
    WordFrom(j, x, a, b, e, i);
    forall f: nat | b'.k2 < f <= |a'.tx.placed| ensures SlotKeeps(j, x, a', b', f) { WordSlot(j, x, a, b, e, i, f); }
    hide TailPlaced, SlotKeeps, From, TagOk, Holds;
    PlacementKeeps(j, x, a, b, e, p, b');
  }

  // ------------------------------------------------------------------ runs

  lemma GoodSwaps(j: Job, x: nat, a: Rank, b: Rank)
    requires Good(j, x, a, b)
    ensures x < 2 && Good(j, 1 - x, b, a)
  {
  }

  lemma K2Fits(j: Job, x: nat, a: Rank, b: Rank)
    requires JobOk(j) && Good(j, x, a, b)
    ensures |a.rx.recv| == R && j.len(a.k2 + 1) <= |a.rx.recv[(a.k2 + 1) % R]|
  {
  }

  /** Steps on the rank's own send side and its proxy's hint and release. */
  lemma OwnStepKeeps(j: Job, x: nat, a: Rank, b: Rank, t: Step)
    requires JobOk(j) && Good(j, x, a, b) && Can(j, a, b, t)
    requires t.DoK1? || t.DoPost? || t.DoRetire? || t.DoLook? || t.DoRelease?
    ensures var r := Act(j, x, a, b, t); Good(j, x, r.0, r.1)
  {
    hide Good;
    match t
    case DoK1 => K1Keeps(j, x, a, b);
    case DoPost => PostKeeps(j, x, a, b);
    case DoRetire(m) => RetireKeeps(j, x, a, b, m);
    case DoLook => ProxyKeeps(j, x, a, Look(a), b);
    case DoRelease => ProxyKeeps(j, x, a, Release(a), b);
  }

  /** Validation and consumption of what the peer sent. */
  lemma ReceiveStepKeeps(j: Job, x: nat, a: Rank, b: Rank, t: Step)
    requires JobOk(j) && Good(j, x, a, b) && Can(j, a, b, t) && Backed(a, b, t) && (t.DoCheck? || t.DoProve? || t.DoK2?)
    ensures var r := Act(j, x, a, b, t); Good(j, x, r.0, r.1)
  {
    hide Good;
    GoodSwaps(j, x, a, b);
    if t.DoCheck? {
      CheckKeeps(j, 1 - x, b, a);
      GoodSwaps(j, 1 - x, b, Check(a));
    } else if t.DoProve? {
      ProveKeeps(j, 1 - x, b, a);
      GoodSwaps(j, 1 - x, b, Prove(a));
    } else {
      K2Fits(j, x, a, b);
      K2Keeps(j, 1 - x, b, a);
      GoodSwaps(j, 1 - x, b, K2(j, a));
    }
  }

  lemma PlacementStepKeeps(j: Job, x: nat, a: Rank, b: Rank, t: Step)
    requires JobOk(j) && Good(j, x, a, b) && Can(j, a, b, t)
    requires t.DoTag? || t.DoCommit? || t.DoWord?
    ensures var r := Act(j, x, a, b, t); Good(j, x, r.0, r.1)
  {
    hide Good;
    match t
    case DoTag(e) => TagKeeps(j, x, a, b, e);
    case DoCommit(e) => CommitKeeps(j, x, a, b, e);
    case DoWord(e, i) => WordKeeps(j, x, a, b, e, i);
  }

  lemma ActKeeps(j: Job, x: nat, a: Rank, b: Rank, t: Step)
    requires JobOk(j) && Good(j, x, a, b) && Can(j, a, b, t) && Backed(a, b, t)
    ensures var r := Act(j, x, a, b, t); Good(j, x, r.0, r.1)
  {
    hide Good, Act, Can, Backed;
    match t
    case DoCheck => ReceiveStepKeeps(j, x, a, b, t);
    case DoProve => ReceiveStepKeeps(j, x, a, b, t);
    case DoK2 => ReceiveStepKeeps(j, x, a, b, t);
    case DoTag(_) => PlacementStepKeeps(j, x, a, b, t);
    case DoCommit(_) => PlacementStepKeeps(j, x, a, b, t);
    case DoWord(_, _) => PlacementStepKeeps(j, x, a, b, t);
    case _ => OwnStepKeeps(j, x, a, b, t);
  }

  /** Either rank's move, given that what it takes for arrived has arrived. */
  ghost predicate MoveBacked(s: Pair, m: Move) {
    if m.x == 0 then Backed(s.a, s.b, m.step) else Backed(s.b, s.a, m.step)
  }

  lemma MoveKeeps(j: Job, s: Pair, m: Move)
    requires JobOk(j) && Good(j, 0, s.a, s.b) && Enabled(j, s, m) && MoveBacked(s, m)
    ensures var s' := Next(j, s, m); Good(j, 0, s'.a, s'.b)
  {
    var s' := Next(j, s, m);
    hide Good, Can, Act, Backed;
    if m.x == 0 {
      ActKeeps(j, 0, s.a, s.b, m.step);
    } else {
      GoodSwaps(j, 0, s.a, s.b);
      ActKeeps(j, 1, s.b, s.a, m.step);
      GoodSwaps(j, 1, s'.b, s'.a);
    }
  }

  lemma AllBacked(j: Job, s: Pair, m: Move)
    requires JobOk(j) && NoFalseTail(j) && Good(j, 0, s.a, s.b) && Enabled(j, s, m)
    ensures MoveBacked(s, m)
  {
    hide Good, Can, Backed, NoFalseTail;
    if m.x == 0 {
      StepBacked(j, 0, s.a, s.b, m.step);
    } else {
      GoodSwaps(j, 0, s.a, s.b);
      StepBacked(j, 1, s.b, s.a, m.step);
    }
  }

  ghost predicate IsRun(j: Job, ss: seq<Pair>, ms: seq<Move>) {
    && JobOk(j) && |ss| == |ms| + 1 && ss[0] == Pair(Idle(j), Idle(j))
    && forall k :: 0 <= k < |ms| ==> Follows(j, ss, ms, k)
  }

  ghost predicate Follows(j: Job, ss: seq<Pair>, ms: seq<Move>, k: nat)
    requires JobOk(j) && k < |ms| && |ss| == |ms| + 1
  {
    Enabled(j, ss[k], ms[k]) && ss[k + 1] == Next(j, ss[k], ms[k])
  }

  lemma StartsGood(j: Job)
    requires JobOk(j)
    ensures Good(j, 0, Idle(j), Idle(j))
  {
  }

  lemma RunStep(j: Job, ss: seq<Pair>, ms: seq<Move>, k: nat)
    requires IsRun(j, ss, ms) && k < |ms|
    ensures Enabled(j, ss[k], ms[k]) && ss[k + 1] == Next(j, ss[k], ms[k])
  {
    hide Enabled, Next;
    assert Follows(j, ss, ms, k);
  }

  lemma RunKeeps(j: Job, ss: seq<Pair>, ms: seq<Move>, k: nat)
    requires IsRun(j, ss, ms) && NoFalseTail(j) && k < |ms| && Good(j, 0, ss[k].a, ss[k].b)
    ensures Good(j, 0, ss[k + 1].a, ss[k + 1].b)
  {
    RunStep(j, ss, ms, k);
    hide Good, Enabled, Next, NoFalseTail, MoveBacked, JobOk;
    AllBacked(j, ss[k], ms[k]);
    MoveKeeps(j, ss[k], ms[k]);
  }

  lemma {:induction false} EveryRunIsGood(j: Job, ss: seq<Pair>, ms: seq<Move>, k: nat)
    requires IsRun(j, ss, ms) && NoFalseTail(j) && k <= |ms|
    ensures Good(j, 0, ss[k].a, ss[k].b)
    decreases k
  {
    hide Good, NoFalseTail;
    if k == 0 {
      StartsGood(j);
    } else {
      EveryRunIsGood(j, ss, ms, k - 1);
      RunKeeps(j, ss, ms, k - 1);
    }
  }

  /** In every reachable state, under every placement order: all reductions read exactly what the
      peer published, and the ranks are at most one barrier apart. */
  lemma TransportSafe(j: Job, ss: seq<Pair>, ms: seq<Move>, k: nat)
    requires IsRun(j, ss, ms) && NoFalseTail(j) && k <= |ms|
    ensures var s := ss[k];
            && |s.a.reduced| == s.a.k2 && |s.b.reduced| == s.b.k2
            && (forall e :: 0 <= e < s.a.k2 ==> s.a.reduced[e] == j.data(1, e + 1))
            && (forall e :: 0 <= e < s.b.k2 ==> s.b.reduced[e] == j.data(0, e + 1))
            && s.a.k1 <= s.b.k1 + 1 && s.b.k1 <= s.a.k1 + 1
  {
    EveryRunIsGood(j, ss, ms, k);
    Window(j, 0, ss[k].a, ss[k].b);
  }

  /** Barriers of one fixed size never meet a false tail, so all their reductions are right. */
  lemma FixedLengthsSafe(j: Job, n: nat, ss: seq<Pair>, ms: seq<Move>, k: nat)
    requires IsRun(j, ss, ms) && k <= |ms| && forall e :: j.len(e) == n
    ensures var s := ss[k];
            && |s.a.reduced| == s.a.k2 && |s.b.reduced| == s.b.k2
            && (forall e :: 0 <= e < s.a.k2 ==> s.a.reduced[e] == j.data(1, e + 1))
            && (forall e :: 0 <= e < s.b.k2 ==> s.b.reduced[e] == j.data(0, e + 1))
  {
    assert NoFalseTail(j);
    TransportSafe(j, ss, ms, k);
  }
}
