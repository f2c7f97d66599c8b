// What the proxy's posted work requests do at the peer: each is one of the protocol's placements, and
// a posted batch, in whatever order it is carried out, delivers exactly its own epochs.

module DoorbellWire {
  import opened Doorbell
  import opened DoorbellProxy
  import DoorbellSafety

  // ------------------------------------------------------------------ carrying out a work request

  function Upto(n: nat): (r: set<nat>)
    ensures forall i: nat :: i in r <==> i < n
  {
    if n == 0 then {} else Upto(n - 1) + {n - 1}
  }

  /** The first n words of a slot replaced by those of another. */
  function Overwrite(slot: seq<Word>, from: seq<Word>, n: nat): (r: seq<Word>)
    requires n <= |slot| && n <= |from|
    ensures |r| == |slot|
  {
    from[..n] + slot[n..]
  }

  /** The request's addresses are inside the rings, and its epoch was posted. */
  ghost predicate CanPerform(a: Rank, b: Rank, w: WorkRequest) {
    && |a.tx.send| == R && |b.rx.recv| == R && |b.rx.lenPeer| == LEN_EPOCHS && 0 < w.epoch <= |a.tx.placed|
    && (w.Payload? ==> w.words <= |a.tx.send[w.epoch % R]| && w.words <= |b.rx.recv[w.epoch % R]|)
  }

  /** What the NIC writes at the peer, and what has then been placed. */
  function Perform(a: Rank, b: Rank, w: WorkRequest): (Rank, Rank)
    requires CanPerform(a, b, w)
  {
    var e := w.epoch;
    var p := a.tx.placed[e - 1];
    match w
    case LenTag(_, tag) =>
      (MarkPlaced(a, e, p.(tag := true)), b.(rx := b.rx.(lenPeer := b.rx.lenPeer[e % LEN_EPOCHS := TagOf(tag)])))
    case Payload(_, n, _) =>
      (MarkPlaced(a, e, p.(words := p.words + Upto(n))),
       b.(rx := b.rx.(recv := b.rx.recv[e % R := Overwrite(b.rx.recv[e % R], a.tx.send[e % R], n)])))
    case Commit(_, _) => (MarkPlaced(a, e, p.(commit := true)), PlaceCommit(b, e))
  }

  // ------------------------------------------------------------------ as protocol steps

  /** A length tag posted for its epoch is the protocol's tag placement. */
  lemma TagIsStep(a: Rank, b: Rank, e: nat, tag: nat)
    requires CanPerform(a, b, LenTag(e, tag)) && TagOf(tag) == Tag(e, a.tx.placed[e - 1].len) && !a.tx.placed[e - 1].tag
    ensures CanPlaceTag(a, e)
    ensures Perform(a, b, LenTag(e, tag)) == (MarkPlaced(a, e, a.tx.placed[e - 1].(tag := true)), PlaceTag(a, b, e))
  {
  }

  lemma CommitIsStep(a: Rank, b: Rank, e: nat, signaled: bool)
    requires CanPerform(a, b, Commit(e, signaled)) && !a.tx.placed[e - 1].commit
    ensures CanPlaceCommit(a, e)
    ensures Perform(a, b, Commit(e, signaled)) == (MarkPlaced(a, e, a.tx.placed[e - 1].(commit := true)), PlaceCommit(b, e))
  {
  }

  /** The payload's first n words placed one by one, each as the protocol allows. */
  ghost function WordByWord(a: Rank, b: Rank, e: nat, n: nat): (r: (Rank, Rank))
    requires CanPerform(a, b, Payload(e, n, false)) && a.tx.placed[e - 1].words == {} && n <= a.tx.placed[e - 1].len + 1
    ensures r == Perform(a, b, Payload(e, n, false))
    ensures n > 0 ==> CanPerform(a, b, Payload(e, n - 1, false)) && CanPlaceWord(WordByWord(a, b, e, n - 1).0, e, n - 1)
  {
    if n == 0 then
      NoWords(a, b, e);
      (a, b)
    else
      var (a1, b1) := WordByWord(a, b, e, n - 1);
      OneMoreWord(a, b, e, n);
      var p := a1.tx.placed[e - 1];
      (MarkPlaced(a1, e, p.(words := p.words + {n - 1})), PlaceWord(a1, b1, e, n - 1))
  }

  lemma NoWords(a: Rank, b: Rank, e: nat)
    requires CanPerform(a, b, Payload(e, 0, false)) && a.tx.placed[e - 1].words == {}
    ensures Perform(a, b, Payload(e, 0, false)) == (a, b)
  {
    var p := a.tx.placed[e - 1];
    assert p.words + Upto(0) == p.words;
    assert Overwrite(b.rx.recv[e % R], a.tx.send[e % R], 0) == b.rx.recv[e % R];
    assert a.tx.placed[e - 1 := p] == a.tx.placed && b.rx.recv[e % R := b.rx.recv[e % R]] == b.rx.recv;
  }

  lemma OneMoreWord(a: Rank, b: Rank, e: nat, n: nat)
    requires 0 < n && CanPerform(a, b, Payload(e, n, false)) && a.tx.placed[e - 1].words == {} && n <= a.tx.placed[e - 1].len + 1
    ensures CanPerform(a, b, Payload(e, n - 1, false))
    ensures var (a1, b1) := Perform(a, b, Payload(e, n - 1, false));
            && e <= |a1.tx.placed| && |b1.rx.recv| == R == |a1.tx.send| && CanPlaceWord(a1, e, n - 1)
            && (var p := a1.tx.placed[e - 1];
                Perform(a, b, Payload(e, n, false))
                  == (MarkPlaced(a1, e, p.(words := p.words + {n - 1})), PlaceWord(a1, b1, e, n - 1)))
  {
    var p, slot, from := a.tx.placed[e - 1], b.rx.recv[e % R], a.tx.send[e % R];
    var (a1, b1) := Perform(a, b, Payload(e, n - 1, false));
    assert p.words + Upto(n) == p.words + Upto(n - 1) + {n - 1};
    var half := Overwrite(slot, from, n - 1);
    assert half[n - 1 := from[n - 1]] == Overwrite(slot, from, n);
    assert b1.rx.recv[e % R := half[n - 1 := from[n - 1]]] == b.rx.recv[e % R := Overwrite(slot, from, n)];
    assert a1.tx.placed[e - 1 := p.(words := p.words + Upto(n))] == a.tx.placed[e - 1 := p.(words := p.words + Upto(n))];
  }

  // ------------------------------------------------------------------ a posted batch

  /** One of the three requests the batch owes each of its epochs. */
  ghost predicate Owed(lens: seq<nat>, first: nat, n: nat, w: WorkRequest)
    requires |lens| == LEN_EPOCHS
  {
    && first <= w.epoch < first + n
    && match w
       case LenTag(e, tag) => tag == lens[e % LEN_EPOCHS]
       case Payload(e, words, _) => words == TagOf(lens[e % LEN_EPOCHS]).len + 1
       case Commit(_, _) => true
  }

  ghost predicate HasTag(ws: seq<WorkRequest>, e: nat) { exists w :: w in ws && w.LenTag? && w.epoch == e }
  ghost predicate HasPayload(ws: seq<WorkRequest>, e: nat) { exists w :: w in ws && w.Payload? && w.epoch == e }
  ghost predicate HasCommit(ws: seq<WorkRequest>, e: nat) { exists w :: w in ws && w.Commit? && w.epoch == e }

  /** The batch holds exactly what it owes. */
  lemma {:induction false} TriplesOwe(lens: seq<nat>, first: nat, n: nat, drill: bool)
    requires |lens| == LEN_EPOCHS
    ensures forall w :: w in Triples(lens, first, n, drill) ==> Owed(lens, first, n, w)
    ensures forall e :: first <= e < first + n ==>
              var ws := Triples(lens, first, n, drill); HasTag(ws, e) && HasPayload(ws, e) && HasCommit(ws, e)
    decreases n
  {
    if n > 0 {
      TriplesOwe(lens, first, n - 1, drill);
      var init, last := Triples(lens, first, n - 1, drill), Triple(first + n - 1, lens[(first + n - 1) % LEN_EPOCHS], drill);
      TripleHas(first + n - 1, lens[(first + n - 1) % LEN_EPOCHS], drill);
      forall w | w in init + last ensures Owed(lens, first, n, w) {
        if w in init {
          assert Owed(lens, first, n - 1, w);
        }
      }
      forall e | first <= e < first + n ensures HasTag(init + last, e) && HasPayload(init + last, e) && HasCommit(init + last, e) {
        HasInJoin(init, last, e);
      }
    }
  }

  lemma TripleHas(e: nat, tag: nat, drill: bool)
    ensures var t := Triple(e, tag, drill); HasTag(t, e) && HasPayload(t, e) && HasCommit(t, e)
    ensures forall w :: w in Triple(e, tag, drill) ==> w.epoch == e && (w.LenTag? ==> w.tag == tag) && (w.Payload? ==> w.words == TagOf(tag).len + 1)
  {
    var t := Triple(e, tag, drill);
    assert t[0] in t && t[1] in t && t[2] in t;
  }

  lemma HasInJoin(a: seq<WorkRequest>, b: seq<WorkRequest>, e: nat)
    ensures HasTag(a + b, e) <==> HasTag(a, e) || HasTag(b, e)
    ensures HasPayload(a + b, e) <==> HasPayload(a, e) || HasPayload(b, e)
    ensures HasCommit(a + b, e) <==> HasCommit(a, e) || HasCommit(b, e)
  {
    assert forall w :: w in a + b <==> w in a || w in b;
  }

  /** The rings keep their sizes. */
  ghost predicate SameSizes(a: Rank, b: Rank, a': Rank, b': Rank) {
    && a'.tx.send == a.tx.send && |a'.tx.placed| == |a.tx.placed| && |b'.rx.lenPeer| == |b.rx.lenPeer|
    && |b'.rx.recv| == |b.rx.recv| && forall s :: 0 <= s < |b.rx.recv| ==> |b'.rx.recv[s]| == |b.rx.recv[s]|
  }

  lemma StillFits(a: Rank, b: Rank, a': Rank, b': Rank, w: WorkRequest)
    requires SameSizes(a, b, a', b') && CanPerform(a, b, w)
    ensures CanPerform(a', b', w)
  {
  }

  lemma PerformSizes(a: Rank, b: Rank, w: WorkRequest)
    requires CanPerform(a, b, w)
    ensures SameSizes(a, b, Perform(a, b, w).0, Perform(a, b, w).1)
  {
  }

  /** Both ranks once the requests of `ws` have been carried out, in that order. */
  ghost function PerformAll(a: Rank, b: Rank, ws: seq<WorkRequest>): (r: (Rank, Rank))
    requires forall w :: w in ws ==> CanPerform(a, b, w)
    ensures SameSizes(a, b, r.0, r.1)
    decreases |ws|
  {
    if ws == [] then (a, b)
    else
      hide CanPerform, Perform;
      var init, w := ws[..|ws| - 1], ws[|ws| - 1];
      var (a1, b1) := PerformAll(a, b, init);
      StillFits(a, b, a1, b1, w);
      PerformSizes(a1, b1, w);
      Perform(a1, b1, w)
  }

  /** What the requests of `ws` have placed of epoch e, and where. */
  ghost predicate PlacedSoFar(lens: seq<nat>, ws: seq<WorkRequest>, a: Rank, b: Rank, a': Rank, b': Rank, e: nat)
    requires |lens| == LEN_EPOCHS && SameSizes(a, b, a', b') && 0 < e <= |a.tx.placed|
    requires |a.tx.send| == R && |b.rx.recv| == R && |b.rx.lenPeer| == LEN_EPOCHS
  {
    var n, p, p' := TagOf(lens[e % LEN_EPOCHS]).len + 1, a.tx.placed[e - 1], a'.tx.placed[e - 1];
    && n <= |a.tx.send[e % R]| && n <= |b.rx.recv[e % R]|
    && p' == Placed(p.len, p.tag || HasTag(ws, e), if HasPayload(ws, e) then p.words + Upto(n) else p.words, p.commit || HasCommit(ws, e))
    && b'.rx.lenPeer[e % LEN_EPOCHS] == (if HasTag(ws, e) then TagOf(lens[e % LEN_EPOCHS]) else b.rx.lenPeer[e % LEN_EPOCHS])
    && b'.rx.recv[e % R] == if HasPayload(ws, e) then Overwrite(b.rx.recv[e % R], a.tx.send[e % R], n) else b.rx.recv[e % R]
  }

  lemma Snoc(ws: seq<WorkRequest>, w: WorkRequest, e: nat)
    ensures HasTag(ws + [w], e) <==> HasTag(ws, e) || (w.LenTag? && w.epoch == e)
    ensures HasPayload(ws + [w], e) <==> HasPayload(ws, e) || (w.Payload? && w.epoch == e)
    ensures HasCommit(ws + [w], e) <==> HasCommit(ws, e) || (w.Commit? && w.epoch == e)
  {
    HasInJoin(ws, [w], e);
    assert w in [w];
  }

  /** One more request: its own epoch moves, every other one of the batch stays. */
  lemma OnePlaced(lens: seq<nat>, first: nat, n: nat, ws: seq<WorkRequest>, w: WorkRequest, a: Rank, b: Rank, a1: Rank, b1: Rank, e: nat)
    requires |lens| == LEN_EPOCHS && n <= R && Owed(lens, first, n, w) && first <= e < first + n && CanPerform(a1, b1, w)
    requires SameSizes(a, b, a1, b1) && 0 < e <= |a.tx.placed| && PlacedSoFar(lens, ws, a, b, a1, b1, e)
    ensures SameSizes(a, b, Perform(a1, b1, w).0, Perform(a1, b1, w).1)
    ensures PlacedSoFar(lens, ws + [w], a, b, Perform(a1, b1, w).0, Perform(a1, b1, w).1, e)
  {
    PerformSizes(a1, b1, w);
    if w.epoch == e {
      OwnPlaced(lens, ws, w, a, b, a1, b1);
    } else {
      if w.epoch < e {
        DoorbellSafety.SlotsApart(w.epoch, e);
      } else {
        DoorbellSafety.SlotsApart(e, w.epoch);
      }
      OtherPlaced(lens, ws, w, a, b, a1, b1, e);
    }
  }

  lemma OtherPlaced(lens: seq<nat>, ws: seq<WorkRequest>, w: WorkRequest, a: Rank, b: Rank, a1: Rank, b1: Rank, e: nat)
    requires |lens| == LEN_EPOCHS && CanPerform(a1, b1, w) && SameSizes(a, b, a1, b1) && 0 < e <= |a.tx.placed|
    requires w.epoch != e && w.epoch % R != e % R && w.epoch % LEN_EPOCHS != e % LEN_EPOCHS
    requires PlacedSoFar(lens, ws, a, b, a1, b1, e)
    ensures SameSizes(a, b, Perform(a1, b1, w).0, Perform(a1, b1, w).1)
    ensures PlacedSoFar(lens, ws + [w], a, b, Perform(a1, b1, w).0, Perform(a1, b1, w).1, e)
  {
    PerformSizes(a1, b1, w);
    Snoc(ws, w, e);
    hide HasTag, HasPayload, HasCommit, Upto, Overwrite;
  }

  lemma OwnPlaced(lens: seq<nat>, ws: seq<WorkRequest>, w: WorkRequest, a: Rank, b: Rank, a1: Rank, b1: Rank)
    requires |lens| == LEN_EPOCHS && CanPerform(a1, b1, w) && SameSizes(a, b, a1, b1) && 0 < w.epoch <= |a.tx.placed|
    requires Owed(lens, w.epoch, 1, w) && PlacedSoFar(lens, ws, a, b, a1, b1, w.epoch)
    ensures SameSizes(a, b, Perform(a1, b1, w).0, Perform(a1, b1, w).1)
    ensures PlacedSoFar(lens, ws + [w], a, b, Perform(a1, b1, w).0, Perform(a1, b1, w).1, w.epoch)
  {
    PerformSizes(a1, b1, w);
    Snoc(ws, w, w.epoch);
    hide HasTag, HasPayload, HasCommit, Upto;
    if w.Payload? {
      Twice(b.rx.recv[w.epoch % R], a.tx.send[w.epoch % R], w.words);
      assert forall p: set<nat>, m: nat :: p + Upto(m) + Upto(m) == p + Upto(m);
    }
    hide Overwrite;
  }

  lemma Twice(slot: seq<Word>, from: seq<Word>, n: nat)
    requires n <= |slot| && n <= |from|
    ensures Overwrite(Overwrite(slot, from, n), from, n) == Overwrite(slot, from, n)
  {
  }

  lemma {:induction false} BatchPlaced(lens: seq<nat>, first: nat, n: nat, ws: seq<WorkRequest>, a: Rank, b: Rank, e: nat)
    requires |lens| == LEN_EPOCHS && n <= R && first <= e < first + n && 0 < e <= |a.tx.placed|
    requires forall w :: w in ws ==> Owed(lens, first, n, w) && CanPerform(a, b, w)
    requires CanPerform(a, b, Payload(e, TagOf(lens[e % LEN_EPOCHS]).len + 1, false))
    ensures PlacedSoFar(lens, ws, a, b, PerformAll(a, b, ws).0, PerformAll(a, b, ws).1, e)
    decreases |ws|
  {
    if ws == [] {
      hide Upto;
    } else {
      var init, w := ws[..|ws| - 1], ws[|ws| - 1];
      assert ws == init + [w];
      BatchPlaced(lens, first, n, init, a, b, e);
      hide PlacedSoFar, Owed, CanPerform, Perform;
      var (a1, b1) := PerformAll(a, b, init);
      StillFits(a, b, a1, b1, w);
      OnePlaced(lens, first, n, init, w, a, b, a1, b1, e);
    }
  }

  // ------------------------------------------------------------------ what it leaves alone

  /** Slots, tags and records of epochs outside the batch. */
  ghost predicate OthersStay(first: nat, n: nat, a: Rank, b: Rank, a': Rank, b': Rank)
    requires SameSizes(a, b, a', b') && |b.rx.recv| == R && |b.rx.lenPeer| == LEN_EPOCHS
  {
    && a' == a.(tx := a.tx.(placed := a'.tx.placed))
    && b' == b.(rx := b.rx.(recv := b'.rx.recv, lenPeer := b'.rx.lenPeer, committed := b'.rx.committed))
    && (forall k: nat :: k < |a.tx.placed| && !(first <= k + 1 < first + n) ==> a'.tx.placed[k] == a.tx.placed[k])
    && (forall s: nat :: s < R && !(exists e: nat :: first <= e < first + n && e % R == s) ==> b'.rx.recv[s] == b.rx.recv[s])
    && (forall t: nat :: t < LEN_EPOCHS && !(exists e: nat :: first <= e < first + n && e % LEN_EPOCHS == t) ==> b'.rx.lenPeer[t] == b.rx.lenPeer[t])
    && (b'.rx.committed == b.rx.committed || first <= b'.rx.committed < first + n)
  }

  lemma OneStays(lens: seq<nat>, first: nat, n: nat, w: WorkRequest, a: Rank, b: Rank, a1: Rank, b1: Rank)
    requires |lens| == LEN_EPOCHS && Owed(lens, first, n, w) && SameSizes(a, b, a1, b1) && |b.rx.recv| == R && |b.rx.lenPeer| == LEN_EPOCHS
    requires CanPerform(a1, b1, w) && OthersStay(first, n, a, b, a1, b1)
    ensures SameSizes(a, b, Perform(a1, b1, w).0, Perform(a1, b1, w).1)
    ensures OthersStay(first, n, a, b, Perform(a1, b1, w).0, Perform(a1, b1, w).1)
  {
    PerformSizes(a1, b1, w);
    hide Overwrite, Upto;
  }

  lemma {:induction false} BatchStays(lens: seq<nat>, first: nat, n: nat, ws: seq<WorkRequest>, a: Rank, b: Rank)
    requires |lens| == LEN_EPOCHS && |b.rx.recv| == R && |b.rx.lenPeer| == LEN_EPOCHS
    requires forall w :: w in ws ==> Owed(lens, first, n, w) && CanPerform(a, b, w)
    ensures OthersStay(first, n, a, b, PerformAll(a, b, ws).0, PerformAll(a, b, ws).1)
    decreases |ws|
  {
    if ws != [] {
      var init, w := ws[..|ws| - 1], ws[|ws| - 1];
      BatchStays(lens, first, n, init, a, b);
      hide OthersStay, Owed, CanPerform, Perform;
      var (a1, b1) := PerformAll(a, b, init);
      StillFits(a, b, a1, b1, w);
      OneStays(lens, first, n, w, a, b, a1, b1);
    }
  }

  lemma {:induction false} BatchCommits(lens: seq<nat>, first: nat, n: nat, ws: seq<WorkRequest>, a: Rank, b: Rank, e: nat)
    requires |lens| == LEN_EPOCHS && HasCommit(ws, e) && forall w :: w in ws ==> Owed(lens, first, n, w) && CanPerform(a, b, w)
    ensures first <= PerformAll(a, b, ws).1.rx.committed < first + n
    decreases |ws|
  {
    var init, w := ws[..|ws| - 1], ws[|ws| - 1];
    assert ws == init + [w];
    assert w in ws && Owed(lens, first, n, w) && CanPerform(a, b, w);
    var (a1, b1) := PerformAll(a, b, init);
    StillFits(a, b, a1, b1, w);
    assert PerformAll(a, b, ws) == Perform(a1, b1, w);
    hide HasCommit, Overwrite, Upto, PerformAll;
    if !w.Commit? {
      Snoc(init, w, e);
      BatchCommits(lens, first, n, init, a, b, e);
    }
  }

  // ------------------------------------------------------------------ the proxy's batch

  lemma {:induction false} PostManyPlaced(a: Rank, n: nat, k: nat)
    requires |a.tx.lenLocal| == LEN_EPOCHS && |a.tx.placed| == a.tx.posted && k < n
    ensures var p := PostMany(a, n).tx.placed;
            && |p| == a.tx.posted + n && p[..a.tx.posted] == a.tx.placed
            && p[a.tx.posted + k] == Placed(a.tx.lenLocal[(a.tx.posted + k + 1) % LEN_EPOCHS].len, false, {}, false)
    decreases n
  {
    if n - 1 > 0 {
      PostManyPlaced(a, n - 1, if k < n - 1 then k else 0);
    } else {
      assert PostMany(a, 0) == a;
    }
    var before := PostMany(a, n - 1);
    assert PostMany(a, n) == Post(before);
  }

  /** A pass over the next n ready epochs: once its work requests have been carried out, in whatever
      order, every one of these epochs is complete and has landed with its own length and exactly
      the words of its send slot; the commit word names one of them; and no other epoch's tag,
      words or record has changed. */
  lemma PostedBatchArrives(a: Rank, b: Rank, lens: seq<nat>, n: nat, drill: bool, ws: seq<WorkRequest>, cap: nat)
    requires |lens| == LEN_EPOCHS && a.tx.lenLocal == TagsOf(lens) && |a.tx.placed| == a.tx.posted && TagsReady(a, n, cap) && n <= R
    requires |a.tx.send| == R && |b.rx.recv| == R && |b.rx.lenPeer| == LEN_EPOCHS
    requires forall s :: 0 <= s < R ==> |a.tx.send[s]| == cap && |b.rx.recv[s]| == cap
    requires multiset(ws) == multiset(Triples(lens, a.tx.posted + 1, n, drill))
    ensures forall w :: w in ws ==> CanPerform(PostMany(a, n), b, w)
    ensures var (a', b') := PerformAll(PostMany(a, n), b, ws);
            && OthersStay(a.tx.posted + 1, n, PostMany(a, n), b, a', b')
            && (forall e: nat :: a.tx.posted < e <= a.tx.posted + n ==> Arrives(a, b, a', b', e))
            && (n > 0 ==> a.tx.posted < b'.rx.committed <= a.tx.posted + n)
  {
    var first, all := a.tx.posted + 1, Triples(lens, a.tx.posted + 1, n, drill);
    var posted := PostMany(a, n);
    TriplesOwe(lens, first, n, drill);
    SameElements(ws, all);
    assert posted.tx.send == a.tx.send;
    assert n > 0 ==> |posted.tx.placed| == a.tx.posted + n by { if n > 0 { PostManyPlaced(a, n, 0); } }
    forall w | w in ws ensures Owed(lens, first, n, w) && CanPerform(posted, b, w) {
      OwedFits(a, b, lens, n, cap, w);
    }
    hide Triples, TagsReady, TagsOf, Owed, CanPerform, Perform, PostMany, PerformAll, OthersStay, HasTag, HasPayload, HasCommit;
    BatchStays(lens, first, n, ws, posted, b);
    forall e: nat | a.tx.posted < e <= a.tx.posted + n ensures Arrives(a, b, PerformAll(posted, b, ws).0, PerformAll(posted, b, ws).1, e) {
      EpochArrives(a, b, lens, n, ws, cap, e);
    }
    if n > 0 {
      BatchCommits(lens, first, n, ws, posted, b, first);
    }
  }

  lemma SameElements(ws: seq<WorkRequest>, all: seq<WorkRequest>)
    requires multiset(ws) == multiset(all)
    ensures forall w :: w in ws <==> w in all
    ensures forall e :: (HasTag(all, e) ==> HasTag(ws, e)) && (HasPayload(all, e) ==> HasPayload(ws, e)) && (HasCommit(all, e) ==> HasCommit(ws, e))
  {
    forall w ensures w in ws <==> w in all {
      assert w in ws <==> w in multiset(ws);
      assert w in all <==> w in multiset(all);
    }
  }

  lemma OwedFits(a: Rank, b: Rank, lens: seq<nat>, n: nat, cap: nat, w: WorkRequest)
    requires |lens| == LEN_EPOCHS && a.tx.lenLocal == TagsOf(lens) && |a.tx.placed| == a.tx.posted && TagsReady(a, n, cap)
    requires |a.tx.send| == R && |b.rx.recv| == R && |b.rx.lenPeer| == LEN_EPOCHS
    requires forall s :: 0 <= s < R ==> |a.tx.send[s]| == cap && |b.rx.recv[s]| == cap
    requires Owed(lens, a.tx.posted + 1, n, w)
    ensures CanPerform(PostMany(a, n), b, w)
  {
    PostManyPlaced(a, n, 0);
    assert TagReady(a, w.epoch, cap);
  }

  /** Epoch e is all there: the protocol calls it complete, its tag has come with its own length, the
      slot holds the words of the send slot and nothing beyond them has changed; and if the send
      slot ends in the epoch's number it has landed. */
  ghost predicate Arrives(a: Rank, b: Rank, a': Rank, b': Rank, e: nat)
    requires |a.tx.lenLocal| == LEN_EPOCHS
  {
    var n := a.tx.lenLocal[e % LEN_EPOCHS].len;
    && 0 < e <= |a'.tx.placed| && Complete(a'.tx.placed[e - 1]) && a'.tx.placed[e - 1].len == n
    && |b'.rx.lenPeer| == LEN_EPOCHS && |b'.rx.recv| == R == |b.rx.recv| == |a.tx.send|
    && b'.rx.lenPeer[e % LEN_EPOCHS] == Tag(e, n)
    && n < |b'.rx.recv[e % R]| == |b.rx.recv[e % R]| && n < |a.tx.send[e % R]|
    && b'.rx.recv[e % R][..n + 1] == a.tx.send[e % R][..n + 1] && b'.rx.recv[e % R][n + 1..] == b.rx.recv[e % R][n + 1..]
    && (a.tx.send[e % R][n] == e ==> Landed(b', e))
  }

  lemma EpochArrives(a: Rank, b: Rank, lens: seq<nat>, n: nat, ws: seq<WorkRequest>, cap: nat, e: nat)
    requires |lens| == LEN_EPOCHS && a.tx.lenLocal == TagsOf(lens) && |a.tx.placed| == a.tx.posted && TagsReady(a, n, cap) && n <= R
    requires |a.tx.send| == R && |b.rx.recv| == R && |b.rx.lenPeer| == LEN_EPOCHS
    requires forall s :: 0 <= s < R ==> |a.tx.send[s]| == cap && |b.rx.recv[s]| == cap
    requires a.tx.posted < e <= a.tx.posted + n && HasTag(ws, e) && HasPayload(ws, e) && HasCommit(ws, e)
    requires forall w :: w in ws ==> Owed(lens, a.tx.posted + 1, n, w) && CanPerform(PostMany(a, n), b, w)
    ensures var r := PerformAll(PostMany(a, n), b, ws); Arrives(a, b, r.0, r.1, e)
  {
    hide *;
    var first, posted := a.tx.posted + 1, PostMany(a, n);
    PostedIs(a, b, lens, n, cap, e);
    BatchPlaced(lens, first, n, ws, posted, b, e);
    WholeEpochArrives(a, posted, b, PerformAll(posted, b, ws).0, PerformAll(posted, b, ws).1, lens, ws, e);
  }

  /** Before its requests are carried out, nothing of epoch e has been placed. */
  lemma PostedIs(a: Rank, b: Rank, lens: seq<nat>, n: nat, cap: nat, e: nat)
    requires |lens| == LEN_EPOCHS && a.tx.lenLocal == TagsOf(lens) && |a.tx.placed| == a.tx.posted && TagsReady(a, n, cap)
    requires |a.tx.send| == R && |b.rx.recv| == R && |b.rx.lenPeer| == LEN_EPOCHS
    requires forall s :: 0 <= s < R ==> |a.tx.send[s]| == cap && |b.rx.recv[s]| == cap
    requires a.tx.posted < e <= a.tx.posted + n
    ensures PostMany(a, n).tx.send == a.tx.send && |PostMany(a, n).tx.placed| == a.tx.posted + n
    ensures PostMany(a, n).tx.placed[e - 1] == Placed(a.tx.lenLocal[e % LEN_EPOCHS].len, false, {}, false)
    ensures a.tx.lenLocal[e % LEN_EPOCHS] == Tag(e, a.tx.lenLocal[e % LEN_EPOCHS].len) == TagOf(lens[e % LEN_EPOCHS])
    ensures CanPerform(PostMany(a, n), b, Payload(e, TagOf(lens[e % LEN_EPOCHS]).len + 1, false))
  {
    PostManyPlaced(a, n, e - a.tx.posted - 1);
    assert TagReady(a, e, cap);
  }

  /** With its tag, its words and its commit carried out, epoch e is all there. */
  lemma WholeEpochArrives(a: Rank, posted: Rank, b: Rank, a': Rank, b': Rank, lens: seq<nat>, ws: seq<WorkRequest>, e: nat)
    requires |lens| == LEN_EPOCHS && |a.tx.lenLocal| == LEN_EPOCHS && posted.tx.send == a.tx.send
    requires SameSizes(posted, b, a', b') && 0 < e <= |posted.tx.placed|
    requires |a.tx.send| == R && |b.rx.recv| == R && |b.rx.lenPeer| == LEN_EPOCHS
    requires a.tx.lenLocal[e % LEN_EPOCHS] == Tag(e, a.tx.lenLocal[e % LEN_EPOCHS].len) == TagOf(lens[e % LEN_EPOCHS])
    requires posted.tx.placed[e - 1] == Placed(a.tx.lenLocal[e % LEN_EPOCHS].len, false, {}, false)
    requires PlacedSoFar(lens, ws, posted, b, a', b', e) && HasTag(ws, e) && HasPayload(ws, e) && HasCommit(ws, e)
    ensures Arrives(a, b, a', b', e)
  {
    hide HasTag, HasPayload, HasCommit, TagOf;
    assert {} + Upto(a.tx.lenLocal[e % LEN_EPOCHS].len + 1) == Upto(a.tx.lenLocal[e % LEN_EPOCHS].len + 1);
  }

  /** So in every reachable state: the batch of the next n ready epochs delivers exactly the words
      their kernels published, each epoch complete and landed. */
  lemma PostedBatchLands(j: Job, x: nat, a: Rank, b: Rank, lens: seq<nat>, n: nat, drill: bool, ws: seq<WorkRequest>)
    requires JobOk(j) && DoorbellSafety.Good(j, x, a, b) && |lens| == LEN_EPOCHS && a.tx.lenLocal == TagsOf(lens)
    requires a.tx.posted + n <= a.tx.ready && multiset(ws) == multiset(Triples(lens, a.tx.posted + 1, n, drill))
    ensures forall w :: w in ws ==> CanPerform(PostMany(a, n), b, w)
    ensures var (a', b') := PerformAll(PostMany(a, n), b, ws);
            forall e: nat :: a.tx.posted < e <= a.tx.posted + n ==>
              Arrives(a, b, a', b', e) && Landed(b', e) && j.len(e) < |b'.rx.recv[e % R]| && b'.rx.recv[e % R][..j.len(e) + 1] == Wire(j, x, e)
  {
    hide DoorbellSafety.Good, JobOk, PerformAll, PostMany, Triples, TagsReady, TagsOf, OthersStay, CanPerform;
    GoodBatch(j, x, a, b, n);
    PostedBatchArrives(a, b, lens, n, drill, ws, j.cap);
    var (a', b') := PerformAll(PostMany(a, n), b, ws);
    forall e: nat | a.tx.posted < e <= a.tx.posted + n
      ensures Arrives(a, b, a', b', e) && Landed(b', e) && j.len(e) < |b'.rx.recv[e % R]| && b'.rx.recv[e % R][..j.len(e) + 1] == Wire(j, x, e)
    {
      assert Arrives(a, b, a', b', e) && Published(j, x, a, e);
    }
  }

  /** Epoch e's send slot and length tag are as its kernel left them. */
  ghost predicate Published(j: Job, x: nat, a: Rank, e: nat) {
    && |a.tx.send| == R && |a.tx.lenLocal| == LEN_EPOCHS && a.tx.lenLocal[e % LEN_EPOCHS] == Tag(e, j.len(e))
    && j.len(e) < |a.tx.send[e % R]| && a.tx.send[e % R][..j.len(e) + 1] == Wire(j, x, e) && a.tx.send[e % R][j.len(e)] == e
  }

  lemma GoodBatch(j: Job, x: nat, a: Rank, b: Rank, n: nat)
    requires JobOk(j) && DoorbellSafety.Good(j, x, a, b) && a.tx.posted + n <= a.tx.ready
    ensures |a.tx.placed| == a.tx.posted && |a.tx.lenLocal| == LEN_EPOCHS && TagsReady(a, n, j.cap) && n <= R
    ensures |a.tx.send| == R && |b.rx.recv| == R && |b.rx.lenPeer| == LEN_EPOCHS
    ensures forall s :: 0 <= s < R ==> |a.tx.send[s]| == j.cap && |b.rx.recv[s]| == j.cap
    ensures forall e: nat :: a.tx.posted < e <= a.tx.posted + n ==> Published(j, x, a, e)
  {
    forall e: nat | a.tx.posted < e <= a.tx.posted + n ensures Published(j, x, a, e) && TagReady(a, e, j.cap) {
      assert a.tx.lenLocal[e % LEN_EPOCHS] == Tag(e, j.len(e));
      assert DoorbellSafety.Holds(a.tx.send[e % R], Wire(j, x, e));
    }
    hide DoorbellSafety.RecvOk, DoorbellSafety.SendOk, Published, TagReady;
  }

  // ------------------------------------------------------------------ completions

  /** A signaled request's completion says that everything posted up to it is done. */
  ghost predicate SignalsInOrder(ws: seq<WorkRequest>) {
    forall p, q :: 0 <= p < q < |ws| && Signaled(ws[p]) ==> ws[p].epoch < ws[q].epoch
  }

  predicate Signaled(w: WorkRequest) {
    (w.Commit? && w.signaled) || (w.Payload? && w.signaled)
  }

  /** Whatever is the last request of its epoch is signaled. */
  ghost predicate LastSignaled(ws: seq<WorkRequest>) {
    forall p :: 0 <= p < |ws| && (p + 1 < |ws| ==> ws[p].epoch < ws[p + 1].epoch) ==> Signaled(ws[p])
  }

  /** Every epoch gets a completion; and a completion of epoch e proves that all of e is done, for the
      whole batch, exactly when the drill inverts none of its epochs: an inverted commit completes
      before its payload. */
  lemma {:induction false} SignalsExactly(lens: seq<nat>, first: nat, n: nat, drill: bool)
    requires |lens| == LEN_EPOCHS
    ensures LastSignaled(Triples(lens, first, n, drill))
    ensures SignalsInOrder(Triples(lens, first, n, drill)) <==> !(drill && exists e :: first <= e < first + n && e % 4096 == 0)
    decreases n
  {
    if n > 0 {
      var e := first + n - 1;
      var init, last := Triples(lens, first, n - 1, drill), Triple(e, lens[e % LEN_EPOCHS], drill);
      assert Triples(lens, first, n, drill) == init + last;
      hide Triples, Triple, SignalsInOrder, Signaled, LastSignaled, HasTag, HasPayload, HasCommit;
      SignalsExactly(lens, first, n - 1, drill);
      TriplesOwe(lens, first, n - 1, drill);
      TripleSignals(e, lens[e % LEN_EPOCHS], drill);
      forall q: nat | q < |init| ensures init[q].epoch < e {
        assert Owed(lens, first, n - 1, init[q]);
      }
      SignalsJoin(init, last, e);
    }
  }

  /** Only the last request of a run is signaled. */
  ghost predicate LastOnly(ws: seq<WorkRequest>) {
    forall p :: 0 <= p < |ws| - 1 ==> !Signaled(ws[p])
  }

  lemma TripleSignals(e: nat, tag: nat, drill: bool)
    ensures var t := Triple(e, tag, drill);
            && |t| == 3 && Signaled(t[2]) && (LastOnly(t) <==> !(drill && e % 4096 == 0))
            && forall q :: 0 <= q < |t| ==> t[q].epoch == e
  {
    var t := Triple(e, tag, drill);
    if drill && e % 4096 == 0 {
      assert Signaled(t[0]);
    }
  }

  lemma SignalsJoin(init: seq<WorkRequest>, last: seq<WorkRequest>, e: nat)
    requires (forall q :: 0 <= q < |init| ==> init[q].epoch < e) && forall q :: 0 <= q < |last| ==> last[q].epoch == e
    requires last != [] && Signaled(last[|last| - 1]) && LastSignaled(init)
    ensures SignalsInOrder(init + last) <==> SignalsInOrder(init) && LastOnly(last)
    ensures LastSignaled(init + last)
  {
    hide Signaled;
    var all := init + last;
    if SignalsInOrder(all) {
      forall p, q | 0 <= p < q < |init| && Signaled(init[p]) ensures init[p].epoch < init[q].epoch {
        assert all[p] == init[p] && all[q] == init[q];
      }
      forall p | 0 <= p < |last| - 1 ensures !Signaled(last[p]) {
        assert all[|init| + p] == last[p] && all[|init| + p + 1] == last[p + 1];
      }
    }
    if SignalsInOrder(init) && LastOnly(last) {
      forall p, q | 0 <= p < q < |all| && Signaled(all[p]) ensures all[p].epoch < all[q].epoch {
        if p >= |init| {
          assert false;
        }
      }
    }
    forall p | 0 <= p < |all| && (p + 1 < |all| ==> all[p].epoch < all[p + 1].epoch) ensures Signaled(all[p]) {
      if p < |init| {
        assert all[p] == init[p] && (p + 1 < |init| ==> all[p + 1] == init[p + 1]);
        assert Signaled(init[p]);
      } else {
        assert all[p] == last[p - |init|];
        assert p == |all| - 1;
      }
    }
  }
}
