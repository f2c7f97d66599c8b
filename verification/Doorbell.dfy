// The two-rank doorbell all-reduce transport as interleaved steps: K1 publish, proxy post, NIC
// placement in any order, completion, proxy validation and release, K2 proof and consume. A run
// may mix epochs the proxy validates with epochs the GPU proves itself.

module Doorbell {
  type Word = int

  const R: nat := 8
  const LEN_EPOCHS: nat := 4096

  /** What the ranks are asked to reduce: epoch e carries `data(x, e)` from rank x. Both ranks run
      the same program, so the lengths agree; a slot also holds the trailing epoch word. */
  datatype Job = Job(cap: nat, len: nat -> nat, data: (nat, nat) -> seq<Word>)

  ghost predicate JobOk(j: Job) {
    && (forall e :: 0 < j.len(e) < j.cap)
    && (forall x, e :: |j.data(x, e)| == j.len(e))
  }

  /** The words epoch e of rank x puts on the wire: the payload and then the epoch itself. */
  function Wire(j: Job, x: nat, e: nat): seq<Word> {
    j.data(x, e) + [e]
  }

  datatype Tag = Tag(epoch: nat, len: nat)

  /** A posted epoch: the length tag copied into its work requests, and which parts of it the NIC
      has placed at the peer. */
  datatype Placed = Placed(len: nat, tag: bool, words: set<nat>, commit: bool)

  ghost predicate AllBelow(ws: set<nat>, n: nat) {
    forall i: nat :: i < n ==> i in ws
  }

  /** The sending half: ring, local length ring, posted epochs, and retirement credit. */
  datatype Tx = Tx(send: seq<seq<Word>>, lenLocal: seq<Tag>, ready: nat, posted: nat, placed: seq<Placed>, retired: nat)

  /** The receiving half: ring, peer length ring, NIC-written commit, the epoch the GPU last proved
      itself, and the proxy's progress: the commit it last read, the epochs it validated, the
      epochs it released to the GPU. */
  datatype Rx = Rx(recv: seq<seq<Word>>, lenPeer: seq<Tag>, committed: nat, proved: nat,
                   seen: nat, checked: nat, done: nat)

  /** `k1` and `k2` count the kernels this rank's stream has run; `reduced` logs what K2 read. */
  datatype Rank = Rank(k1: nat, k2: nat, tx: Tx, rx: Rx, reduced: seq<seq<Word>>)

  // ------------------------------------------------------------------ steps of one rank

  function Store(slot: seq<Word>, ws: seq<Word>): (r: seq<Word>)
    requires |ws| <= |slot|
    ensures |r| == |slot|
  {
    ws + slot[|ws|..]
  }

  /** K1(e): stream order, reuse gate, then payload, tail, length tag and watermark. */
  predicate CanK1(a: Rank) {
    a.k1 == a.k2 && (a.k1 + 1 > R ==> a.tx.retired >= a.k1 + 1 - R)
  }

  function K1(j: Job, x: nat, a: Rank): Rank
    requires |a.tx.send| == R && |a.tx.lenLocal| == LEN_EPOCHS
    requires |j.data(x, a.k1 + 1)| < |a.tx.send[(a.k1 + 1) % R]|
  {
    var e := a.k1 + 1;
    a.(k1 := e,
       tx := a.tx.(send := a.tx.send[e % R := Store(a.tx.send[e % R], Wire(j, x, e))],
                   lenLocal := a.tx.lenLocal[e % LEN_EPOCHS := Tag(e, |j.data(x, e)|)],
                   ready := e))
  }

  /** The proxy posts the next ready epoch; its length tag must carry the epoch's generation. */
  predicate CanPost(a: Rank)
    requires |a.tx.lenLocal| == LEN_EPOCHS
  {
    a.tx.posted < a.tx.ready && a.tx.lenLocal[(a.tx.posted + 1) % LEN_EPOCHS].epoch == a.tx.posted + 1
  }

  function Post(a: Rank): Rank
    requires |a.tx.lenLocal| == LEN_EPOCHS
  {
    var len := a.tx.lenLocal[(a.tx.posted + 1) % LEN_EPOCHS].len;
    a.(tx := a.tx.(posted := a.tx.posted + 1, placed := a.tx.placed + [Placed(len, false, {}, false)]))
  }

  /** A completion for epoch m retires every epoch up to m, and implies they are all placed. */
  ghost predicate Complete(p: Placed) {
    p.tag && p.commit && AllBelow(p.words, p.len + 1)
  }

  ghost predicate CanRetire(a: Rank, m: nat) {
    && a.tx.retired < m <= a.tx.posted <= |a.tx.placed|
    && forall k :: a.tx.retired <= k < m ==> Complete(a.tx.placed[k])
  }

  function Retire(a: Rank, m: nat): Rank {
    a.(tx := a.tx.(retired := m))
  }

  // ------------------------------------------------------------------ placement at the peer

  predicate CanPlaceTag(a: Rank, e: nat) {
    0 < e <= |a.tx.placed| && !a.tx.placed[e - 1].tag
  }

  predicate CanPlaceCommit(a: Rank, e: nat) {
    0 < e <= |a.tx.placed| && !a.tx.placed[e - 1].commit
  }

  /** The payload's words land in any order, its tail word only after all the others. */
  ghost predicate CanPlaceWord(a: Rank, e: nat, i: nat) {
    && 0 < e <= |a.tx.placed|
    && var p := a.tx.placed[e - 1];
       i <= p.len && i !in p.words && (i == p.len ==> AllBelow(p.words, p.len))
  }

  function MarkPlaced(a: Rank, e: nat, p: Placed): Rank
    requires 0 < e <= |a.tx.placed|
  {
    a.(tx := a.tx.(placed := a.tx.placed[e - 1 := p]))
  }

  /** The length tag was copied into the work request when the epoch was posted. */
  function PlaceTag(a: Rank, b: Rank, e: nat): Rank
    requires |b.rx.lenPeer| == LEN_EPOCHS && 0 < e <= |a.tx.placed|
  {
    b.(rx := b.rx.(lenPeer := b.rx.lenPeer[e % LEN_EPOCHS := Tag(e, a.tx.placed[e - 1].len)]))
  }

  function PlaceCommit(b: Rank, e: nat): Rank {
    b.(rx := b.rx.(committed := e))
  }

  /** The NIC reads the send ring when it sends, not when it was posted. */
  function PlaceWord(a: Rank, b: Rank, e: nat, i: nat): Rank
    requires |a.tx.send| == |b.rx.recv| == R
  {
    var from, slot := a.tx.send[e % R], b.rx.recv[e % R];
    if i < |from| && i < |slot| then b.(rx := b.rx.(recv := b.rx.recv[e % R := slot[i := from[i]]])) else b
  }

  // ------------------------------------------------------------------ the receiving proxy

  /** Read the commit hint once the last release is out. */
  predicate CanLook(a: Rank) {
    a.rx.checked == a.rx.done && a.rx.committed > a.rx.done
  }

  function Look(a: Rank): Rank {
    a.(rx := a.rx.(seen := a.rx.committed))
  }

  /** Epoch e's own length tag has landed, and its tail word sits where that tag says. */
  predicate Landed(a: Rank, e: nat)
    requires |a.rx.lenPeer| == LEN_EPOCHS && |a.rx.recv| == R
  {
    var tag := a.rx.lenPeer[e % LEN_EPOCHS];
    tag.epoch == e && tag.len < |a.rx.recv[e % R]| && a.rx.recv[e % R][tag.len] == e
  }

  /** Validate the next epoch; one the GPU proved itself needs no second proof. */
  predicate CanCheck(a: Rank)
    requires |a.rx.lenPeer| == LEN_EPOCHS && |a.rx.recv| == R
  {
    var e := a.rx.checked + 1;
    e <= a.rx.seen && (e <= a.rx.proved || Landed(a, e))
  }

  function Check(a: Rank): Rank {
    a.(rx := a.rx.(checked := a.rx.checked + 1))
  }

  /** Release everything up to the hint to the GPU. */
  predicate CanRelease(a: Rank) {
    a.rx.done < a.rx.checked == a.rx.seen
  }

  function Release(a: Rank): Rank {
    a.(rx := a.rx.(done := a.rx.seen))
  }

  // ------------------------------------------------------------------ the receiving kernel

  /** A kernel that receives on the GPU takes the proxy's release, or the commit hint and the tail
      word at the length it derives itself, and says so before it reads. */
  predicate CanProve(j: Job, a: Rank)
    requires |a.rx.recv| == R
  {
    var e := a.k1;
    && e == a.k2 + 1 && a.rx.proved < e
    && (a.rx.done >= e
        || (a.rx.committed >= e && j.len(e) < |a.rx.recv[e % R]| && a.rx.recv[e % R][j.len(e)] == e))
  }

  function Prove(a: Rank): Rank {
    a.(rx := a.rx.(proved := a.k1))
  }

  /** K2(e): after K1(e), once the proxy released e or the kernel proved it; reads exactly its own
      length of words. */
  predicate CanK2(a: Rank) {
    a.k1 == a.k2 + 1 && (a.rx.done >= a.k1 || a.rx.proved >= a.k1)
  }

  function K2(j: Job, a: Rank): Rank
    requires |a.rx.recv| == R && j.len(a.k2 + 1) <= |a.rx.recv[(a.k2 + 1) % R]|
  {
    var e := a.k2 + 1;
    a.(k2 := e, reduced := a.reduced + [a.rx.recv[e % R][..j.len(e)]])
  }

  // ------------------------------------------------------------------ the system

  datatype Step =
    | DoK1 | DoPost | DoRetire(m: nat) | DoLook | DoCheck | DoRelease | DoProve | DoK2
    | DoTag(e: nat) | DoCommit(e: nat) | DoWord(e: nat, i: nat)

  ghost predicate Shaped(j: Job, a: Rank) {
    && |a.tx.send| == R && |a.tx.lenLocal| == LEN_EPOCHS && |a.rx.recv| == R && |a.rx.lenPeer| == LEN_EPOCHS
    && (forall s :: 0 <= s < R ==> |a.tx.send[s]| == j.cap && |a.rx.recv[s]| == j.cap)
  }

  ghost predicate Can(j: Job, a: Rank, b: Rank, t: Step)
    requires Shaped(j, a) && Shaped(j, b)
  {
    match t
    case DoK1 => CanK1(a)
    case DoPost => CanPost(a)
    case DoRetire(m) => CanRetire(a, m)
    case DoLook => CanLook(a)
    case DoCheck => CanCheck(a)
    case DoRelease => CanRelease(a)
    case DoProve => CanProve(j, a)
    case DoK2 => CanK2(a)
    case DoTag(e) => CanPlaceTag(a, e)
    case DoCommit(e) => CanPlaceCommit(a, e)
    case DoWord(e, i) => CanPlaceWord(a, e, i)
  }

  /** Rank x in state `a` takes step t with its peer in state `b`. */
  ghost function Act(j: Job, x: nat, a: Rank, b: Rank, t: Step): (Rank, Rank)
    requires JobOk(j) && Shaped(j, a) && Shaped(j, b) && Can(j, a, b, t)
  {
    match t
    case DoK1 => (K1(j, x, a), b)
    case DoPost => (Post(a), b)
    case DoRetire(m) => (Retire(a, m), b)
    case DoLook => (Look(a), b)
    case DoCheck => (Check(a), b)
    case DoRelease => (Release(a), b)
    case DoProve => (Prove(a), b)
    case DoK2 => (K2(j, a), b)
    case DoTag(e) => (MarkPlaced(a, e, a.tx.placed[e - 1].(tag := true)), PlaceTag(a, b, e))
    case DoCommit(e) => (MarkPlaced(a, e, a.tx.placed[e - 1].(commit := true)), PlaceCommit(b, e))
    case DoWord(e, i) =>
      (MarkPlaced(a, e, a.tx.placed[e - 1].(words := a.tx.placed[e - 1].words + {i})), PlaceWord(a, b, e, i))
  }

  datatype Pair = Pair(a: Rank, b: Rank)

  datatype Move = Move(x: nat, step: Step)

  ghost predicate Enabled(j: Job, s: Pair, m: Move) {
    && Shaped(j, s.a) && Shaped(j, s.b)
    && if m.x == 0 then Can(j, s.a, s.b, m.step) else m.x == 1 && Can(j, s.b, s.a, m.step)
  }

  ghost function Next(j: Job, s: Pair, m: Move): Pair
    requires JobOk(j) && Enabled(j, s, m)
  {
    if m.x == 0 then
      var r := Act(j, 0, s.a, s.b, m.step); Pair(r.0, r.1)
    else
      var r := Act(j, 1, s.b, s.a, m.step); Pair(r.1, r.0)
  }

  function Idle(j: Job): Rank {
    var zero := seq(R, s => seq(j.cap, i => 0));
    var tags := seq(LEN_EPOCHS, i => Tag(0, 0));
    Rank(0, 0, Tx(zero, tags, 0, 0, [], 0), Rx(zero, tags, 0, 0, 0, 0, 0), [])
  }
}
