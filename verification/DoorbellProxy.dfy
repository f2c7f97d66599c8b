// The two-rank proxy on its shared memory: post, drain and receive passes over flat rings, each
// proved to be a sequence of the protocol's steps.

module DoorbellProxy {
  import opened Doorbell
  import Progress

  const MAX_POST: nat := 16
  const TAG_SHIFT: nat := 0x10_0000

  // ------------------------------------------------------------------ the length-tag codec

  /** An epoch's generation-tagged length: epoch above bit 20, 8-byte words below. */
  function TagWord(t: Tag): nat {
    t.epoch * TAG_SHIFT + t.len
  }

  function TagOf(w: nat): Tag {
    Tag(w / TAG_SHIFT, w % TAG_SHIFT)
  }

  lemma TagRoundTrip(t: Tag)
    ensures TagOf(TagWord(t)) == t <==> t.len < TAG_SHIFT
    ensures forall w: nat :: TagWord(TagOf(w)) == w
  {
    assert t.len < TAG_SHIFT ==> (t.epoch * TAG_SHIFT + t.len) / TAG_SHIFT == t.epoch;
    forall w: nat ensures TagWord(TagOf(w)) == w {
      assert w == w / TAG_SHIFT * TAG_SHIFT + w % TAG_SHIFT;
    }
  }

  function TagsOf(ws: seq<nat>): (r: seq<Tag>)
    ensures |r| == |ws|
  {
    seq(|ws|, i requires 0 <= i < |ws| => TagOf(ws[i]))
  }

  /** Slot s of a ring of `cap`-word slots. */
  function SlotAt(ws: seq<Word>, cap: nat, s: nat): (r: seq<Word>)
    requires |ws| == R * cap && s < R
    ensures |r| == cap
  {
    assert s * cap + cap == (s + 1) * cap <= R * cap;
    ws[s * cap..s * cap + cap]
  }

  /** The ring as slots of `cap` words. */
  function SlotsOf(ws: seq<Word>, cap: nat): (r: seq<seq<Word>>)
    requires |ws| == R * cap
    ensures |r| == R && forall s :: 0 <= s < R ==> |r[s]| == cap
  {
    seq(R, s requires 0 <= s < R => SlotAt(ws, cap, s))
  }

  // ------------------------------------------------------------------ passes as step sequences

  /** Post the next `n` epochs. */
  function PostMany(a: Rank, n: nat): (r: Rank)
    requires |a.tx.lenLocal| == LEN_EPOCHS
    ensures r == a.(tx := a.tx.(posted := a.tx.posted + n, placed := r.tx.placed))
  {
    if n == 0 then a else Post(PostMany(a, n - 1))
  }

  /** Epoch e's length tag carries its generation and a sane length. */
  predicate TagReady(a: Rank, e: nat, cap: nat)
    requires |a.tx.lenLocal| == LEN_EPOCHS
  {
    var t := a.tx.lenLocal[e % LEN_EPOCHS]; t.epoch == e && 0 < t.len < cap
  }

  predicate TagsReady(a: Rank, n: nat, cap: nat)
    requires |a.tx.lenLocal| == LEN_EPOCHS
  {
    forall e :: a.tx.posted < e <= a.tx.posted + n ==> TagReady(a, e, cap)
  }

  lemma PostNothing(a: Rank, cap: nat)
    requires |a.tx.lenLocal| == LEN_EPOCHS
    ensures TagsReady(a, 0, cap) && PostMany(a, 0) == a
  {
  }

  /** A post pass takes only enabled protocol steps. */
  lemma PostManyEnabled(a: Rank, n: nat, k: nat, cap: nat)
    requires |a.tx.lenLocal| == LEN_EPOCHS && TagsReady(a, n, cap) && k < n && a.tx.posted + n <= a.tx.ready
    ensures CanPost(PostMany(a, k)) && PostMany(a, k + 1) == Post(PostMany(a, k))
  {
    assert TagReady(a, a.tx.posted + k + 1, cap);
  }

  /** Validate the next `n` epochs after reading the hint. */
  function CheckMany(a: Rank, n: nat): Rank {
    a.(rx := a.rx.(checked := a.rx.checked + n))
  }

  /** The GPU proved epoch e itself, or its length tag is sane and its tail in place. */
  predicate Arrived(a: Rank, e: nat, cap: nat)
    requires |a.rx.lenPeer| == LEN_EPOCHS && |a.rx.recv| == R && forall s :: 0 <= s < R ==> |a.rx.recv[s]| == cap
  {
    var t := a.rx.lenPeer[e % LEN_EPOCHS];
    e <= a.rx.proved || (t.epoch == e && 0 < t.len < cap && a.rx.recv[e % R][t.len] == e)
  }

  /** A receive pass takes only enabled protocol steps. */
  lemma CheckManyEnabled(a: Rank, k: nat, cap: nat)
    requires |a.rx.lenPeer| == LEN_EPOCHS && |a.rx.recv| == R && forall s :: 0 <= s < R ==> |a.rx.recv[s]| == cap
    requires CanLook(a) && a.rx.done + k < a.rx.committed && Arrived(a, a.rx.done + k + 1, cap)
    ensures CanCheck(CheckMany(Look(a), k)) && Check(CheckMany(Look(a), k)) == CheckMany(Look(a), k + 1)
  {
  }

  lemma ReleaseEnabled(a: Rank)
    requires CanLook(a)
    ensures CanRelease(CheckMany(Look(a), a.rx.committed - a.rx.done))
    ensures var r := Release(CheckMany(Look(a), a.rx.committed - a.rx.done));
            r == a.(rx := a.rx.(seen := a.rx.committed, checked := a.rx.committed, done := a.rx.committed))
  {
  }

  // ------------------------------------------------------------------ the proxy object

  datatype WorkRequest =
    | LenTag(epoch: nat, tag: nat)
    | Payload(epoch: nat, words: nat, signaled: bool)
    | Commit(epoch: nat, signaled: bool)

  /** Length tag, payload with its tail, signaled commit; the drill posts every 4096th commit first
      and signals its payload too. */
  function Triple(e: nat, tag: nat, drill: bool): seq<WorkRequest> {
    if drill && e % 4096 == 0
    then [Commit(e, true), LenTag(e, tag), Payload(e, TagOf(tag).len + 1, true)]
    else [LenTag(e, tag), Payload(e, TagOf(tag).len + 1, false), Commit(e, true)]
  }

  function Triples(lens: seq<nat>, first: nat, n: nat, drill: bool): seq<WorkRequest>
    requires |lens| == LEN_EPOCHS
  {
    if n == 0 then []
    else Triples(lens, first, n - 1, drill) + Triple(first + n - 1, lens[(first + n - 1) % LEN_EPOCHS], drill)
  }

  /** A completion: which work request, and whether it succeeded. */
  datatype Completion = Completion(epoch: nat, ok: bool)

  class NetCtx {
    const cap: nat
    const drill: bool
    const recvGpu: bool
    const lenLocal: array<nat>
    const lenPeer: array<nat>
    const recv: array<Word>
    var gpuReady: nat
    var peerCommitted: nat
    var rxDone: nat
    var cpuDone: nat
    var txRetired: nat
    var abort: nat
    var nextToPost: nat
    var nextRelease: nat
    var wire: seq<WorkRequest>
    /** The rest of the protocol's rank: kernels, send ring, and what the NIC has placed. */
    ghost var rest: Rank

    ghost predicate Valid()
      reads this
    {
      && lenLocal.Length == lenPeer.Length == LEN_EPOCHS && recv.Length == R * cap && lenLocal != lenPeer
      && nextToPost > 0 && nextRelease > 0 && nextRelease == cpuDone + 1
    }

    constructor (cap: nat, drill: bool, recvGpu: bool)
      ensures Valid() && fresh(lenLocal) && fresh(lenPeer) && fresh(recv) && abort == 0 && wire == []
      ensures nextToPost == nextRelease == 1 && gpuReady == peerCommitted == rxDone == 0
    {
      this.cap, this.drill, this.recvGpu := cap, drill, recvGpu;
      lenLocal := new nat[LEN_EPOCHS](_ => 0);
      lenPeer := new nat[LEN_EPOCHS](_ => 0);
      recv := new Word[R * cap](_ => 0);
      gpuReady, peerCommitted, rxDone, cpuDone, txRetired, abort := 0, 0, 0, 0, 0, 0;
      nextToPost, nextRelease, wire := 1, 1, [];
      rest := Rank(0, 0, Tx([], [], 0, 0, [], 0), Rx([], [], 0, 0, 0, 0, 0), []);
    }

    /** The protocol's view of this context between passes. */
    ghost function View(): Rank
      requires Valid()
      reads this, lenLocal, lenPeer, recv
    {
      rest.(tx := rest.tx.(lenLocal := TagsOf(lenLocal[..]), ready := gpuReady, posted := nextToPost - 1, retired := txRetired),
            rx := Rx(SlotsOf(recv[..], cap), TagsOf(lenPeer[..]), peerCommitted, rxDone, rest.rx.seen, cpuDone, cpuDone))
    }

    /** Build and post the work requests of epochs first..last, or abort on a bad length tag. */
    method PostRange(first: nat, last: nat) returns (posted: int)
      requires Valid() && first == nextToPost <= last <= gpuReady
      modifies this`wire, this`abort
      ensures Valid()
      ensures var n := if last - first + 1 > MAX_POST then MAX_POST else last - first + 1;
              if TagsReady(View(), n, cap)
              then posted == n && wire == old(wire) + Triples(lenLocal[..], first, n, drill) && abort == old(abort)
              else posted == -1 && wire == old(wire) && abort == 9
    {
      var n := if last - first + 1 > MAX_POST then MAX_POST else last - first + 1;
      var batch := [];
      var i := 0;
      ghost var a := View();
      while i < n
        invariant 0 <= i <= n && Valid() && View() == a && wire == old(wire) && abort == old(abort)
        invariant batch == Triples(lenLocal[..], first, i, drill)
        invariant TagsReady(a, i, cap)
      {
        var e := first + i;
        var tag := lenLocal[e % LEN_EPOCHS];
        assert TagReady(a, e, cap) <==> (TagOf(tag).epoch == e && 0 < TagOf(tag).len < cap);
        if TagOf(tag).epoch != e || TagOf(tag).len == 0 || TagOf(tag).len >= cap {
          abort := 9;
          return -1;
        }
        batch := batch + Triple(e, tag, drill);
        i := i + 1;
      }
      wire := wire + batch;
      posted := n;
    }

    /** Post what the GPU has published, at most MAX_POST epochs. */
    method SendPass() returns (ok: bool)
      requires Valid() && nextToPost <= gpuReady + 1
      modifies this`nextToPost, this`wire, this`abort, this`rest
      ensures Valid()
      ensures var n := if gpuReady + 1 - old(nextToPost) > MAX_POST then MAX_POST else gpuReady + 1 - old(nextToPost);
              && ok == TagsReady(old(View()), n, cap)
              && wire == old(wire) + (if ok then Triples(lenLocal[..], old(nextToPost), n, drill) else [])
              && View() == (if ok then PostMany(old(View()), n) else old(View()))
              && abort == (if ok then old(abort) else 9)
    {
      hide TagsReady, TagsOf, SlotsOf;
      ok := true;
      ghost var a := View();
      PostNothing(a, cap);
      if gpuReady >= nextToPost {
        var posted := PostRange(nextToPost, gpuReady);
        if posted < 0 {
          return false;
        }
        nextToPost := nextToPost + posted;
        rest := rest.(tx := rest.tx.(placed := PostMany(a, posted).tx.placed));
      }
    }

    /** The highest completed epoch opens the reuse gate; any failure aborts. */
    method DrainCq(wc: seq<Completion>) returns (ok: bool)
      requires Valid()
      modifies this`txRetired, this`abort
      ensures Valid()
      ensures ok <==> forall k :: 0 <= k < |wc| ==> wc[k].ok
      ensures !ok ==> abort == 4 && txRetired == old(txRetired)
      ensures ok ==> abort == old(abort)
      ensures ok && (exists k :: 0 <= k < |wc| && wc[k].epoch > 0) ==>
                (exists k :: 0 <= k < |wc| && wc[k].epoch == txRetired) && forall k :: 0 <= k < |wc| ==> wc[k].epoch <= txRetired
      ensures ok && (forall k :: 0 <= k < |wc| ==> wc[k].epoch == 0) ==> txRetired == old(txRetired)
    {
      var hi, i := 0, 0;
      while i < |wc|
        invariant 0 <= i <= |wc| && txRetired == old(txRetired) && abort == old(abort)
        invariant forall k :: 0 <= k < i ==> wc[k].ok && wc[k].epoch <= hi
        invariant hi > 0 ==> exists k :: 0 <= k < i && wc[k].epoch == hi
      {
        if !wc[i].ok {
          abort := 4;
          return false;
        }
        if wc[i].epoch > hi {
          hi := wc[i].epoch;
        }
        i := i + 1;
      }
      if hi > 0 {
        txRetired := hi;
      }
      ok := true;
    }

    /** Did the GPU prove epoch e, or are its length tag and tail in place? Read as the bounded waits
        leave them. */
    method SlotReady(e: nat) returns (ready: bool)
      requires Valid()
      ensures ready == Arrived(View(), e, cap)
    {
      if rxDone >= e {
        return true;
      }
      var tag := TagOf(lenPeer[e % LEN_EPOCHS]);
      if tag.epoch != e || tag.len == 0 || tag.len >= cap {
        return false;
      }
      SlotWord(recv[..], cap, e % R, tag.len);
      ready := recv[(e % R) * cap + tag.len] == e;
    }

    /** Validate the epochs from the next one to release up to `pc`, in order. */
    method ValidateTo(pc: nat) returns (ok: bool)
      requires Valid()
      ensures ok == forall e :: nextRelease <= e <= pc ==> Arrived(View(), e, cap)
    {
      var e := nextRelease;
      while e <= pc
        invariant nextRelease <= e
        invariant forall k :: nextRelease <= k < e && k <= pc ==> Arrived(View(), k, cap)
      {
        var ready := SlotReady(e);
        if !ready {
          return false;
        }
        e := e + 1;
      }
      ok := true;
    }

    /** Validate every epoch up to the commit hint, then release them all to the GPU at once; the
        whole pass is skipped when the GPU receives. */
    method ReceivePass() returns (ok: bool)
      requires Valid()
      modifies this`cpuDone, this`nextRelease, this`abort, this`rest
      ensures Valid()
      ensures recvGpu || peerCommitted < old(nextRelease) ==> ok && View() == old(View()) && abort == old(abort)
      ensures !recvGpu && peerCommitted >= old(nextRelease) ==>
                ok == (forall e :: old(nextRelease) <= e <= peerCommitted ==> Arrived(old(View()), e, cap))
      ensures !recvGpu && peerCommitted >= old(nextRelease) && ok ==>
                View() == Release(CheckMany(Look(old(View())), peerCommitted - old(cpuDone))) && abort == old(abort)
      ensures !ok ==> abort == 2 && View() == old(View())
    {
      var pc := peerCommitted;
      ok := true;
      if !recvGpu && pc >= nextRelease {
        ok := ValidateTo(pc);
        if !ok {
          abort := 2;
          return;
        }
        ReleaseEnabled(View());
        hide Arrived, TagsOf, SlotsOf;
        cpuDone := pc;
        nextRelease := pc + 1;
        rest := rest.(rx := rest.rx.(seen := pc));
      }
    }

    /** What the watchdog charges: posted epochs the peer has not matched, once a rendezvous ran. */
    method Owes() returns (owed: bool)
      requires Valid()
      ensures var books := Progress.Books(recvGpu, nextToPost - 1, cpuDone, rxDone);
              owed <==> (cpuDone > 0 || (recvGpu && rxDone > 0)) && Progress.Debt(books) > 0
    {
      var rx := if recvGpu then rxDone else 0;
      var matched := nextRelease;
      if recvGpu {
        matched := if nextRelease > rx + 1 then nextRelease else rx + 1;
      } else if rx >= nextRelease {
        matched := rx;
      }
      owed := (cpuDone > 0 || rx > 0) && nextToPost > matched;
    }
  }

  lemma SlotWord(ws: seq<Word>, cap: nat, s: nat, i: nat)
    requires |ws| == R * cap && s < R && i < cap
    ensures s * cap + i < |ws| && SlotsOf(ws, cap)[s][i] == ws[s * cap + i]
  {
    assert (s + 1) * cap <= R * cap;
  }
}
