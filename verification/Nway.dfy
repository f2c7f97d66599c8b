// The N-way proxy's watermarks: per-peer retirement credit over a mix of tree and one-shot
// epochs, and per-peer release gates that may step back but never claim too much.

module Nway {
  import opened Doorbell
  import RecursiveDoubling
  import Residues
  import opened Wrappers

  /** Partner of each round; different rounds have different partners. */
  ghost predicate Schedule(partners: seq<nat>, world: nat) {
    && 0 < |partners| <= RecursiveDoubling.MAX_ROUNDS
    && (forall k :: 0 <= k < |partners| ==> partners[k] < world)
    && (forall j, k :: 0 <= j < k < |partners| ==> partners[j] != partners[k])
  }

  /** The peer that owes, and is owed, epoch e of the tree. */
  function PartnerOf(partners: seq<nat>, e: nat): nat
    requires partners != []
  {
    partners[e % |partners|]
  }

  /** The real schedule is one of these. */
  lemma RealSchedule(rounds: nat, rank: RecursiveDoubling.RankId)
    requires 0 < rounds <= RecursiveDoubling.MAX_ROUNDS && rank as nat < RecursiveDoubling.World(rounds)
    ensures Schedule(seq(rounds, k requires 0 <= k < rounds => RecursiveDoubling.Partner(rank, k) as nat), RecursiveDoubling.World(rounds))
  {
    var ps := seq(rounds, k requires 0 <= k < rounds => RecursiveDoubling.Partner(rank, k) as nat);
    hide RecursiveDoubling.World, RecursiveDoubling.Partner, Schedule;
    forall k: nat | k < rounds ensures ps[k] < RecursiveDoubling.World(rounds) {
      RecursiveDoubling.PartnersMutual(rounds, rank, k);
    }
    forall j: nat, k: nat | j < k < rounds ensures ps[j] != ps[k] {
      RecursiveDoubling.PartnersDiffer(rank, j, k);
    }
    AreSchedule(ps, RecursiveDoubling.World(rounds));
  }

  lemma AreSchedule(partners: seq<nat>, world: nat)
    requires 0 < |partners| <= RecursiveDoubling.MAX_ROUNDS
    requires forall k: nat :: k < |partners| ==> partners[k] < world
    requires forall j: nat, k: nat :: j < k < |partners| ==> partners[j] != partners[k]
    ensures Schedule(partners, world)
  {
  }

  // ------------------------------------------------------------------ completions

  const TAG_SHIFT: nat := 0x1_0000_0000_0000

  /** A bare epoch for a tree post; a one-shot post carries the peer above bit 48. */
  function WrId(partners: seq<nat>, e: nat, peer: nat, oneShot: bool): nat {
    if oneShot then (peer + 1) * TAG_SHIFT + e else e
  }

  function WrPeer(partners: seq<nat>, id: nat): int
    requires partners != []
  {
    if id / TAG_SHIFT != 0 then id / TAG_SHIFT - 1 else PartnerOf(partners, id)
  }

  function WrEpoch(id: nat): nat {
    if id / TAG_SHIFT != 0 then id % TAG_SHIFT else id
  }

  /** Every completion is credited to the queue pair it completed on, at the epoch it was posted
      for: a tree epoch is only ever posted to its partner. */
  lemma CreditsItsQueue(partners: seq<nat>, e: nat, peer: nat, oneShot: bool)
    requires partners != [] && e < TAG_SHIFT && (!oneShot ==> peer == PartnerOf(partners, e))
    ensures WrPeer(partners, WrId(partners, e, peer, oneShot)) == peer
    ensures WrEpoch(WrId(partners, e, peer, oneShot)) == e
  {
    if oneShot {
      assert ((peer + 1) * TAG_SHIFT + e) / TAG_SHIFT == peer + 1;
    }
  }

  /** An epoch posted on some peer's queue pair. */
  datatype Post = Post(epoch: nat, oneShot: bool)

  /** Epochs on one queue pair rise; a tree epoch sits only on its partner's. */
  ghost predicate PostsOk(partners: seq<nat>, peer: nat, posts: seq<Post>)
    requires partners != []
  {
    && (forall k :: 0 <= k < |posts| ==>
          0 < posts[k].epoch < TAG_SHIFT && (!posts[k].oneShot ==> peer == PartnerOf(partners, posts[k].epoch)))
    && (forall j, k :: 0 <= j < k < |posts| ==> posts[j].epoch < posts[k].epoch)
  }

  /** The credit is the last epoch that retired on the queue pair. */
  ghost predicate CreditIs(posts: seq<Post>, retired: nat, credit: nat) {
    retired <= |posts| && credit == if retired == 0 then 0 else posts[retired - 1].epoch
  }

  /** What the reuse gates read: credit >= e exactly when every epoch up to e posted on this
      queue pair, and some epoch at or past e, has retired. */
  lemma CreditMeans(partners: seq<nat>, peer: nat, posts: seq<Post>, retired: nat, credit: nat, e: nat)
    requires partners != [] && PostsOk(partners, peer, posts) && CreditIs(posts, retired, credit) && e > 0
    ensures credit >= e <==> (exists k :: 0 <= k < retired && posts[k].epoch >= e)
    ensures credit >= e ==> forall k :: 0 <= k < |posts| && posts[k].epoch <= e ==> k < retired
  {
    if credit >= e {
      assert posts[retired - 1].epoch >= e;
    }
  }

  /** The gate that waits on exactly the queue pairs an epoch was posted to opens exactly when
      that epoch has retired on all of them: its send slot is free. */
  lemma GateIsExact(partners: seq<nat>, posts: seq<seq<Post>>, retired: seq<nat>, credits: seq<nat>, queues: set<nat>, e: nat)
    requires partners != [] && |posts| == |retired| == |credits| && e > 0
    requires forall p :: 0 <= p < |posts| ==> PostsOk(partners, p, posts[p]) && CreditIs(posts[p], retired[p], credits[p])
    requires forall p :: p in queues ==> p < |posts| && exists k :: 0 <= k < |posts[p]| && posts[p][k].epoch == e
    ensures (forall p :: p in queues ==> credits[p] >= e)
       <==> (forall p, k :: p in queues && 0 <= k < |posts[p]| && posts[p][k].epoch == e ==> k < retired[p])
  {
    forall p | p in queues
      ensures credits[p] >= e <==> forall k :: 0 <= k < |posts[p]| && posts[p][k].epoch == e ==> k < retired[p]
    {
      CreditMeans(partners, p, posts[p], retired[p], credits[p], e);
    }
  }

  // ------------------------------------------------------------------ draining

  /** A polled completion: the work request's id, and (known only to the NIC) its queue pair. */
  datatype Cqe = Cqe(id: nat, ok: bool, ghost peer: nat)

  /** How many of the completions belong to `peer`'s queue pair. */
  ghost function CountFor(wc: seq<Cqe>, peer: nat): nat {
    if wc == [] then 0 else CountFor(wc[..|wc| - 1], peer) + (if wc[|wc| - 1].peer == peer then 1 else 0)
  }

  /** Each queue pair completes its posts in order, wherever the queues interleave. */
  ghost predicate InQueueOrder(partners: seq<nat>, posts: seq<seq<Post>>, retired: seq<nat>, wc: seq<Cqe>)
    requires |posts| == |retired|
  {
    forall k :: 0 <= k < |wc| ==> NextOnQueue(partners, posts, retired, wc, k)
  }

  ghost predicate NextOnQueue(partners: seq<nat>, posts: seq<seq<Post>>, retired: seq<nat>, wc: seq<Cqe>, k: nat)
    requires |posts| == |retired| && k < |wc|
  {
    var p := wc[k].peer;
    && p < |posts|
    && (var at := retired[p] + CountFor(wc[..k], p);
        && at < |posts[p]|
        && wc[k].id == WrId(partners, posts[p][at].epoch, p, posts[p][at].oneShot))
  }

  /** Retirements after the first `i` completions. */
  ghost function RetiredAfter(retired: seq<nat>, wc: seq<Cqe>, i: nat): seq<nat>
    requires i <= |wc|
  {
    seq(|retired|, p requires 0 <= p < |retired| => retired[p] + CountFor(wc[..i], p))
  }

  /** The newest of `count` further completions on a queue pair. */
  function Newest(posts: seq<Post>, retired: nat, count: nat): nat {
    if count == 0 || retired + count > |posts| then 0 else posts[retired + count - 1].epoch
  }

  lemma CreditNext(partners: seq<nat>, p: nat, posts: seq<Post>, retired: nat, count: nat, credit: nat)
    requires partners != [] && PostsOk(partners, p, posts) && CreditIs(posts, retired, credit) && retired + count <= |posts|
    ensures CreditIs(posts, retired + count, if Newest(posts, retired, count) != 0 then Newest(posts, retired, count) else credit)
  {
  }

  lemma CountNext(wc: seq<Cqe>, i: nat, p: nat)
    requires i < |wc|
    ensures CountFor(wc[..i + 1], p) == CountFor(wc[..i], p) + (if wc[i].peer == p then 1 else 0)
  {
    assert wc[..i + 1][..i] == wc[..i];
  }

  /** One more completion decodes to its own queue pair, and is newer than any before it there. */
  lemma CompletionDecodes(partners: seq<nat>, posts: seq<seq<Post>>, retired: seq<nat>, wc: seq<Cqe>, i: nat)
    requires partners != [] && |posts| == |retired| && i < |wc| && NextOnQueue(partners, posts, retired, wc, i)
    requires forall p :: 0 <= p < |posts| ==> PostsOk(partners, p, posts[p])
    ensures var q := wc[i].peer;
            var n := CountFor(wc[..i], q);
            && WrPeer(partners, wc[i].id) == q < |posts| && retired[q] + n + 1 <= |posts[q]|
            && WrEpoch(wc[i].id) == Newest(posts[q], retired[q], n + 1) > Newest(posts[q], retired[q], n)
  {
    var q := wc[i].peer;
    var n := CountFor(wc[..i], q);
    var post := posts[q][retired[q] + n];
    CreditsItsQueue(partners, post.epoch, q, post.oneShot);
    hide WrPeer, WrEpoch, WrId, CountFor;
  }

  // ------------------------------------------------------------------ the proxy object

  class NwayProxy {
    const world: nat
    const rank: nat
    const partners: seq<nat>
    const txRetired: array<nat>
    const cpuDone: array<nat>
    var nextRelease: nat
    var abort: nat
    /** Posts of every queue pair, how many of each retired, and the epochs whose own slot was
        tail-validated from the peer that owes them. */
    ghost var posts: seq<seq<Post>>
    ghost var retired: seq<nat>
    ghost var proved: set<(nat, nat)>

    ghost predicate Valid()
      reads this, txRetired, cpuDone
    {
      && Schedule(partners, world) && txRetired.Length == cpuDone.Length == world && txRetired != cpuDone
      && |posts| == |retired| == world && nextRelease > 0
      && (forall p :: 0 <= p < world ==> PostsOk(partners, p, posts[p]) && CreditIs(posts[p], retired[p], txRetired[p]))
    }

    /** Released implies validated, for every peer's line and every epoch that peer owes. */
    ghost predicate TreeReleases()
      requires Valid()
      reads this, txRetired, cpuDone
    {
      && (forall e :: 0 < e < nextRelease ==> (e, PartnerOf(partners, e)) in proved)
      && (forall p :: 0 <= p < world ==> LineOk(p, cpuDone[p]))
    }

    ghost predicate LineOk(p: nat, line: nat)
      requires partners != []
      reads this
    {
      forall e :: 0 < e <= line && PartnerOf(partners, e) == p ==> (e, p) in proved
    }

    constructor (world: nat, rank: nat, partners: seq<nat>)
      requires Schedule(partners, world)
      ensures Valid() && TreeReleases() && fresh(txRetired) && fresh(cpuDone)
    {
      this.world, this.rank, this.partners := world, rank, partners;
      txRetired := new nat[world](_ => 0);
      cpuDone := new nat[world](_ => 0);
      nextRelease, abort := 1, 0;
      posts, retired, proved := seq(world, _ => []), seq(world, _ => 0), {};
    }

    // ---------------------------------------------------------------- CQ drain

    /** Publish each queue pair's retirement on its own line; any failure aborts. */
    method DrainCqNway(wc: seq<Cqe>) returns (ok: bool)
      requires Valid() && InQueueOrder(partners, posts, retired, wc)
      modifies this`retired, this`abort, txRetired
      ensures Valid()
      ensures ok <==> forall k :: 0 <= k < |wc| ==> wc[k].ok
      ensures if ok then retired == RetiredAfter(old(retired), wc, |wc|) && abort == old(abort)
              else abort == 4 && retired == old(retired) && txRetired[..] == old(txRetired[..])
    {
      var hi := seq(world, p => 0);
      var i := 0;
      hide CreditIs, PostsOk, Schedule, NextOnQueue, WrPeer, WrEpoch, Newest;
      assert forall p :: 0 <= p < world ==> Newest(posts[p], retired[p], 0) == 0 by { NoneNewest(); }
      while i < |wc|
        invariant 0 <= i <= |wc| && |hi| == world && retired == old(retired) && txRetired[..] == old(txRetired[..])
        invariant Valid() && abort == old(abort) && posts == old(posts)
        invariant forall k :: 0 <= k < i ==> wc[k].ok
        invariant Tallied(wc, i, hi)
      {
        if !wc[i].ok {
          abort := 4;
          return false;
        }
        hi := Tally(wc, i, hi);
        i := i + 1;
      }
      assert wc[..i] == wc;
      Publish(wc, hi);
      ok := true;
    }

    /** `hi` holds each queue pair's newest epoch among the first `i` completions. */
    ghost predicate Tallied(wc: seq<Cqe>, i: nat, hi: seq<nat>)
      requires i <= |wc| && |hi| == world && |posts| == |retired| == world
      reads this
    {
      forall p :: 0 <= p < world ==>
        retired[p] + CountFor(wc[..i], p) <= |posts[p]| && hi[p] == Newest(posts[p], retired[p], CountFor(wc[..i], p))
    }

    method Tally(wc: seq<Cqe>, i: nat, hi0: seq<nat>) returns (hi: seq<nat>)
      requires Valid() && i < |wc| && |hi0| == world && Tallied(wc, i, hi0) && InQueueOrder(partners, posts, retired, wc)
      ensures |hi| == world && Tallied(wc, i + 1, hi)
    {
      hide CountFor, Newest, WrPeer, WrEpoch, CreditIs, PostsOk, NextOnQueue;
      hi := hi0;
      assert NextOnQueue(partners, posts, retired, wc, i) && partners != [];
      CompletionDecodes(partners, posts, retired, wc, i);
      forall p | 0 <= p < world ensures CountFor(wc[..i + 1], p) == CountFor(wc[..i], p) + (if wc[i].peer == p then 1 else 0) {
        CountNext(wc, i, p);
      }
      var p, e := WrPeer(partners, wc[i].id), WrEpoch(wc[i].id);
      if 0 <= p < world && e > hi[p] {
        hi := hi[p := e];
      }
    }

    method Publish(ghost wc: seq<Cqe>, hi: seq<nat>)
      requires Valid() && |hi| == world && Tallied(wc, |wc|, hi)
      modifies this`retired, txRetired
      ensures Valid() && retired == RetiredAfter(old(retired), wc, |wc|)
    {
      ghost var before := retired;
      assert wc[..|wc|] == wc;
      var p := 0;
      while p < world
        invariant 0 <= p <= world && retired == before
        invariant forall q :: 0 <= q < world ==>
                    CreditIs(posts[q], if q < p then before[q] + CountFor(wc, q) else before[q], txRetired[q])
      {
        CreditNext(partners, p, posts[p], before[p], CountFor(wc, p), txRetired[p]);
        hide CreditIs, Newest, PostsOk;
        if hi[p] != 0 {
          txRetired[p] := hi[p];
        }
        p := p + 1;
      }
      retired := RetiredAfter(before, wc, |wc|);
    }

    // ---------------------------------------------------------------- receive, tree

    /** Move partner `p`'s line to `line`, backward or forward. */
    method StoreLine(p: nat, line: nat)
      requires Valid() && TreeReleases() && p < world && LineOk(p, line)
      modifies cpuDone
      ensures Valid() && TreeReleases() && cpuDone[p] == line
      ensures forall q :: 0 <= q < world && q != p ==> cpuDone[q] == old(cpuDone[q])
    {
      cpuDone[p] := line;
    }

    /** What this pass proves, it has read: the slot's tail, behind its peer's commit. */
    ghost predicate ProvedByReading(was: set<(nat, nat)>, commits: nat -> nat, landed: (nat, nat) -> bool)
      reads this
    {
      proved >= was && forall x :: x in proved && x !in was ==> commits(x.1) >= x.0 && landed(x.0, x.1)
    }

    /** Before moving on to a new partner, validate the previous partner's landed backlog and
        release its line to the newest epoch that partner has committed. */
    method DrainBacklog(e: nat, commits: nat -> nat, landed: (nat, nat) -> bool) returns (ok: bool)
      requires Valid() && TreeReleases() && e == nextRelease
      modifies this`proved, cpuDone
      ensures Valid() && TreeReleases() && ProvedByReading(old(proved), commits, landed)
      ensures ok <==> BacklogLanded(partners, e - 1, commits, landed)
      ensures ok ==> NewestOf(partners, e - 1, commits, cpuDone[PartnerOf(partners, e - 1)])
      ensures forall q :: 0 <= q < world && (!ok || q != PartnerOf(partners, e - 1)) ==> cpuDone[q] == old(cpuDone[q])
    {
      var prev := PartnerOf(partners, e - 1);
      var rel;
      ok, rel := WalkBacklog(e - 1, commits, landed);
      hide CreditIs, PostsOk, NewestOf, LineOk, PartnerOf, BacklogLanded;
      if ok && rel >= e - 1 {
        StoreLine(prev, rel);
      }
    }

    /** Validate the pending epochs of one partner, one turn of the schedule apart; `line` is the
        highest validated. */
    method WalkBacklog(from: nat, commits: nat -> nat, landed: (nat, nat) -> bool) returns (ok: bool, line: nat)
      requires Valid() && TreeReleases() && from + 1 == nextRelease
      modifies this`proved
      ensures Valid() && TreeReleases() && ProvedByReading(old(proved), commits, landed)
      ensures ok <==> BacklogLanded(partners, from, commits, landed)
      ensures ok ==> NewestOf(partners, from, commits, line) && LineOk(PartnerOf(partners, from), line)
    {
      var rounds, prev := |partners|, PartnerOf(partners, from);
      assert Schedule(partners, world) && LineOk(prev, from);
      hide CreditIs, PostsOk, NewestOf, LineOk, Valid, TreeReleases, ProvedByReading, PartnerOf, Schedule;
      var pc := commits(prev);
      var pp := from + rounds;
      ghost var was := proved;
      NothingNew(commits, landed);
      NoneBetween(partners, world, from);
      while pp <= pc
        invariant pp - rounds >= from && PartnerOf(partners, pp - rounds) == prev
        invariant Valid() && TreeReleases() && ProvedByReading(was, commits, landed)
        invariant LineOk(prev, pp - rounds) && pp - rounds <= Max(from, pc)
        invariant forall f :: from < f < pp && PartnerOf(partners, f) == prev ==> landed(f, prev)
        decreases pc + 1 - pp
      {
        SamePartner(partners, pp - rounds, 1);
        if !landed(pp, prev) {
          return false, from;
        }
        ProveSlot(was, pp, prev, commits, landed);
        NoneBetween(partners, world, pp);
        pp := pp + rounds;
      }
      IsNewest(partners, world, from, commits, pp - rounds);
      ok, line := true, pp - rounds;
    }

    /** The next slot of a partner's line validates: its line may move over it. */
    ghost method ProveSlot(was: set<(nat, nat)>, pp: nat, p: nat, commits: nat -> nat, landed: (nat, nat) -> bool)
      requires Valid() && TreeReleases() && ProvedByReading(was, commits, landed)
      requires PartnerOf(partners, pp) == p && pp >= |partners| && LineOk(p, pp - |partners|) && pp <= commits(p) && landed(pp, p)
      modifies this`proved
      ensures Valid() && TreeReleases() && ProvedByReading(was, commits, landed) && LineOk(p, pp)
    {
      proved := proved + {(pp, p)};
      LineGrows(pp, p);
    }

    lemma NothingNew(commits: nat -> nat, landed: (nat, nat) -> bool)
      ensures ProvedByReading(proved, commits, landed)
    {
    }

    /** Between two epochs of the same round there is none that the partner owes. */
    lemma LineGrows(pp: nat, p: nat)
      requires Schedule(partners, world) && PartnerOf(partners, pp) == p && pp >= |partners|
      requires LineOk(p, pp - |partners|) && (pp, p) in proved
      ensures LineOk(p, pp)
    {
      forall e | 0 < e <= pp && PartnerOf(partners, e) == p ensures (e, p) in proved {
        if pp - |partners| < e < pp {
          PartnersOnce(partners, world, e, pp);
        }
      }
    }

    /** Release epochs in order while each one's own partner has committed and its own slot
        validates; stop at the first for which that, or the previous partner's backlog, fails.
        `commits` and `landed` are what the reads return. */
    method ReceiveTree(commits: nat -> nat, landed: (nat, nat) -> bool, limit: nat)
      requires Valid() && TreeReleases()
      modifies this`proved, this`nextRelease, cpuDone
      ensures Valid() && TreeReleases() && ProvedByReading(old(proved), commits, landed)
      ensures old(nextRelease) <= nextRelease <= old(nextRelease) + limit
      ensures forall f :: old(nextRelease) <= f < nextRelease ==> MayRelease(partners, f, commits, landed)
      ensures nextRelease < old(nextRelease) + limit ==> !MayRelease(partners, nextRelease, commits, landed)
      ensures LinesAfter(partners, old(nextRelease), nextRelease, commits, old(cpuDone[..]), cpuDone[..])
    {
      hide CreditIs, PostsOk, MayRelease, LineOk, LinesAfter, NewestOf;
      assert LinesAfter(partners, nextRelease, nextRelease, commits, cpuDone[..], cpuDone[..]) by { NoLinesYet(partners, nextRelease, commits, cpuDone[..]); }
      var e := nextRelease;
      var budget := limit;
      while budget > 0
        invariant Valid() && TreeReleases() && ProvedByReading(old(proved), commits, landed)
        invariant old(nextRelease) <= e == nextRelease && e + budget == old(nextRelease) + limit
        invariant forall f :: old(nextRelease) <= f < e ==> MayRelease(partners, f, commits, landed)
        invariant LinesAfter(partners, old(nextRelease), e, commits, old(cpuDone[..]), cpuDone[..])
        decreases budget
      {
        ghost var before := cpuDone[..];
        var ok := ReleaseNext(e, commits, landed);
        if !ok {
          assert cpuDone[..] == before;
          break;
        }
        LinesNext(partners, world, old(nextRelease), e, commits, old(cpuDone[..]), before, cpuDone[..]);
        e := e + 1;
        budget := budget - 1;
      }
    }

    /** One epoch: its own commit and slot, then the previous partner's backlog, then its line. */
    method ReleaseNext(e: nat, commits: nat -> nat, landed: (nat, nat) -> bool) returns (ok: bool)
      requires Valid() && TreeReleases() && e == nextRelease
      modifies this`proved, this`nextRelease, cpuDone
      ensures Valid() && TreeReleases() && ProvedByReading(old(proved), commits, landed)
      ensures ok <==> MayRelease(partners, e, commits, landed)
      ensures nextRelease == if ok then e + 1 else e
      ensures !ok ==> forall q :: 0 <= q < world ==> cpuDone[q] == old(cpuDone[q])
      ensures ok ==> LineAt(partners, e, cpuDone[..], e)
      ensures ok && PartnerOf(partners, e - 1) != PartnerOf(partners, e) ==> Drained(partners, e - 1, commits, cpuDone[..])
      ensures ok ==> forall q :: 0 <= q < world && q != PartnerOf(partners, e) && q != PartnerOf(partners, e - 1) ==> cpuDone[q] == old(cpuDone[q])
    {
      hide CreditIs, PostsOk, NewestOf, BacklogLanded;
      var p := PartnerOf(partners, e);
      if commits(p) < e || !landed(e, p) {
        return false;
      }
      var prev := PartnerOf(partners, e - 1);
      if p != prev {
        ok := DrainBacklog(e, commits, landed);
        if !ok {
          return;
        }
      }
      proved := proved + {(e, p)};
      nextRelease := e + 1;
      StoreLine(p, e);
      ok := true;
    }

    // ---------------------------------------------------------------- receive, one-shot

    /** One-shot contexts: an epoch is owed by every peer and released to all lines at once. */
    ghost predicate OneShotReleases()
      requires Valid()
      reads this, txRetired, cpuDone
    {
      && (forall e, p :: 0 < e < nextRelease && 0 <= p < world && p != rank ==> (e, p) in proved)
      && (forall p :: 0 <= p < world ==> cpuDone[p] < nextRelease)
    }

    /** Every peer has committed epoch e, and its slot validates. */
    ghost predicate FromAll(e: nat, commits: nat -> nat, landed: (nat, nat) -> bool) {
      forall q :: 0 <= q < world && q != rank ==> commits(q) >= e && landed(e, q)
    }

    method ReceiveUniform(commits: nat -> nat, landed: (nat, nat) -> bool, limit: nat)
      requires Valid() && OneShotReleases()
      modifies this`proved, this`nextRelease, cpuDone
      ensures Valid() && OneShotReleases() && ProvedByReading(old(proved), commits, landed)
      ensures old(nextRelease) <= nextRelease <= old(nextRelease) + limit
      ensures forall f :: old(nextRelease) <= f < nextRelease ==> FromAll(f, commits, landed)
      ensures nextRelease < old(nextRelease) + limit ==> !FromAll(nextRelease, commits, landed)
      ensures forall p :: 0 <= p < world ==> cpuDone[p] == if p == rank || nextRelease == old(nextRelease) then old(cpuDone[p]) else nextRelease - 1
    {
      hide CreditIs, PostsOk, Schedule;
      var budget := limit;
      while budget > 0
        invariant Valid() && OneShotReleases() && ProvedByReading(old(proved), commits, landed)
        invariant old(nextRelease) <= nextRelease && nextRelease + budget == old(nextRelease) + limit
        invariant forall f :: old(nextRelease) <= f < nextRelease ==> FromAll(f, commits, landed)
        invariant forall p :: 0 <= p < world ==> cpuDone[p] == if p == rank || nextRelease == old(nextRelease) then old(cpuDone[p]) else nextRelease - 1
        decreases budget
      {
        var e := nextRelease;
        var p := 0;
        var all := true;
        ghost var before := proved;
        while p < world && all
          invariant 0 <= p <= world && all == (forall q :: 0 <= q < p ==> q == rank || (commits(q) >= e && landed(e, q)))
        {
          all := p == rank || (commits(p) >= e && landed(e, p));
          p := p + 1;
        }
        if !all {
          break;
        }
        proved := proved + (set q | 0 <= q < world && q != rank :: (e, q));
        nextRelease := e + 1;
        p := 0;
        while p < world
          invariant 0 <= p <= world && Valid() && nextRelease == e + 1
          invariant proved == before + (set q | 0 <= q < world && q != rank :: (e, q))
          invariant forall q :: 0 <= q < world ==> cpuDone[q] < nextRelease
          invariant forall q :: 0 <= q < p ==> cpuDone[q] == if q == rank then old(cpuDone[q]) else e
          invariant rank < world ==> cpuDone[rank] == old(cpuDone[rank])
        {
          if p != rank {
            cpuDone[p] := e;
          }
          p := p + 1;
        }
        budget := budget - 1;
      }
    }
  }

  /** The landed part of what the partner of epoch `from` has committed past it is all of it. */
  ghost predicate BacklogLanded(partners: seq<nat>, from: nat, commits: nat -> nat, landed: (nat, nat) -> bool)
    requires partners != []
  {
    var p := PartnerOf(partners, from);
    forall f :: from < f <= commits(p) && PartnerOf(partners, f) == p ==> landed(f, p)
  }

  /** The newest epoch its partner has committed, `from` or one it owes later. */
  ghost predicate NewestOf(partners: seq<nat>, from: nat, commits: nat -> nat, line: nat)
    requires partners != []
  {
    var p := PartnerOf(partners, from);
    && PartnerOf(partners, line) == p && from <= line <= Max(from, commits(p))
    && forall f :: line < f <= commits(p) ==> PartnerOf(partners, f) != p
  }

  /** Epoch e may be released: its own partner has committed it and its slot validates, and so
      does whatever a different previous partner has committed by now. */
  ghost predicate MayRelease(partners: seq<nat>, e: nat, commits: nat -> nat, landed: (nat, nat) -> bool)
    requires partners != [] && e > 0
  {
    var p := PartnerOf(partners, e);
    && commits(p) >= e && landed(e, p)
    && (PartnerOf(partners, e - 1) != p ==> BacklogLanded(partners, e - 1, commits, landed))
  }

  /** The lines once epochs first..next - 1 are released: the last one's partner stands at it,
      every other partner of the epochs first - 1 .. next - 2 at the newest epoch it had
      committed, and nobody else's line moved. */
  ghost predicate LinesAfter(partners: seq<nat>, first: nat, next: nat, commits: nat -> nat, was: seq<nat>, lines: seq<nat>)
    requires partners != [] && 0 < first <= next
  {
    && |lines| == |was|
    && (first == next ==> lines == was)
    && (first < next ==> LineAt(partners, next - 1, lines, next - 1))
    && (first < next ==> forall f :: first - 1 <= f < next - 1 && next <= f + |partners| ==> Drained(partners, f, commits, lines))
    && (forall p :: 0 <= p < |was| && (forall f :: first - 1 <= f < next ==> PartnerOf(partners, f) != p) ==> lines[p] == was[p])
  }

  ghost predicate LineAt(partners: seq<nat>, f: nat, lines: seq<nat>, line: nat)
    requires partners != []
  {
    PartnerOf(partners, f) < |lines| && lines[PartnerOf(partners, f)] == line
  }

  ghost predicate Drained(partners: seq<nat>, f: nat, commits: nat -> nat, lines: seq<nat>)
    requires partners != []
  {
    PartnerOf(partners, f) < |lines| && NewestOf(partners, f, commits, lines[PartnerOf(partners, f)])
  }

  lemma NoLinesYet(partners: seq<nat>, next: nat, commits: nat -> nat, lines: seq<nat>)
    requires partners != [] && next > 0
    ensures LinesAfter(partners, next, next, commits, lines, lines)
  {
  }

  /** One more release: the previous partner, if it is another, drained; then epoch e itself. */
  lemma LinesNext(partners: seq<nat>, world: nat, first: nat, e: nat, commits: nat -> nat, was: seq<nat>, before: seq<nat>, after: seq<nat>)
    requires Schedule(partners, world) && |was| == |after| == world && 0 < first <= e && LinesAfter(partners, first, e, commits, was, before)
    requires LineAt(partners, e, after, e)
    requires PartnerOf(partners, e - 1) != PartnerOf(partners, e) ==> Drained(partners, e - 1, commits, after)
    requires forall q :: 0 <= q < world && q != PartnerOf(partners, e) && q != PartnerOf(partners, e - 1) ==> after[q] == before[q]
    ensures LinesAfter(partners, first, e + 1, commits, was, after)
  {
    hide NewestOf;
    forall f | first - 1 <= f < e && e + 1 <= f + |partners| ensures Drained(partners, f, commits, after) {
      PartnersOnce(partners, world, f, e);
      if f < e - 1 {
        PartnersOnce(partners, world, f, e - 1);
        assert Drained(partners, f, commits, before);
        hide PartnerOf;
      }
    }
    hide PartnerOf, Drained;
  }

  /** Epochs whole turns of the schedule apart share their partner. */
  lemma SamePartner(partners: seq<nat>, e: nat, k: nat)
    requires 0 < |partners| <= RecursiveDoubling.MAX_ROUNDS
    ensures PartnerOf(partners, e + |partners| * k) == PartnerOf(partners, e)
  {
    if |partners| == 1 { } else if |partners| == 2 { assert (e + 2 * k) % 2 == e % 2; }
    else if |partners| == 3 { assert (e + 3 * k) % 3 == e % 3; }
    else { assert (e + 4 * k) % 4 == e % 4; }
  }

  /** Fewer than a whole turn apart, partners differ. */
  lemma PartnersOnce(partners: seq<nat>, world: nat, e: nat, f: nat)
    requires Schedule(partners, world) && e < f < e + |partners|
    ensures PartnerOf(partners, e) != PartnerOf(partners, f)
  {
    Residues.RowsApart(|partners|, e, f);
    var i, k := e % |partners|, f % |partners|;
    assert partners[i] != partners[k];
  }

  /** A whole turn below the next epoch its partner could owe, a line is at the newest. */
  lemma IsNewest(partners: seq<nat>, world: nat, from: nat, commits: nat -> nat, line: nat)
    requires Schedule(partners, world) && PartnerOf(partners, line) == PartnerOf(partners, from)
    requires from <= line <= Max(from, commits(PartnerOf(partners, from))) && commits(PartnerOf(partners, from)) < line + |partners|
    ensures NewestOf(partners, from, commits, line)
  {
    NoneBetween(partners, world, line);
  }

  lemma NoneBetween(partners: seq<nat>, world: nat, e: nat)
    requires Schedule(partners, world)
    ensures forall f :: e < f < e + |partners| ==> PartnerOf(partners, f) != PartnerOf(partners, e)
  {
    forall f | e < f < e + |partners| ensures PartnerOf(partners, f) != PartnerOf(partners, e) {
      PartnersOnce(partners, world, e, f);
    }
  }

  lemma NoneNewest()
    ensures forall posts: seq<Post>, retired: nat :: Newest(posts, retired, 0) == 0
  {
  }

  /** The schedule's entry for an epoch is whom the tree's round of that epoch meets. */
  lemma PartnerIsRound(rounds: nat, rank: RecursiveDoubling.RankId, e: nat)
    requires 0 < rounds <= RecursiveDoubling.MAX_ROUNDS
    ensures var ps: seq<nat> := seq(rounds, k requires 0 <= k < rounds => RecursiveDoubling.Partner(rank, k) as nat);
            PartnerOf(ps, e) == RecursiveDoubling.Partner(rank, RecursiveDoubling.RoundOf(rounds, e)) as nat
  {
  }
}
