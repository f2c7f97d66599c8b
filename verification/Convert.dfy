// The resumable artifact writer on a disk that may lose power between any two writes: whatever
// was interrupted, running the same conversion again ends in the same files.

module Convert {
  import opened Wrappers
  import Residues

  // ------------------------------------------------------------------ what is written

  type Blob = nat
  type Name = nat
  type Json = nat

  /** One output directory: the whole artifact, or one rank's shard of it. */
  datatype Dir = Whole | Shard(rank: nat)

  /** File n is layer n; the trunk top comes after the last layer. */
  datatype Path =
    | Tensors(dir: Dir, file: nat)
    | Temp(dir: Dir, file: nat)
    | Config(dir: Dir)
    | RootConfig
    | ManifestOf(dir: Dir)

  /** Which file each tensor lives in, and the rank's band of experts. */
  datatype Manifest = Manifest(band: Option<(nat, nat)>, files: map<(nat, Name), nat>)

  datatype Content = Torn | Data(blob: Blob) | Text(json: Json) | Listing(manifest: Manifest)

  /** The same arguments and the same bundle: what every file's content is. */
  datatype Job = Job(layers: nat, blob: (Dir, nat) -> Blob, names: Blob -> set<Name>, config: Json)

  function Top(j: Job): nat { j.layers }

  function Linked(j: Job, d: Dir, f: nat): map<(nat, Name), nat> {
    map n | n in j.names(j.blob(d, f)) :: (f, n) := f
  }

  /** The manifest entries of layers 0..n-1. */
  function LinkedBelow(j: Job, d: Dir, n: nat): map<(nat, Name), nat> {
    if n == 0 then map[] else LinkedBelow(j, d, n - 1) + Linked(j, d, n - 1)
  }

  // ------------------------------------------------------------------ a disk that may lose power

  /** `left` writes remain before the power fails; after that nothing changes any more. */
  datatype Disk = Disk(files: map<Path, Content>, left: nat, crashed: bool)

  function Put(d: Disk, p: Path, c: Content): Disk {
    if d.crashed then d
    else if d.left == 0 then d.(crashed := true)
    else d.(files := d.files[p := c], left := d.left - 1)
  }

  /** A plain write is seen half done. */
  function Write(d: Disk, p: Path, c: Content): Disk {
    Put(Put(d, p, Torn), p, c)
  }

  /** A rename is all or nothing. */
  function Rename(d: Disk, from: Path, to: Path): Disk {
    if d.crashed || from !in d.files then d
    else if d.left == 0 then d.(crashed := true)
    else d.(files := (d.files - {from})[to := d.files[from]], left := d.left - 1)
  }

  /** Write a tensor file unless it is already there: serialize to the side, then rename. */
  function EnsureTensors(j: Job, d: Disk, dir: Dir, f: nat): Disk {
    if d.crashed || Tensors(dir, f) in d.files then d
    else Rename(Write(d, Temp(dir, f), Data(j.blob(dir, f))), Temp(dir, f), Tensors(dir, f))
  }

  /** The entries of a file as the converter reads them back from its tensor names. */
  function NamesOf(j: Job, d: Disk, dir: Dir, f: nat): map<(nat, Name), nat> {
    if Tensors(dir, f) in d.files && d.files[Tensors(dir, f)].Data?
    then map n | n in j.names(d.files[Tensors(dir, f)].blob) :: (f, n) := f
    else map[]
  }

  // ------------------------------------------------------------------ what every crash leaves

  ghost predicate OurDir(world: nat, dir: Dir) {
    if world == 0 then dir == Whole else dir.Shard? && dir.rank < world
  }

  /** A recoverable disk: final tensor files are complete and right, a side file only stands in
      for a final one that is missing, and there is nothing else but configs and manifests. */
  ghost predicate FileOk(j: Job, world: nat, files: map<Path, Content>, p: Path)
    requires p in files
  {
    match p
    case Tensors(dir, f) => OurDir(world, dir) && f <= j.layers && files[p] == Data(j.blob(dir, f))
    case Temp(dir, f) => OurDir(world, dir) && f <= j.layers && Tensors(dir, f) !in files
    case Config(dir) => OurDir(world, dir) && (files[p] == Torn || files[p] == Text(j.config))
    case RootConfig => world > 0 && (files[p] == Torn || files[p] == Text(j.config))
    case ManifestOf(dir) => OurDir(world, dir)
  }

  ghost predicate Recoverable(j: Job, world: nat, files: map<Path, Content>) {
    forall p :: p in files ==> FileOk(j, world, files, p)
  }

  lemma PutRecoverable(j: Job, world: nat, d: Disk, p: Path, c: Content)
    requires Recoverable(j, world, d.files)
    requires match p
             case Temp(dir, f) => OurDir(world, dir) && f <= j.layers && Tensors(dir, f) !in d.files
             case Config(dir) => OurDir(world, dir) && (c == Torn || c == Text(j.config))
             case RootConfig => world > 0 && (c == Torn || c == Text(j.config))
             case ManifestOf(dir) => OurDir(world, dir)
             case Tensors(_, _) => false
    ensures Recoverable(j, world, Put(d, p, c).files)
  {
    forall q | q in Put(d, p, c).files ensures FileOk(j, world, Put(d, p, c).files, q) {
      assert q in d.files ==> FileOk(j, world, d.files, q);
    }
  }

  /** However far an ensured write gets, the final file is either absent or complete. */
  lemma EnsureRecoverable(j: Job, world: nat, d: Disk, dir: Dir, f: nat)
    requires Recoverable(j, world, d.files) && OurDir(world, dir) && f <= j.layers
    ensures var r := EnsureTensors(j, d, dir, f);
            && Recoverable(j, world, r.files)
            && (!r.crashed ==> Tensors(dir, f) in r.files && Temp(dir, f) !in r.files)
            && (forall p :: p != Tensors(dir, f) && p != Temp(dir, f) ==>
                  (p in r.files <==> p in d.files) && (p in d.files ==> r.files[p] == d.files[p]))
            && (d.crashed ==> r == d)
  {
    if !d.crashed && Tensors(dir, f) !in d.files {
      var t, c := Temp(dir, f), Data(j.blob(dir, f));
      var d1 := Put(d, t, Torn);
      PutRecoverable(j, world, d, t, Torn);
      PutRecoverable(j, world, d1, t, c);
      var d2 := Put(d1, t, c);
      var r := Rename(d2, t, Tensors(dir, f));
      if !d2.crashed && d2.left > 0 {
        forall q | q in r.files ensures FileOk(j, world, r.files, q) {
          assert q in d2.files ==> FileOk(j, world, d2.files, q);
        }
      }
    } else if !d.crashed {
      assert FileOk(j, world, d.files, Tensors(dir, f));
      assert Temp(dir, f) in d.files ==> FileOk(j, world, d.files, Temp(dir, f));
    }
  }

  lemma WriteRecoverable(j: Job, world: nat, d: Disk, p: Path, c: Content)
    requires Recoverable(j, world, d.files)
    requires match p
             case Config(dir) => OurDir(world, dir) && c == Text(j.config)
             case RootConfig => world > 0 && c == Text(j.config)
             case ManifestOf(dir) => OurDir(world, dir)
             case _ => false
    ensures var r := Write(d, p, c);
            && Recoverable(j, world, r.files)
            && (!r.crashed ==> p in r.files && r.files[p] == c)
            && (forall q :: q != p ==> (q in r.files <==> q in d.files) && (q in d.files ==> r.files[q] == d.files[q]))
            && (d.crashed ==> r == d)
  {
    PutRecoverable(j, world, d, p, Torn);
    PutRecoverable(j, world, Put(d, p, Torn), p, c);
  }

  // ------------------------------------------------------------------ the finished artifact

  function Band(experts: nat, world: nat, dir: Dir): Option<(nat, nat)>
    requires dir.Shard? ==> world > 0
  {
    match dir
    case Whole => None
    case Shard(r) => Some((r * (experts / world), experts / world))
  }

  /** Everything a finished directory lists: the trunk top and the layers below n. */
  function Listed(j: Job, d: Dir, n: nat): map<(nat, Name), nat> {
    Linked(j, d, Top(j)) + LinkedBelow(j, d, n)
  }

  ghost predicate IsGoal(j: Job, world: nat, p: Path) {
    match p
    case Tensors(dir, f) => OurDir(world, dir) && f <= j.layers
    case Temp(_, _) => false
    case Config(dir) => OurDir(world, dir)
    case RootConfig => world > 0
    case ManifestOf(dir) => OurDir(world, dir)
  }

  ghost function GoalContent(j: Job, experts: nat, world: nat, p: Path): Content
    requires IsGoal(j, world, p)
  {
    match p
    case Tensors(dir, f) => Data(j.blob(dir, f))
    case Config(_) => Text(j.config)
    case RootConfig => Text(j.config)
    case ManifestOf(dir) => Listing(Manifest(Band(experts, world, dir), Listed(j, dir, j.layers)))
  }

  ghost predicate Finished(j: Job, experts: nat, world: nat, files: map<Path, Content>) {
    && (forall p :: p in files <==> IsGoal(j, world, p))
    && (forall p :: p in files ==> files[p] == GoalContent(j, experts, world, p))
  }

  /** There is only one finished disk: same files, same contents, nothing left over. */
  lemma FinishedUnique(j: Job, experts: nat, world: nat, a: map<Path, Content>, b: map<Path, Content>)
    requires Finished(j, experts, world, a) && Finished(j, experts, world, b)
    ensures a == b
  {
    assert forall p :: p in a <==> p in b;
  }

  /** With every goal file in place a recoverable disk has no room for anything else. */
  lemma NothingLeftOver(j: Job, experts: nat, world: nat, files: map<Path, Content>)
    requires Recoverable(j, world, files)
    requires forall p :: IsGoal(j, world, p) ==> p in files && (!p.Tensors? ==> files[p] == GoalContent(j, experts, world, p))
    ensures Finished(j, experts, world, files)
  {
    forall dir: Dir, f: nat | OurDir(world, dir) && f <= j.layers ensures Temp(dir, f) !in files {
      assert IsGoal(j, world, Tensors(dir, f));
      assert Temp(dir, f) in files ==> FileOk(j, world, files, Temp(dir, f));
    }
    forall p | p in files ensures IsGoal(j, world, p) {
      assert FileOk(j, world, files, p);
    }
  }

  lemma {:induction false} LinkedBelowKeys(j: Job, d: Dir, n: nat)
    ensures forall k :: k in LinkedBelow(j, d, n) ==> k.0 < n
  {
    if n > 0 {
      LinkedBelowKeys(j, d, n - 1);
    }
  }

  ghost predicate InDir(p: Path, dir: Dir) {
    match p
    case Tensors(d, _) => d == dir
    case Temp(d, _) => d == dir
    case Config(d) => d == dir
    case RootConfig => false
    case ManifestOf(d) => d == dir
  }

  /** Rank r's directory is complete for layers below n. */
  ghost predicate Started(j: Job, experts: nat, world: nat, files: map<Path, Content>, r: nat, n: nat) {
    var dir := Shard(r);
    && world > 0
    && Config(dir) in files && files[Config(dir)] == Text(j.config)
    && Tensors(dir, Top(j)) in files && (forall f :: 0 <= f < n ==> Tensors(dir, f) in files)
    && ManifestOf(dir) in files
    && files[ManifestOf(dir)] == Listing(Manifest(Band(experts, world, dir), Listed(j, dir, n)))
  }

  /** Ranks below `r` are complete for layers below n + 1, the others for layers below n. */
  ghost predicate StartedBy(j: Job, experts: nat, world: nat, files: map<Path, Content>, q: nat, r: nat, n: nat) {
    Started(j, experts, world, files, q, if q < r then n + 1 else n)
  }

  ghost predicate MidLayer(j: Job, experts: nat, world: nat, files: map<Path, Content>, r: nat, n: nat) {
    forall q :: 0 <= q < world ==> StartedBy(j, experts, world, files, q, r, n)
  }

  ghost predicate KeepsOutside(files: map<Path, Content>, files': map<Path, Content>, r: nat) {
    forall p :: p in files && !InDir(p, Shard(r)) ==> p in files' && files'[p] == files[p]
  }

  lemma StartedFrame(j: Job, experts: nat, world: nat, files: map<Path, Content>, files': map<Path, Content>, q: nat, r: nat, n: nat)
    requires Started(j, experts, world, files, q, n) && KeepsOutside(files, files', r) && q != r
    ensures Started(j, experts, world, files', q, n)
  {
  }

  // ------------------------------------------------------------------ the converter

  class Converter {
    const j: Job
    const experts: nat
    var disk: Disk

    constructor (j: Job, experts: nat, disk: Disk)
      ensures this.j == j && this.experts == experts && this.disk == disk
    {
      this.j, this.experts, this.disk := j, experts, disk;
    }

    /** Power is back: the files are what they were, and `writes` more writes will succeed. */
    method Restart(writes: nat)
      modifies this
      ensures disk == Disk(old(disk).files, writes, false)
    {
      disk := Disk(disk.files, writes, false);
    }

    /** Layer files 0..n-1 of a directory are in place. */
    ghost predicate LayersIn(dir: Dir, n: nat)
      reads this
    {
      forall f :: 0 <= f < n ==> Tensors(dir, f) in disk.files
    }

    method EnsureFile(world: nat, dir: Dir, f: nat)
      requires Recoverable(j, world, disk.files) && OurDir(world, dir) && f <= j.layers
      modifies this
      ensures disk == EnsureTensors(j, old(disk), dir, f) && Recoverable(j, world, disk.files)
      ensures !disk.crashed ==> !old(disk).crashed && Tensors(dir, f) in disk.files && NamesOf(j, disk, dir, f) == Linked(j, dir, f)
      ensures forall p :: p in old(disk).files && p != Temp(dir, f) ==> p in disk.files && disk.files[p] == old(disk).files[p]
    {
      EnsureRecoverable(j, world, disk, dir, f);
      disk := EnsureTensors(j, disk, dir, f);
      assert Tensors(dir, f) in disk.files ==> FileOk(j, world, disk.files, Tensors(dir, f));
    }

    method WriteText(world: nat, p: Path, c: Content)
      requires Recoverable(j, world, disk.files)
      requires match p
               case Config(dir) => OurDir(world, dir) && c == Text(j.config)
               case RootConfig => world > 0 && c == Text(j.config)
               case ManifestOf(dir) => OurDir(world, dir)
               case _ => false
      modifies this
      ensures Recoverable(j, world, disk.files)
      ensures !disk.crashed ==> !old(disk).crashed && p in disk.files && disk.files[p] == c
      ensures forall q :: q in old(disk).files && q != p ==> q in disk.files && disk.files[q] == old(disk).files[q]
    {
      WriteRecoverable(j, world, disk, p, c);
      disk := Write(disk, p, c);
    }

    /** Write every layer file that is missing and collect the manifest entries of all of them. */
    method WriteLayers() returns (files: map<(nat, Name), nat>)
      requires Recoverable(j, 0, disk.files)
      modifies this
      ensures Recoverable(j, 0, disk.files)
      ensures !disk.crashed ==> LayersIn(Whole, j.layers) && files == LinkedBelow(j, Whole, j.layers)
    {
      files := map[];
      var f := 0;
      hide Recoverable, NamesOf, Linked, EnsureTensors;
      while f < j.layers
        invariant 0 <= f <= j.layers && Recoverable(j, 0, disk.files)
        invariant !disk.crashed ==> LayersIn(Whole, f) && files == LinkedBelow(j, Whole, f)
      {
        EnsureFile(0, Whole, f);
        files := files + NamesOf(j, disk, Whole, f);
        f := f + 1;
      }
    }

    /** The whole artifact in one directory. */
    method WriteArtifact()
      requires Recoverable(j, 0, disk.files)
      modifies this
      ensures Recoverable(j, 0, disk.files)
      ensures !disk.crashed ==> Finished(j, experts, 0, disk.files)
    {
      hide Recoverable, NamesOf, EnsureTensors, LinkedBelow, Finished;
      var files := WriteLayers();
      EnsureFile(0, Whole, Top(j));
      ghost var below := files;
      files := files + NamesOf(j, disk, Whole, Top(j));
      if !disk.crashed {
        TopApart(j, Whole);
        assert files == Listed(j, Whole, j.layers);
      }
      WriteText(0, Config(Whole), Text(j.config));
      WriteText(0, ManifestOf(Whole), Listing(Manifest(None, files)));
      if !disk.crashed {
        hide Listed;
        NothingLeftOver(j, experts, 0, disk.files);
      }
    }

    // ---------------------------------------------------------------- per-rank shards

    /** Rank r's directory up to its manifest: config, trunk top, and the trunk's entries. */
    method StartShard(world: nat, r: nat)
      requires Recoverable(j, world, disk.files) && r < world
      modifies this
      ensures Recoverable(j, world, disk.files)
      ensures !disk.crashed ==> !old(disk).crashed && Started(j, experts, world, disk.files, r, 0)
      ensures KeepsOutside(old(disk).files, disk.files, r)
    {
      hide Recoverable, NamesOf, EnsureTensors;
      var dir := Shard(r);
      WriteText(world, Config(dir), Text(j.config));
      EnsureFile(world, dir, Top(j));
      var files := NamesOf(j, disk, dir, Top(j));
      assert !disk.crashed ==> files == Listed(j, dir, 0);
      WriteText(world, ManifestOf(dir), Listing(Manifest(Band(experts, world, dir), files)));
    }

    /** One layer of one rank: the file if it is missing, then its entries in the manifest. */
    method ShardLayer(world: nat, r: nat, n: nat)
      requires Recoverable(j, world, disk.files) && r < world && n < j.layers && (!disk.crashed ==> Started(j, experts, world, disk.files, r, n))
      modifies this
      ensures Recoverable(j, world, disk.files)
      ensures !disk.crashed ==> !old(disk).crashed && Started(j, experts, world, disk.files, r, n + 1)
      ensures KeepsOutside(old(disk).files, disk.files, r)
    {
      hide Recoverable, NamesOf, EnsureTensors, Listed;
      var dir := Shard(r);
      EnsureFile(world, dir, n);
      if !disk.crashed {
        var mf := disk.files[ManifestOf(dir)].manifest;
        ListedNext(j, dir, n);
        WriteText(world, ManifestOf(dir), Listing(mf.(files := mf.files + NamesOf(j, disk, dir, n))));
      }
    }

    method StartShards(world: nat)
      requires Recoverable(j, world, disk.files) && world > 0
      modifies this
      ensures Recoverable(j, world, disk.files)
      ensures !disk.crashed ==> RootDone() && MidLayer(j, experts, world, disk.files, 0, 0)
    {
      hide Recoverable, Listed, Linked;
      WriteText(world, RootConfig, Text(j.config));
      var r := 0;
      while r < world
        invariant 0 <= r <= world && Recoverable(j, world, disk.files)
        invariant !disk.crashed ==> RootDone() && forall q :: 0 <= q < r ==> Started(j, experts, world, disk.files, q, 0)
      {
        ghost var before := disk.files;
        StartShard(world, r);
        if !disk.crashed {
          forall q | 0 <= q < r ensures Started(j, experts, world, disk.files, q, 0) {
            StartedFrame(j, experts, world, before, disk.files, q, r, 0);
          }
        }
        r := r + 1;
      }
    }

    ghost predicate RootDone()
      reads this
    {
      RootConfig in disk.files && disk.files[RootConfig] == Text(j.config)
    }

    method ShardLayers(world: nat, n: nat)
      requires Recoverable(j, world, disk.files) && world > 0 && n < j.layers
      requires !disk.crashed ==> RootDone() && MidLayer(j, experts, world, disk.files, 0, n)
      modifies this
      ensures Recoverable(j, world, disk.files)
      ensures !disk.crashed ==> RootDone() && MidLayer(j, experts, world, disk.files, 0, n + 1)
    {
      hide Recoverable, Listed, Linked, Started;
      var r := 0;
      while r < world
        invariant 0 <= r <= world && Recoverable(j, world, disk.files)
        invariant !disk.crashed ==> RootDone() && MidLayer(j, experts, world, disk.files, r, n)
      {
        ghost var before := disk.files;
        assert !disk.crashed ==> StartedBy(j, experts, world, before, r, r, n);
        ShardLayer(world, r, n);
        if !disk.crashed {
          ghost var next := r + 1;
          forall q | 0 <= q < world ensures StartedBy(j, experts, world, disk.files, q, next, n) {
            if q != r {
              assert StartedBy(j, experts, world, before, q, r, n);
              StartedFrame(j, experts, world, before, disk.files, q, r, if q < r then n + 1 else n);
            }
          }
        }
        r := r + 1;
      }
      if !disk.crashed {
        NextLayer(world, n);
      }
    }

    /** Every rank's self-contained shard. */
    method WriteSharded(world: nat)
      requires Recoverable(j, world, disk.files) && world > 0
      modifies this
      ensures Recoverable(j, world, disk.files)
      ensures !disk.crashed ==> Finished(j, experts, world, disk.files)
    {
      hide Recoverable, Listed, Linked, Finished;
      StartShards(world);
      var n := 0;
      while n < j.layers
        invariant 0 <= n <= j.layers && Recoverable(j, world, disk.files)
        invariant !disk.crashed ==> RootDone() && MidLayer(j, experts, world, disk.files, 0, n)
      {
        ShardLayers(world, n);
        n := n + 1;
      }
      if !disk.crashed {
        ShardsDone(world);
      }
    }

    lemma NextLayer(world: nat, n: nat)
      requires MidLayer(j, experts, world, disk.files, world, n)
      ensures MidLayer(j, experts, world, disk.files, 0, n + 1)
    {
      var next := n + 1;
      forall q | 0 <= q < world ensures StartedBy(j, experts, world, disk.files, q, 0, next) {
        assert StartedBy(j, experts, world, disk.files, q, world, n);
      }
    }

    lemma ShardsDone(world: nat)
      requires Recoverable(j, world, disk.files) && world > 0 && RootDone() && MidLayer(j, experts, world, disk.files, 0, j.layers)
      ensures Finished(j, experts, world, disk.files)
    {
      hide Recoverable, Listed, Linked, Finished;
      forall p | IsGoal(j, world, p)
        ensures p in disk.files && (!p.Tensors? ==> disk.files[p] == GoalContent(j, experts, world, p))
      {
        if !p.RootConfig? {
          assert StartedBy(j, experts, world, disk.files, p.dir.rank, 0, j.layers);
        }
      }
      NothingLeftOver(j, experts, world, disk.files);
    }

    // ---------------------------------------------------------------- crashes

    /** However often the power fails, and wherever: once one run gets through, the disk is the
        one an uninterrupted run would have left. */
    method ConvertThroughCrashes(world: nat, budgets: seq<nat>)
      requires disk.files == map[]
      modifies this
      ensures Recoverable(j, world, disk.files)
      ensures budgets != [] && !disk.crashed ==> Finished(j, experts, world, disk.files)
    {
      var k := 0;
      hide Finished;
      assert Recoverable(j, world, disk.files);
      hide Recoverable;
      while k < |budgets|
        invariant 0 <= k <= |budgets| && Recoverable(j, world, disk.files)
        invariant k > 0 && !disk.crashed ==> Finished(j, experts, world, disk.files)
      {
        Restart(budgets[k]);
        if world == 0 {
          WriteArtifact();
        } else {
          WriteSharded(world);
        }
        k := k + 1;
      }
    }
  }

  /** Layer keys and trunk keys never collide, so the order of linking does not matter. */
  lemma TopApart(j: Job, d: Dir)
    ensures LinkedBelow(j, d, j.layers) + Linked(j, d, Top(j)) == Listed(j, d, j.layers)
  {
    LinkedBelowKeys(j, d, j.layers);
  }

  lemma ListedNext(j: Job, d: Dir, n: nat)
    requires n < j.layers
    ensures Listed(j, d, n) + Linked(j, d, n) == Listed(j, d, n + 1)
  {
  }

  // ------------------------------------------------------------------ expert bands

  /** A rank's slice of a bank that stores `per` cells for each expert in order. */
  function Slice(bank: seq<int>, per: nat, base: nat, span: nat): seq<int>
    requires (base + span) * per <= |bank|
    requires base * per <= (base + span) * per
  {
    bank[base * per..(base + span) * per]
  }

  lemma BandFits(per: nat, world: nat, span: nat, r: nat)
    requires r < world
    ensures 0 <= r * span * per <= (r * span + span) * per <= world * span * per
  {
    assert (r + 1) * span <= world * span;
    assert r * span + span == (r + 1) * span;
    MulLe((r + 1) * span, world * span, per);
    MulLe(r * span, (r + 1) * span, per);
  }

  lemma MulLe(a: nat, b: nat, c: nat)
    requires a <= b
    ensures a * c <= b * c
  {
  }

  /** All ranks' slices, one after the other. */
  function Bands(bank: seq<int>, per: nat, world: nat, span: nat, n: nat): seq<int>
    requires n <= world && |bank| == world * span * per
  {
    if n == 0 then []
    else
      BandFits(per, world, span, n - 1);
      Bands(bank, per, world, span, n - 1) + Slice(bank, per, (n - 1) * span, span)
  }

  /** The rank bands put together are the whole bank: every expert is in exactly one shard. */
  lemma {:induction false} BandsTile(bank: seq<int>, per: nat, world: nat, span: nat, n: nat)
    requires n <= world && |bank| == world * span * per
    ensures n * span * per <= |bank| && Bands(bank, per, world, span, n) == bank[..n * span * per]
  {
    if n == 0 {
      assert 0 * span * per == 0;
    } else {
      BandsTile(bank, per, world, span, n - 1);
      BandFits(per, world, span, n - 1);
      var lo, hi := (n - 1) * span * per, ((n - 1) * span + span) * per;
      assert (n - 1) * span + span == n * span;
      assert bank[..lo] + bank[lo..hi] == bank[..hi];
    }
  }

  lemma EveryExpertOnce(experts: nat, world: nat, e: nat)
    requires world > 0 && experts % world == 0 && e < experts
    ensures experts / world > 0
    ensures var span := experts / world;
            && e / span < world && e / span * span <= e < e / span * span + span
            && forall r: nat :: r < world && r * span <= e < r * span + span ==> r == e / span
  {
    var span := experts / world;
    assert experts == span * world;
    assert span > 0;
    OwnBand(span, e);
    var q := e / span;
    if q >= world {
      MulLe(world, q, span);
    }
    forall r: nat | r < world && r * span <= e < r * span + span ensures r == q {
      assert (r - q) * span == r * span - q * span;
      Residues.NoGap(r - q, span, r * span - q * span);
    }
  }

  lemma OwnBand(span: nat, e: nat)
    requires span > 0
    ensures e / span * span <= e < e / span * span + span
  {
    assert e == e / span * span + e % span;
  }

  // ------------------------------------------------------------------ what the manifests say

  /** Rank r's manifest is there and names a band of experts. */
  ghost predicate HasBand(files: map<Path, Content>, r: nat) {
    var p := ManifestOf(Shard(r));
    p in files && files[p].Listing? && files[p].manifest.band.Some?
  }

  /** First expert and number of experts of that band. */
  ghost function BandOf(files: map<Path, Content>, r: nat): (nat, nat)
    requires HasBand(files, r)
  {
    files[ManifestOf(Shard(r))].manifest.band.value
  }

  ghost predicate Names(files: map<Path, Content>, r: nat, e: nat)
    requires HasBand(files, r)
  {
    BandOf(files, r).0 <= e < BandOf(files, r).0 + BandOf(files, r).1
  }

  lemma FinishedBand(j: Job, experts: nat, world: nat, files: map<Path, Content>, r: nat)
    requires Finished(j, experts, world, files) && r < world
    ensures HasBand(files, r) && BandOf(files, r) == (r * (experts / world), experts / world)
  {
    assert IsGoal(j, world, ManifestOf(Shard(r)));
  }

  /** On a finished disk every expert is named by exactly one rank's manifest. */
  lemma ManifestsCoverExperts(j: Job, experts: nat, world: nat, files: map<Path, Content>, e: nat) returns (r: nat)
    requires Finished(j, experts, world, files) && world > 0 && experts % world == 0 && e < experts
    ensures forall q: nat :: q < world ==> HasBand(files, q)
    ensures r < world && forall q: nat :: q < world ==> (Names(files, q, e) <==> q == r)
  {
    hide Finished;
    EveryExpertOnce(experts, world, e);
    r := e / (experts / world);
    forall q: nat | q < world ensures HasBand(files, q) && (Names(files, q, e) <==> q == r) {
      FinishedBand(j, experts, world, files, q);
    }
  }

  /** The slices that the manifests of the first n ranks name, one after the other. */
  ghost function ListedSlices(files: map<Path, Content>, bank: seq<int>, per: nat, n: nat): seq<int>
    requires forall r: nat :: r < n ==> HasBand(files, r) && SliceFits(bank, per, BandOf(files, r))
  {
    if n == 0 then []
    else
      assert SliceFits(bank, per, BandOf(files, n - 1));
      ListedSlices(files, bank, per, n - 1) + Slice(bank, per, BandOf(files, n - 1).0, BandOf(files, n - 1).1)
  }

  ghost predicate SliceFits(bank: seq<int>, per: nat, band: (nat, nat)) {
    band.0 * per <= (band.0 + band.1) * per <= |bank|
  }

  /** On a finished disk the slices the manifests name put the whole bank together in rank order. */
  lemma ManifestsTileBank(j: Job, experts: nat, world: nat, files: map<Path, Content>, bank: seq<int>, per: nat)
    requires Finished(j, experts, world, files) && world > 0 && experts % world == 0 && |bank| == experts * per
    ensures forall r: nat :: r < world ==> HasBand(files, r) && SliceFits(bank, per, BandOf(files, r))
    ensures ListedSlices(files, bank, per, world) == bank
  {
    hide Finished;
    var span := experts / world;
    assert experts == world * span;
    forall r: nat | r < world ensures HasBand(files, r) && BandOf(files, r) == (r * span, span) && SliceFits(bank, per, BandOf(files, r)) {
      FinishedBand(j, experts, world, files, r);
      BandFits(per, world, span, r);
    }
    SlicesAreBands(files, bank, per, world, span, world);
    BandsTile(bank, per, world, span, world);
    assert bank[..world * span * per] == bank;
  }

  lemma {:induction false} SlicesAreBands(files: map<Path, Content>, bank: seq<int>, per: nat, world: nat, span: nat, n: nat)
    requires n <= world && |bank| == world * span * per
    requires forall r: nat :: r < world ==> HasBand(files, r) && BandOf(files, r) == (r * span, span) && SliceFits(bank, per, BandOf(files, r))
    ensures ListedSlices(files, bank, per, n) == Bands(bank, per, world, span, n)
    decreases n
  {
    if n > 0 {
      SlicesAreBands(files, bank, per, world, span, n - 1);
      hide HasBand, BandOf, SliceFits, Slice;
      BandFits(per, world, span, n - 1);
    }
  }

  /** A directory's manifest lists exactly the tensors of its files, each under the file that has it. */
  lemma ManifestPointsRight(j: Job, experts: nat, world: nat, files: map<Path, Content>, dir: Dir, f: nat, n: Name)
    requires Finished(j, experts, world, files) && OurDir(world, dir)
    ensures ManifestOf(dir) in files && files[ManifestOf(dir)].Listing?
    ensures var listed := files[ManifestOf(dir)].manifest.files;
            && ((f, n) in listed <==> Tensors(dir, f) in files && files[Tensors(dir, f)].Data? && n in j.names(files[Tensors(dir, f)].blob))
            && ((f, n) in listed ==> listed[(f, n)] == f)
  {
    assert IsGoal(j, world, ManifestOf(dir)) && (f <= j.layers ==> IsGoal(j, world, Tensors(dir, f)));
    BelowLists(j, dir, j.layers, f, n);
  }

  lemma {:induction false} BelowLists(j: Job, d: Dir, n: nat, f: nat, name: Name)
    ensures (f, name) in LinkedBelow(j, d, n) <==> f < n && name in j.names(j.blob(d, f))
    ensures (f, name) in LinkedBelow(j, d, n) ==> LinkedBelow(j, d, n)[(f, name)] == f
    decreases n
  {
    if n > 0 {
      BelowLists(j, d, n - 1, f, name);
    }
  }
}
