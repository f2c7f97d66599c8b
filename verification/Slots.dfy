// The scheduler's state: lanes, physical slots with their caches and checkpoints, and one
// prefill cursor, over the device cells they name.

module Slots {
  import opened Wrappers
  import opened Trunk
  import opened Device
  import opened GreedyLane

  const RING_STRIDE: nat := 512
  const RING_K: nat := 16
  const PREFILL_CHUNK: nat := 8192
  const SPEC_HEADROOM: nat := MAX_AUTO_DEPTH + 8

  datatype Config = Config(maxBatch: nat, checkpoints: nat, kvStride: nat,
                           prefixCache: bool, gridReuse: bool, eos: set<Token>)

  // ------------------------------------------------------------------ cell layout

  /** Live cells first, then the verify checkpoints, the prompt band and the ring band. */
  function VerifyCell(cfg: Config): nat { cfg.maxBatch }

  function PromptCell(cfg: Config, p: nat): nat { cfg.maxBatch + cfg.checkpoints + p }

  function RingCell(cfg: Config, p: nat, j: nat): nat {
    cfg.maxBatch + cfg.checkpoints + cfg.maxBatch + p * RING_K + j
  }

  /** The prompt and ring bands exist only with the prefix cache on. */
  function CellCount(cfg: Config): nat {
    cfg.maxBatch + cfg.checkpoints + (if cfg.prefixCache then cfg.maxBatch + cfg.maxBatch * RING_K else 0)
  }

  // ------------------------------------------------------------------ state

  /** What the host remembers about one physical slot. A ring length of 0 marks an unused entry. */
  datatype Slot = Slot(cache: seq<Token>, prompt: seq<Token>, ringLen: seq<nat>, ringCursor: nat)

  datatype Arrival = Arrival(id: nat, req: Request, ckptAt: Option<nat>)

  datatype Lane = Lane(id: nat, req: Request, phys: nat, pos: nat, last: Token, generated: nat,
                       history: seq<Token>, schemaState: nat, sent: seq<Token>,
                       primed: bool, stale: bool, cancelled: bool)

  datatype Cursor = Cursor(id: nat, req: Request, phys: nat, reuse: nat, w0: nat,
                           ckptAt: Option<nat>, firstTok: Token, primed: bool)

  datatype Reason = Capacity | ContextLength | Length | Stop

  /** What a client saw of a request that is over: an answer, of a lane that may have been primed for
      speculation, or that it was turned away. */
  datatype Outcome =
    | Answer(id: nat, req: Request, sent: seq<Token>, reason: Reason, cancelled: bool, primed: bool)
    | Refusal(id: nat, reason: Reason)

  datatype Sched = Sched(lanes: seq<Lane>, free: seq<nat>, pf: Option<Cursor>, slots: seq<Slot>,
                         dev: Dev, outcomes: seq<Outcome>)

  /** The lane as a token stream. */
  function View(l: Lane, cache: seq<Token>, over: bool): Stream {
    Stream(cache, l.last, l.generated, l.history, l.schemaState, l.sent, over)
  }

  function Update(l: Lane, s: Stream, pos: nat): Lane {
    l.(pos := pos, last := s.last, generated := s.generated, history := s.history,
       schemaState := s.schemaState, sent := s.sent)
  }

  // ------------------------------------------------------------------ a slot's checkpoints

  ghost predicate ShapedSlot(sl: Slot) {
    |sl.ringLen| == RING_K && sl.ringCursor < RING_K
  }

  /** Distinct nonzero lengths. */
  ghost predicate DistinctLengths(ringLen: seq<nat>) {
    forall j, k :: 0 <= j < k < |ringLen| && ringLen[j] > 0 ==> ringLen[j] != ringLen[k]
  }

  ghost predicate InRing(cfg: Config, d: Dev, p: nat) {
    p < cfg.maxBatch && |d.cells| == CellCount(cfg) && cfg.maxBatch <= |d.kv|
  }

  /** Ring entry `j`, if used, is the cold state at a 512-multiple length of `agreed`. */
  ghost predicate RingEntryOk(net: Network, cfg: Config, d: Dev, p: nat, sl: Slot, agreed: seq<Token>, j: nat)
    requires InRing(cfg, d, p) && ShapedSlot(sl) && j < RING_K
  {
    sl.ringLen[j] > 0 ==>
      && cfg.prefixCache
      && sl.ringLen[j] <= |agreed|
      && sl.ringLen[j] % RING_STRIDE == 0
      && d.cells[RingCell(cfg, p, j)] == Fold(net, agreed[..sl.ringLen[j]]).gdn
  }

  ghost predicate RowsOk(net: Network, d: Dev, p: nat, agreed: seq<Token>)
    requires p < |d.kv|
  {
    |agreed| <= |d.kv[p]| && d.kv[p][..|agreed|] == Fold(net, agreed).rows
  }

  /** Everything a later request may reuse of slot `p` is what cold consumption of `agreed`
      leaves behind. Nothing is said about the slot's live state. */
  ghost predicate SlotOk(net: Network, cfg: Config, d: Dev, p: nat, sl: Slot, agreed: seq<Token>) {
    && InRing(cfg, d, p) && ShapedSlot(sl)
    && DistinctLengths(sl.ringLen)
    && (forall j :: 0 <= j < RING_K ==> RingEntryOk(net, cfg, d, p, sl, agreed, j))
    && RowsOk(net, d, p, agreed)
  }

  /** Slot `p` stands exactly after `toks`: a forward there sees the cold memory. */
  ghost predicate Live(net: Network, d: Dev, p: nat, toks: seq<Token>) {
    InPlane(d, p, |toks|) && MemAt(d, p, |toks|) == Fold(net, toks)
  }

  // ------------------------------------------------------------------ frames

  lemma RingCellBounds(cfg: Config, p: nat, j: nat)
    requires p < cfg.maxBatch && j < RING_K
    ensures cfg.maxBatch + cfg.checkpoints + cfg.maxBatch <= RingCell(cfg, p, j)
    ensures cfg.prefixCache ==> RingCell(cfg, p, j) < CellCount(cfg)
  {
    assert p + 1 <= cfg.maxBatch;
  }

  lemma RingCellsApart(cfg: Config, p: nat, j: nat, q: nat, k: nat)
    requires j < RING_K && k < RING_K && RingCell(cfg, p, j) == RingCell(cfg, q, k)
    ensures p == q && j == k
  {
    assert p * RING_K + j == q * RING_K + k;
    assert p < q ==> p + 1 <= q;
    assert q < p ==> q + 1 <= p;
  }

  /** A slot's checkpoints survive any device step that touches neither them nor its rows. */
  lemma SlotFrame(net: Network, cfg: Config, d: Dev, d': Dev, p: nat, sl: Slot, agreed: seq<Token>)
    requires SlotOk(net, cfg, d, p, sl, agreed)
    requires |d'.cells| == |d.cells| && |d'.kv| == |d.kv| && d'.kv[p] == d.kv[p]
    requires forall j :: 0 <= j < RING_K && cfg.prefixCache ==> d'.cells[RingCell(cfg, p, j)] == d.cells[RingCell(cfg, p, j)]
    ensures SlotOk(net, cfg, d', p, sl, agreed)
  {
    forall j | 0 <= j < RING_K ensures RingEntryOk(net, cfg, d', p, sl, agreed, j) {
      assert RingEntryOk(net, cfg, d, p, sl, agreed, j);
    }
  }

  /** Only the ring bookkeeping of the host's record matters. */
  lemma SameRing(net: Network, cfg: Config, d: Dev, p: nat, sl: Slot, sl': Slot, agreed: seq<Token>)
    requires SlotOk(net, cfg, d, p, sl, agreed) && sl'.ringLen == sl.ringLen && sl'.ringCursor == sl.ringCursor
    ensures SlotOk(net, cfg, d, p, sl', agreed)
  {
    forall j | 0 <= j < RING_K ensures RingEntryOk(net, cfg, d, p, sl', agreed, j) {
      assert RingEntryOk(net, cfg, d, p, sl, agreed, j);
    }
  }

  /** Consuming more tokens keeps every shorter checkpoint good. */
  lemma SlotExtends(net: Network, cfg: Config, d: Dev, d': Dev, p: nat, sl: Slot, agreed: seq<Token>, longer: seq<Token>)
    requires SlotOk(net, cfg, d, p, sl, agreed) && agreed <= longer
    requires |d'.cells| == |d.cells| && |d'.kv| == |d.kv|
    requires forall j :: 0 <= j < RING_K && cfg.prefixCache ==> d'.cells[RingCell(cfg, p, j)] == d.cells[RingCell(cfg, p, j)]
    requires Live(net, d', p, longer)
    ensures SlotOk(net, cfg, d', p, sl, longer)
  {
    forall j | 0 <= j < RING_K ensures RingEntryOk(net, cfg, d', p, sl, longer, j) {
      assert RingEntryOk(net, cfg, d, p, sl, agreed, j);
      if sl.ringLen[j] > 0 {
        assert longer[..sl.ringLen[j]] == agreed[..sl.ringLen[j]];
      }
    }
  }
}
