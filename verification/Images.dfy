// Image identities beside the token prefix: what the compatibility check of a reused prefix
// really establishes.

module Images {
  import opened Wrappers

  /** Where an image's token span starts, and a fingerprint of the embeddings spliced there. */
  datatype Image = Image(start: nat, hash: nat)

  /** The first image recorded at a position. */
  function At(images: seq<Image>, p: nat): Option<nat> {
    if images == [] then None
    else if images[0].start == p then Some(images[0].hash)
    else At(images[1..], p)
  }

  /** The visual content of the first `l` positions is the same. */
  ghost predicate SameContent(slot: seq<Image>, req: seq<Image>, l: nat) {
    forall p :: 0 <= p < l ==> At(slot, p) == At(req, p)
  }

  /** Every image of the request that starts inside the prefix is the slot's image there. */
  predicate Compatible(slot: seq<Image>, req: seq<Image>, l: nat) {
    forall i :: 0 <= i < |req| && req[i].start < l ==> At(slot, req[i].start) == Some(req[i].hash)
  }

  /** No image of the slot inside the prefix is missing from the request. */
  predicate SlotCovered(slot: seq<Image>, req: seq<Image>, l: nat) {
    forall i :: 0 <= i < |slot| && slot[i].start < l ==> At(req, slot[i].start).Some?
  }

  /** Spans do not share a start. */
  ghost predicate DistinctStarts(images: seq<Image>) {
    forall i, k :: 0 <= i < k < |images| ==> images[i].start != images[k].start
  }

  lemma {:induction false} AtIs(images: seq<Image>, p: nat)
    ensures At(images, p).None? <==> forall i :: 0 <= i < |images| ==> images[i].start != p
    ensures At(images, p).Some? ==> exists i :: 0 <= i < |images| && images[i] == Image(p, At(images, p).value)
    decreases |images|
  {
    if images != [] {
      AtIs(images[1..], p);
      if At(images, p).Some? && images[0].start != p {
        var i :| 0 <= i < |images[1..]| && images[1..][i] == Image(p, At(images, p).value);
        assert images[i + 1] == Image(p, At(images, p).value);
      } else if images[0].start == p {
        assert images[0] == Image(p, At(images, p).value);
      }
      assert forall i :: 0 < i < |images| ==> images[i] == images[1..][i - 1];
    }
  }

  lemma AtUnique(images: seq<Image>, i: nat)
    requires DistinctStarts(images) && i < |images|
    ensures At(images, images[i].start) == Some(images[i].hash)
  {
    AtIs(images, images[i].start);
  }

  /** The check is one-sided: it pins the prefix's visual content exactly when the request also
      has an image wherever the slot recorded one. */
  lemma CompatibleMeans(slot: seq<Image>, req: seq<Image>, l: nat)
    requires DistinctStarts(slot) && DistinctStarts(req)
    ensures SameContent(slot, req, l) <==> Compatible(slot, req, l) && SlotCovered(slot, req, l)
  {
    if SameContent(slot, req, l) {
      forall i | 0 <= i < |req| && req[i].start < l ensures At(slot, req[i].start) == Some(req[i].hash) {
        AtUnique(req, i);
        assert At(slot, req[i].start) == At(req, req[i].start);
      }
      forall i | 0 <= i < |slot| && slot[i].start < l ensures At(req, slot[i].start).Some? {
        AtUnique(slot, i);
        assert At(slot, slot[i].start) == At(req, slot[i].start);
      }
    }
    if Compatible(slot, req, l) && SlotCovered(slot, req, l) {
      forall p | 0 <= p < l ensures At(slot, p) == At(req, p) {
        AtIs(slot, p);
        AtIs(req, p);
        if At(slot, p).Some? {
          var i :| 0 <= i < |slot| && slot[i] == Image(p, At(slot, p).value);
          assert At(req, p).Some?;
        }
        if At(req, p).Some? {
          var i :| 0 <= i < |req| && req[i] == Image(p, At(req, p).value);
        }
      }
    }
  }

  /** A text-only request passes whatever images the slot's prefix was built from. */
  lemma TextOnlyAlwaysPasses(slot: seq<Image>, l: nat)
    ensures Compatible(slot, [], l)
    ensures SameContent(slot, [], l) <==> forall i :: 0 <= i < |slot| ==> slot[i].start >= l
  {
    forall p | 0 <= p < l ensures At(slot, p).None? <==> forall i :: 0 <= i < |slot| ==> slot[i].start != p {
      AtIs(slot, p);
    }
    if SameContent(slot, [], l) {
      forall i | 0 <= i < |slot| ensures slot[i].start >= l {
        assert slot[i].start < l ==> At(slot, slot[i].start) == At([], slot[i].start);
      }
    }
  }

  method ImagesCompatible(slot: seq<Image>, req: seq<Image>, l: nat) returns (ok: bool)
    ensures ok == Compatible(slot, req, l)
  {
    var i := 0;
    while i < |req|
      invariant 0 <= i <= |req|
      invariant forall k :: 0 <= k < i && req[k].start < l ==> At(slot, req[k].start) == Some(req[k].hash)
    {
      if req[i].start < l {
        var found := FindStart(slot, req[i].start);
        if found != Some(req[i].hash) {
          return false;
        }
      }
      i := i + 1;
    }
    ok := true;
  }

  method FindStart(images: seq<Image>, p: nat) returns (r: Option<nat>)
    ensures r == At(images, p)
  {
    var i := 0;
    assert images[0..] == images;
    while i < |images|
      invariant 0 <= i <= |images|
      invariant At(images, p) == At(images[i..], p)
    {
      if images[i].start == p {
        return Some(images[i].hash);
      }
      assert images[i..][1..] == images[i + 1..];
      i := i + 1;
    }
    r := None;
  }
}
