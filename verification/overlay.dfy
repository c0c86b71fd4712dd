/**
 * The readiness join behind the video overlay of script.js: the video
 * plane is attached under the parent of the model's "Glass2" node by
 * createVideoPlaneOverlay, which runs from the model's load callback (when
 * the video texture already exists) and from the streaming client's
 * manifest-parsed callback (always). The native-playback path only builds
 * the texture and does not call it.
 */
module Overlay {
  /** A completion callback of the scene. */
  datatype Signal =
    | ModelLoaded(hasGlass2: bool)  // the model's load callback; whether it has a node named Glass2
    | ManifestParsed                // the streaming client parsed the manifest: texture built, then the overlay tried
    | NativeSourceSet               // the element plays the stream natively: texture built only

  /**
   * What the join looks at: whether the video texture and the model exist,
   * whether the model has the Glass2 anchor, and how many video planes have
   * been added to the anchor's parent.
   */
  datatype JoinState = JoinState(videoTexture: bool, model: bool, anchor: bool, attached: nat)

  /** Nothing loaded, nothing attached. */
  const Start: JoinState := JoinState(false, false, false, 0)

  /** Both inputs exist and the anchor was found: createVideoPlaneOverlay gets past its guards. */
  predicate Ready(st: JoinState)
  {
    st.videoTexture && st.model && st.anchor
  }

  /**
   * createVideoPlaneOverlay: one more plane when the texture, the model and
   * the anchor are all there, nothing otherwise.
   */
  function Attach(st: JoinState): (r: JoinState)
    ensures r.videoTexture == st.videoTexture && r.model == st.model && r.anchor == st.anchor
    ensures Ready(st) ==> r.attached == st.attached + 1
    ensures !Ready(st) ==> r == st
  {
    if !st.videoTexture || !st.model then st
    else if !st.anchor then st
    else st.(attached := st.attached + 1)
  }

  /** The effect of one completion callback. */
  function Deliver(st: JoinState, sig: Signal): (r: JoinState)
    // the model callback records the model and its anchor; both video paths record the texture
    ensures r.model == (st.model || sig.ModelLoaded?)
    ensures r.videoTexture == (st.videoTexture || VideoSignal(sig))
    ensures r.anchor == if sig.ModelLoaded? then sig.hasGlass2 else st.anchor
    ensures r.attached == st.attached || r.attached == st.attached + 1
    // exactly these two situations add a plane
    ensures r.attached == st.attached + 1 <==>
      (sig.ModelLoaded? && st.videoTexture && sig.hasGlass2) ||
      (sig.ManifestParsed? && st.model && st.anchor)
    // a plane is added only by the callback that completes the join ...
    ensures r.attached == st.attached + 1 ==> Ready(r) && !sig.NativeSourceSet?
    // ... and the callback that completes it adds one unless it is the native path
    ensures sig.ModelLoaded? && st.videoTexture && sig.hasGlass2 ==> r.attached == st.attached + 1
    ensures sig.ManifestParsed? && st.model && st.anchor ==> r.attached == st.attached + 1
    ensures sig.ModelLoaded? && !st.videoTexture ==> r.attached == st.attached
    ensures sig.ManifestParsed? && !st.model ==> r.attached == st.attached
  {
    match sig
    case ModelLoaded(glass2) =>
      var m := st.(model := true, anchor := glass2);
      if m.videoTexture then Attach(m) else m
    case ManifestParsed => Attach(st.(videoTexture := true))
    case NativeSourceSet => st.(videoTexture := true)
  }

  /** The state after the callbacks sigs, in order. */
  function DeliverAll(st: JoinState, sigs: seq<Signal>): JoinState
    decreases |sigs|
  {
    if sigs == [] then st else DeliverAll(Deliver(st, sigs[0]), sigs[1..])
  }

  /** Signals that build the video texture. */
  predicate VideoSignal(sig: Signal)
  {
    sig.ManifestParsed? || sig.NativeSourceSet?
  }

  /** The number of model callbacks among sigs. */
  function ModelSignals(sigs: seq<Signal>): nat
  {
    if sigs == [] then 0 else (if sigs[0].ModelLoaded? then 1 else 0) + ModelSignals(sigs[1..])
  }

  /** The number of texture-building callbacks among sigs. */
  function VideoSignals(sigs: seq<Signal>): nat
  {
    if sigs == [] then 0 else (if VideoSignal(sigs[0]) then 1 else 0) + VideoSignals(sigs[1..])
  }

  /**
   * When the model callback and the video texture each arrive at most once
   * (counting what already arrived before st), the callbacks still to come
   * add at most one plane.
   */
  lemma {:induction false} AtMostOneAttachment(st: JoinState, sigs: seq<Signal>)
    requires ModelSignals(sigs) + (if st.model then 1 else 0) <= 1
    requires VideoSignals(sigs) + (if st.videoTexture then 1 else 0) <= 1
    ensures DeliverAll(st, sigs).attached <= st.attached + (if st.model && st.videoTexture then 0 else 1)
    decreases |sigs|
  {
    if sigs != [] {
      var next := Deliver(st, sigs[0]);
      assert next.model == (st.model || sigs[0].ModelLoaded?);
      assert next.videoTexture == (st.videoTexture || VideoSignal(sigs[0]));
      AtMostOneAttachment(next, sigs[1..]);
    }
  }

  /** From the start, with each callback firing at most once, at most one plane is ever attached. */
  lemma AttachedAtMostOnce(sigs: seq<Signal>)
    requires ModelSignals(sigs) <= 1 && VideoSignals(sigs) <= 1
    ensures DeliverAll(Start, sigs).attached <= 1
  {
    AtMostOneAttachment(Start, sigs);
  }

  /**
   * A model without Glass2 never gets a plane: as long as no model with
   * the anchor arrives, nothing is attached, whatever else happens.
   */
  lemma {:induction false} NoAnchorNoOverlay(st: JoinState, sigs: seq<Signal>)
    requires !st.anchor
    requires forall i :: 0 <= i < |sigs| ==> sigs[i] != ModelLoaded(true)
    ensures DeliverAll(st, sigs).attached == st.attached
    decreases |sigs|
  {
    if sigs != [] {
      NoAnchorNoOverlay(Deliver(st, sigs[0]), sigs[1..]);
    }
  }

  /** Without a model, or without a video texture, nothing is attached. */
  lemma {:induction false} NothingBeforeBoth(st: JoinState, sigs: seq<Signal>)
    requires (!st.model && ModelSignals(sigs) == 0) || (!st.videoTexture && VideoSignals(sigs) == 0)
    ensures DeliverAll(st, sigs).attached == st.attached
    decreases |sigs|
  {
    if sigs != [] {
      NothingBeforeBoth(Deliver(st, sigs[0]), sigs[1..]);
    }
  }

  /**
   * The two orders in which the streaming path can complete: either way
   * there is nothing after the first callback and exactly one plane (when
   * Glass2 exists) after the second.
   */
  lemma StreamingEitherOrder(hasGlass2: bool)
    ensures DeliverAll(Start, [ModelLoaded(hasGlass2)]).attached == 0
    ensures DeliverAll(Start, [ManifestParsed]).attached == 0
    ensures DeliverAll(Start, [ModelLoaded(hasGlass2), ManifestParsed]).attached == if hasGlass2 then 1 else 0
    ensures DeliverAll(Start, [ManifestParsed, ModelLoaded(hasGlass2)]).attached == if hasGlass2 then 1 else 0
  {
  }

  /**
   * The native path sets the texture synchronously during start-up, so it
   * always precedes the model callback, which then attaches the plane. Had
   * it come after the model, nothing would ever be attached, since this
   * path does not call createVideoPlaneOverlay.
   */
  lemma NativeOrder(hasGlass2: bool)
    ensures DeliverAll(Start, [NativeSourceSet, ModelLoaded(hasGlass2)]).attached == if hasGlass2 then 1 else 0
    ensures DeliverAll(Start, [ModelLoaded(hasGlass2), NativeSourceSet]).attached == 0
  {
    var textured := Deliver(Start, NativeSourceSet);
    assert [NativeSourceSet, ModelLoaded(hasGlass2)][1..] == [ModelLoaded(hasGlass2)];
    assert DeliverAll(textured, [ModelLoaded(hasGlass2)]) == Deliver(textured, ModelLoaded(hasGlass2));
    var loaded := Deliver(Start, ModelLoaded(hasGlass2));
    assert [ModelLoaded(hasGlass2), NativeSourceSet][1..] == [NativeSourceSet];
    assert DeliverAll(loaded, [NativeSourceSet]) == Deliver(loaded, NativeSourceSet);
  }

  /**
   * createVideoPlaneOverlay keeps no record of an earlier attachment: a
   * second manifest-parsed callback would add a second plane.
   */
  lemma RepeatedManifestAttachesAgain()
    ensures DeliverAll(Start, [ModelLoaded(true), ManifestParsed, ManifestParsed]).attached == 2
  {
  }

  /**
   * Once the join is complete, every further manifest-parsed callback adds
   * one more plane: nothing in createVideoPlaneOverlay stops a repeat.
   */
  lemma {:induction false} EachManifestAfterJoinAttaches(st: JoinState, sigs: seq<Signal>)
    requires Ready(st)
    requires forall i :: 0 <= i < |sigs| ==> sigs[i] == ManifestParsed
    ensures DeliverAll(st, sigs).attached == st.attached + |sigs|
    decreases |sigs|
  {
    if sigs != [] {
      EachManifestAfterJoinAttaches(Deliver(st, sigs[0]), sigs[1..]);
    }
  }

  /** The scene's globals that the join reads and the planes it adds, updated by the callbacks. */
  class Viewer {
    var videoTexture: bool
    var model: bool
    var anchor: bool
    var attached: nat

    function State(): JoinState
      reads this
    {
      JoinState(videoTexture, model, anchor, attached)
    }

    constructor ()
      ensures State() == Start
    {
      videoTexture, model, anchor, attached := false, false, false, 0;
    }

    /** createVideoPlaneOverlay, leaving out the plane's geometry and placement. */
    method CreateVideoPlaneOverlay()
      modifies this
      ensures State() == Attach(old(State()))
    {
      if !videoTexture || !model {
        return;
      }
      if !anchor {
        return;
      }
      attached := attached + 1;
    }

    /** The model's load callback; hasGlass2 says whether the model has a node named Glass2. */
    method OnModelLoaded(hasGlass2: bool)
      modifies this
      ensures State() == Deliver(old(State()), ModelLoaded(hasGlass2))
    {
      model := true;
      anchor := hasGlass2;
      if videoTexture {
        CreateVideoPlaneOverlay();
      }
    }

    /** The streaming client's manifest-parsed callback. */
    method OnManifestParsed()
      modifies this
      ensures State() == Deliver(old(State()), ManifestParsed)
    {
      videoTexture := true;
      CreateVideoPlaneOverlay();
    }

    /** The native-playback branch of createVideoTexture. */
    method SetNativeSource()
      modifies this
      ensures State() == Deliver(old(State()), NativeSourceSet)
    {
      videoTexture := true;
    }
  }
}
