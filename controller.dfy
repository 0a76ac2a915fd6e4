/**
  The view controller (ViewController.swift): the coaching gate on incoming
  frames, and the closure that reacts to each delivered detection result by
  hiding, keeping or moving the bread marker.
*/
module Controller {
  import opened Wrappers
  import opened Geometry
  import opened Hysteresis
  import opened Detection

  /** The one completion the controller ever passes to `search`: the closure of the frame handler. */
  datatype Handler = FrameResultHandler

  /**
    The AR session's raycast: the world transforms of the surfaces hit by a
    ray through a point of the frame, nearest first; empty when nothing is hit.
  */
  type Raycast = (ARFrame, Point) -> seq<Float4x4>

  /** What the closure does with one delivered result. */
  datatype Reaction = MarkNotFound | KeepState | PlaceAndMarkFound(position: Vec3)

  /** The screen point the raycast goes through: the centre of the flipped box. */
  function RaycastPoint(rawBoundingBox: Rect): (p: Point)
    ensures p == Point(MidX(rawBoundingBox), 1.0 - MidY(rawBoundingBox))
  {
    FlippedCenter(rawBoundingBox);
    CenterPoint(FlippedCoordinates(rawBoundingBox))
  }

  /**
    The decision the closure makes: no result or not a cat means a miss; a
    cat the raycast cannot place changes nothing; a placed cat moves the
    marker to the translation of the first hit and counts as found.
  */
  function React(result: Option<ResultModel>, arFrame: ARFrame, raycast: Raycast): (re: Reaction)
    ensures re.MarkNotFound? <==> result.None? || !result.value.isCat
    ensures re.KeepState? <==>
      result.Some? && result.value.isCat && raycast(arFrame, RaycastPoint(result.value.rawBoundingBox)) == []
    ensures re.PlaceAndMarkFound? ==>
      re.position == TranslationOf(raycast(arFrame, RaycastPoint(result.value.rawBoundingBox))[0])
  {
    match result
    case None => MarkNotFound
    case Some(model) =>
      if !model.isCat then MarkNotFound
      else
        var hits := raycast(arFrame, RaycastPoint(model.rawBoundingBox));
        if hits == [] then KeepState else PlaceAndMarkFound(TranslationOf(hits[0]))
  }

  /** The marker's state after a reaction. */
  function ApplyReaction(re: Reaction, s: EntityState): (n: EntityState)
    ensures re.MarkNotFound? ==>
      && n.threshold == Step(s.threshold, Miss)
      && n.isEnabled == (if s.threshold > 0 then Visible(n.threshold) else s.isEnabled)
      && n.position == s.position
      && n.history == s.history + [Miss]
    ensures re.KeepState? ==> n == s
    ensures re.PlaceAndMarkFound? ==>
      && n.threshold == MaxThreshold
      && n.isEnabled
      && n.position == re.position
      && n.history == s.history + [Hit]
  {
    match re
    case MarkNotFound =>
      var t := Step(s.threshold, Miss);
      s.(threshold := t, isEnabled := if s.threshold > 0 then Visible(t) else s.isEnabled,
         history := s.history + [Miss])
    case KeepState => s
    case PlaceAndMarkFound(p) =>
      s.(threshold := MaxThreshold, isEnabled := true, position := p, history := s.history + [Hit])
  }

  /**
    A frame with another animal on top, "Dog" say, counts as a miss: the
    counter decays by the hysteresis rule and the marker stays where it is.
  */
  lemma DogFrameIsAMiss(confidence: real, box: Rect, arFrame: ARFrame, raycast: Raycast, s: EntityState)
    ensures var result := SelectResult(None, Some([RecognizedObject(ObjectObservation([ClassificationLabel("Dog", confidence)], box))]));
            var n := ApplyReaction(React(result, arFrame, raycast), s);
            React(result, arFrame, raycast) == MarkNotFound &&
            n.threshold == Step(s.threshold, Miss) && n.history == s.history + [Miss] &&
            n.position == s.position
  {
    DogIsNotCat(confidence, box);
  }

  /** A reaction keeps the marker's counter in range and its enabled flag tied to the counter. */
  lemma ApplyReactionKeepsInvariant(re: Reaction, s: EntityState)
    requires InRange(s.threshold) && s.isEnabled == Visible(s.threshold) && s.threshold == Run(0, s.history)
    ensures var n := ApplyReaction(re, s);
            InRange(n.threshold) && n.isEnabled == Visible(n.threshold) && n.threshold == Run(0, n.history)
  {
    var n := ApplyReaction(re, s);
    if n.history != s.history {
      assert n.history[..|n.history| - 1] == s.history;
    }
  }

  class ViewController {
    const viewModel: ViewModel<Handler>
    const breadEntity: EntityContainer
    var isARReady: bool

    ghost predicate Valid()
      reads this, viewModel, breadEntity
    {
      viewModel.Valid() && breadEntity.Valid()
    }

    /** A controller before any frame: detection allowed, nothing in process, marker hidden. */
    constructor ()
      ensures Valid() && isARReady
      ensures fresh(viewModel) && fresh(breadEntity)
      ensures viewModel.State() == Gate(None, None)
      ensures breadEntity.threshold == 0 && !breadEntity.isEnabled && breadEntity.history == []
    {
      viewModel := new ViewModel<Handler>();
      breadEntity := new EntityContainer();
      isARReady := true;
    }

    /** `coachingOverlayViewWillActivate`: frames are ignored from now on. */
    method CoachingOverlayViewWillActivate()
      requires Valid()
      modifies this
      ensures Valid() && !isARReady
    {
      isARReady := false;
    }

    /** `coachingOverlayViewDidDeactivate`: frames are searched again. */
    method CoachingOverlayViewDidDeactivate()
      requires Valid()
      modifies this
      ensures Valid() && isARReady
    {
      isARReady := true;
    }

    /**
      `session(_:didUpdate:)`: while coaching, the frame is ignored; otherwise
      it is offered to the busy gate with the result closure.
    */
    method SessionDidUpdate(frame: ARFrame) returns (dispatched: bool)
      requires Valid()
      modifies viewModel
      ensures Valid()
      ensures !isARReady ==> !dispatched && viewModel.State() == old(viewModel.State())
      ensures isARReady ==>
        (viewModel.State(), dispatched) == SearchGate(old(viewModel.State()), frame, FrameResultHandler)
    {
      if !isARReady {
        return false;
      }
      dispatched := viewModel.Search(frame, FrameResultHandler);
    }

    /** The closure passed to `search`, run with a delivered result and the frame it was found in. */
    method HandleSearchResult(result: Option<ResultModel>, arFrame: ARFrame, raycast: Raycast)
      requires Valid()
      modifies breadEntity
      ensures Valid()
      ensures breadEntity.State() == ApplyReaction(React(result, arFrame, raycast), old(breadEntity.State()))
    {
      if result.None? || !result.value.isCat {
        breadEntity.NotFound();
        return;
      }
      var displayBoundingBox := FlippedCoordinates(result.value.rawBoundingBox);
      var centerPoint := Point(MidX(displayBoundingBox), MidY(displayBoundingBox));
      var raycastResults := raycast(arFrame, centerPoint);
      if |raycastResults| == 0 {
        return;
      }
      var realWorldMatrix := raycastResults[0];
      breadEntity.position := Vec3(realWorldMatrix.column3.x, realWorldMatrix.column3.y, realWorldMatrix.column3.z);
      // `look(at:from:relativeTo:)` turns the marker towards the camera; orientation is not modelled.
      breadEntity.Found();
    }

    /**
      A recognition request finishing: the view model delivers the selected
      result to the stored closure (if a frame is in process) and re-opens its
      gate; the closure then reacts on the marker.
    */
    method RequestCompleted(error: Option<VisionError>, results: Option<seq<Observation>>, raycast: Raycast)
      requires Valid()
      modifies viewModel, breadEntity
      ensures Valid()
      ensures viewModel.State() == DeliverGate(old(viewModel.State()), SelectResult(error, results)).0
      ensures old(viewModel.inProcessARFrame).None? ==> breadEntity.State() == old(breadEntity.State())
      ensures old(viewModel.inProcessARFrame).Some? ==>
        breadEntity.State()
        == ApplyReaction(React(SelectResult(error, results), old(viewModel.inProcessARFrame).value, raycast),
                         old(breadEntity.State()))
    {
      var call := viewModel.RequestCompleted(error, results);
      if call.Some? {
        match call.value.completion
        case FrameResultHandler =>
          HandleSearchResult(call.value.result, call.value.frame, raycast);
      }
    }
  }
}
