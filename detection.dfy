/**
  The detection wrapper (ViewModel.swift): how the animal-recognition
  request's output is reduced to at most one ResultModel, and the busy gate
  that lets only one frame be in detection at a time.
*/
module Detection {
  import opened Wrappers
  import opened Geometry

  /** The label the app looks for. */
  const TargetIdentifier: string := "Cat"

  /** A camera frame from the AR session, known by its sequence number; its pixels are not modelled. */
  datatype ARFrame = ARFrame(id: nat)

  /** A VNClassificationObservation: one candidate label of a recognised object. */
  datatype ClassificationLabel = ClassificationLabel(identifier: string, confidence: real)

  /** A VNRecognizedObjectObservation: its labels, most confident first, and its normalised box. */
  datatype ObjectObservation = ObjectObservation(labels: seq<ClassificationLabel>, boundingBox: Rect)

  /** One element of `request.results`: a recognised object, or an observation of some other class. */
  datatype Observation = RecognizedObject(recognized: ObjectObservation) | OtherObservation

  /** The error the request's completion handler may receive. */
  datatype VisionError = VisionError(description: string)

  /** ResultModel: whether the top label is the target, and the box exactly as Vision gave it. */
  datatype ResultModel = ResultModel(isCat: bool, rawBoundingBox: Rect)

  predicate AllRecognized(obs: seq<Observation>) {
    forall i | 0 <= i < |obs| :: obs[i].RecognizedObject?
  }

  /**
    `request.results as? [VNRecognizedObjectObservation]`: a missing list
    stays missing, and the cast of a list fails as a whole if any element is
    of another class.
  */
  function AsObjectObservations(results: Option<seq<Observation>>): (r: Option<seq<ObjectObservation>>)
    ensures r.Some? <==> results.Some? && AllRecognized(results.value)
    ensures r.Some? ==> |r.value| == |results.value|
    ensures r.Some? ==> forall i | 0 <= i < |r.value| :: results.value[i] == RecognizedObject(r.value[i])
  {
    match results
    case None => None
    case Some(obs) =>
      if AllRecognized(obs) then Some(seq(|obs|, i requires 0 <= i < |obs| && AllRecognized(obs) => obs[i].recognized))
      else None
  }

  /**
    The body of the request's completion handler: the result it hands on.
    The error, if any, is only logged; the first recognised object and its
    first label decide everything.
  */
  function SelectResult(error: Option<VisionError>, results: Option<seq<Observation>>): (r: Option<ResultModel>)
    ensures r.None? <==>
      || results.None?
      || !AllRecognized(results.value)
      || |results.value| == 0
      || |results.value[0].recognized.labels| == 0
    ensures r.Some? ==> (r.value.isCat <==> results.value[0].recognized.labels[0].identifier == TargetIdentifier)
    ensures r.Some? ==> r.value.rawBoundingBox == results.value[0].recognized.boundingBox
  {
    match AsObjectObservations(results)
    case None => None
    case Some(objects) =>
      if |objects| == 0 then None
      else if |objects[0].labels| == 0 then None
      else Some(ResultModel(objects[0].labels[0].identifier == TargetIdentifier, objects[0].boundingBox))
  }

  /** A reported error does not by itself make the result nil: the results are inspected all the same. */
  lemma ErrorDoesNotDecide(error: VisionError, results: Option<seq<Observation>>)
    ensures SelectResult(Some(error), results) == SelectResult(None, results)
  {
  }

  /**
    Only the identifier of the first label of the first observation and that
    observation's box matter: the other labels, every confidence and the
    contents of the later observations never change the result (the later
    observations only have to be recognised objects, or the cast fails).
  */
  lemma OnlyTopLabelOfFirstObservationMatters(error: Option<VisionError>, top: ClassificationLabel,
                                              otherLabels: seq<ClassificationLabel>, box: Rect,
                                              later: seq<Observation>)
    requires AllRecognized(later)
    ensures SelectResult(error, Some([RecognizedObject(ObjectObservation([top] + otherLabels, box))] + later))
         == Some(ResultModel(top.identifier == TargetIdentifier, box))
  {
    var obs := [RecognizedObject(ObjectObservation([top] + otherLabels, box))] + later;
    assert AllRecognized(obs) by {
      forall i | 0 <= i < |obs| ensures obs[i].RecognizedObject? {
        if i > 0 { assert obs[i] == later[i - 1]; }
      }
    }
  }

  /** A label other than "Cat", such as "Dog", gives a result that is not a cat. */
  lemma DogIsNotCat(confidence: real, box: Rect)
    ensures SelectResult(None, Some([RecognizedObject(ObjectObservation([ClassificationLabel("Dog", confidence)], box))]))
         == Some(ResultModel(false, box))
  {
    var obs := [RecognizedObject(ObjectObservation([ClassificationLabel("Dog", confidence)], box))];
    assert AllRecognized(obs);
    assert "Dog"[0] != TargetIdentifier[0];
  }

  /** The two ViewModel fields the busy gate works on: `inProcessARFrame` and `searchCompletion`. */
  datatype Gate<C> = Gate(inProcess: Option<ARFrame>, completion: Option<C>)

  /** A call of the stored completion with the selected result and the in-process frame. */
  datatype Delivery<C> = Delivery(completion: C, result: Option<ResultModel>, frame: ARFrame)

  /** A frame in process always has a completion to deliver to. */
  predicate GateValid<C>(g: Gate<C>) {
    g.inProcess.Some? ==> g.completion.Some?
  }

  /**
    `search(in:completion:)`: refused while a frame is in process; otherwise
    the completion is stored and the frame goes to detection.  The second
    component says whether work was dispatched.
  */
  function SearchGate<C>(g: Gate<C>, frame: ARFrame, completion: C): (r: (Gate<C>, bool))
    ensures r.1 <==> g.inProcess.None?
    ensures !r.1 ==> r.0 == g
    ensures r.1 ==> r.0.inProcess == Some(frame) && r.0.completion == Some(completion)
  {
    if g.inProcess.Some? then (g, false)
    else (Gate(Some(frame), Some(completion)), true)
  }

  /**
    The delivery block: nothing happens unless a frame is in process;
    otherwise the stored completion receives the result and that frame, and
    the slot is cleared, which re-opens the gate.  The completion stays stored.
  */
  function DeliverGate<C>(g: Gate<C>, result: Option<ResultModel>): (r: (Gate<C>, Option<Delivery<C>>))
    ensures g.inProcess.None? ==> r == (g, None)
    ensures g.inProcess.Some? ==> r.0 == Gate(None, g.completion)
    ensures r.1.Some? <==> g.inProcess.Some? && g.completion.Some?
    ensures r.1.Some? ==> r.1.value == Delivery(g.completion.value, result, g.inProcess.value)
  {
    match g.inProcess
    case None => (g, None)
    case Some(frame) =>
      (Gate(None, g.completion),
       match g.completion
       case None => None
       case Some(c) => Some(Delivery(c, result, frame)))
  }

  /** The events the gate sees, in the order they happen. */
  datatype GateEvent<C> = SearchEvent(frame: ARFrame, completion: C) | DeliverEvent(result: Option<ResultModel>)

  function GateStep<C>(g: Gate<C>, e: GateEvent<C>): Gate<C> {
    match e
    case SearchEvent(frame, completion) => SearchGate(g, frame, completion).0
    case DeliverEvent(result) => DeliverGate(g, result).0
  }

  function RunGate<C>(g: Gate<C>, events: seq<GateEvent<C>>): Gate<C>
    decreases |events|
  {
    if events == [] then g else RunGate(GateStep(g, events[0]), events[1..])
  }

  predicate AllSearches<C>(events: seq<GateEvent<C>>) {
    forall i | 0 <= i < |events| :: events[i].SearchEvent?
  }

  /** Every sequence of searches and deliveries keeps a completion beside the in-process frame. */
  lemma {:induction false} RunGateValid<C>(g: Gate<C>, events: seq<GateEvent<C>>)
    requires GateValid(g)
    ensures GateValid(RunGate(g, events))
    decreases |events|
  {
    if events != [] {
      RunGateValid(GateStep(g, events[0]), events[1..]);
    }
  }

  /** While a frame is in process, searches change nothing: neither the frame nor the completion. */
  lemma {:induction false} BusyGateDropsSearches<C>(g: Gate<C>, events: seq<GateEvent<C>>)
    requires g.inProcess.Some?
    requires AllSearches(events)
    ensures RunGate(g, events) == g
    decreases |events|
  {
    if events != [] {
      assert events[0].SearchEvent?;
      assert AllSearches(events[1..]) by {
        forall i | 0 <= i < |events[1..]| ensures events[1..][i].SearchEvent? {
          assert events[1..][i] == events[i + 1];
        }
      }
      BusyGateDropsSearches(g, events[1..]);
    }
  }

  /**
    The delivery that follows an accepted search answers that search: its
    completion gets the frame of the search that was accepted, whatever
    searches came in between, and the gate is open again afterwards.
  */
  lemma DeliveryAnswersAcceptedSearch<C>(g: Gate<C>, frame: ARFrame, completion: C,
                                         between: seq<GateEvent<C>>, result: Option<ResultModel>)
    requires g.inProcess.None?
    requires AllSearches(between)
    ensures var busy := RunGate(g, [SearchEvent(frame, completion)] + between);
            busy == Gate(Some(frame), Some(completion)) &&
            DeliverGate(busy, result) == (Gate(None, Some(completion)), Some(Delivery(completion, result, frame)))
  {
    var events := [SearchEvent(frame, completion)] + between;
    assert events[1..] == between;
    BusyGateDropsSearches(Gate(Some(frame), Some(completion)), between);
  }

  /** ViewModel, with the serial queue and the post-delivery delay collapsed into sequential steps. */
  class ViewModel<C> {
    var searchCompletion: Option<C>
    var inProcessARFrame: Option<ARFrame>

    function State(): Gate<C>
      reads this
    {
      Gate(inProcessARFrame, searchCompletion)
    }

    ghost predicate Valid()
      reads this
    {
      GateValid(State())
    }

    constructor ()
      ensures Valid() && State() == Gate(None, None)
    {
      searchCompletion := None;
      inProcessARFrame := None;
    }

    /** `search(in:completion:)`; the frame is taken into process at once rather than on the worker queue. */
    method Search(arFrame: ARFrame, completion: C) returns (dispatched: bool)
      requires Valid()
      modifies this
      ensures Valid()
      ensures (State(), dispatched) == SearchGate(old(State()), arFrame, completion)
    {
      if inProcessARFrame.Some? {
        return false;
      }
      searchCompletion := Some(completion);
      inProcessARFrame := Some(arFrame);
      dispatched := true;
    }

    /**
      The recognition request's completion handler: select the result, then
      (the deferred block) hand it and the in-process frame to the stored
      completion and clear the slot.  `call` is the completion call made, if any.
    */
    method RequestCompleted(error: Option<VisionError>, results: Option<seq<Observation>>)
      returns (call: Option<Delivery<C>>)
      requires Valid()
      modifies this
      ensures Valid()
      ensures (State(), call) == DeliverGate(old(State()), SelectResult(error, results))
    {
      var visionResult := SelectResult(error, results);
      call := None;
      if inProcessARFrame.None? {
        return;
      }
      var frame := inProcessARFrame.value;
      if searchCompletion.Some? {
        call := Some(Delivery(searchCompletion.value, visionResult, frame));
      }
      inProcessARFrame := None;
    }
  }
}
