# VisionCatDetectorExample: a Dafny model of its decision logic

The app runs an AR session. It sends camera frames one at a time to an
animal-recognition request. When the top label is "Cat", it raycasts through
the centre of the detected box and moves a bread marker to the surface it hits.
A small counter with hysteresis decides when the marker is shown or hidden.
This project models the logic the app itself decides. Every platform call is
replaced by an input or an oracle.

- `geometry.dfy` (module `Geometry`): the CGRect, CGPoint, CGAffineTransform and simd values
  involved, over `real`. `CGRect.applying` is modelled as Core Graphics defines it: take the
  bounding box of the four transformed corners of the standardized rect.
  `flippedCoordinates` is the composition the source writes: a scale of y by -1, then a
  translation by +1.
- `hysteresis.dfy` (module `Hysteresis`): `EntityContainer` as a class. It has the counter
  `threshold`, the flag `isEnabled` that the `didSet` observer keeps equal to `threshold > 0`,
  the `position`, and a ghost history of `found()`/`notFound()` calls. The pure `Step`/`Run`
  functions specify the counter, and lemmas give its closed form.
- `detection.dfy` (module `Detection`): `ResultModel`, the reduction of the recognition
  request's results to an optional `ResultModel`, and the `inProcessARFrame` busy gate. The gate
  is given both as pure functions over a `Gate` value with trace lemmas, and as the class
  `ViewModel` whose methods are proved against those functions.
- `controller.dfy` (module `Controller`): `ViewController` with the coaching flag `isARReady`,
  the frame handler, and the result closure. `React` is the closure's decision rule as a pure
  function. The raycast is an oracle parameter of type `(ARFrame, Point) -> seq<Float4x4>`.
- `wrappers.dfy` (module `Wrappers`): `Option`, which stands for Swift optionals.

Three behaviours of the code that are easy to misread:

- The error handed to the recognition completion is only logged. The results are still
  inspected, so an error does not by itself give a nil result (`Detection.ErrorDoesNotDecide`).
- The result closure is called only when a frame is still in process. It is not called on
  every completion.
- `results as? [VNRecognizedObjectObservation]` fails as a whole when any element has another
  class. So a later observation's class can make the result nil, although its labels and box
  never matter.

## Model

| member | source | states |
|---|---|---|
| `Geometry.Standardized` | ARKit_Vision_Example/ViewController.swift:184-185 | the normalisation that Core Graphics' `applying` (called on these lines) performs before transforming: the result has a non-negative size and spans the same x and y edges, and a standardized rect is left as it is |
| `Geometry.Applying` | ARKit_Vision_Example/ViewController.swift:184-185 | `CGRect.applying` gives a standardized rect that contains every transformed corner, and each of its four edges is reached by some transformed corner (smallest such rect) |
| `Geometry.FlippedCoordinates` | ARKit_Vision_Example/ViewController.swift:182-188 | scaling y by -1 and then translating by +1 keeps x, width and height (of the standardized rect) and sets y to `1 - y - height` |
| `Geometry.FlippedCoordinatesInvolution` | ARKit_Vision_Example/ViewController.swift:183-187 | flipping twice returns the standardized rect, so it returns any standardized rect unchanged |
| `Geometry.MidX` | ARKit_Vision_Example/ViewController.swift:89 | `CGRect.midX` lies between the rect's left and right edges, at equal distance from both |
| `Geometry.MidY` | ARKit_Vision_Example/ViewController.swift:90 | `CGRect.midY` lies between the rect's bottom and top edges, at equal distance from both |
| `Geometry.CenterPoint` | ARKit_Vision_Example/ViewController.swift:89-90 | `(midX, midY)` lies inside the rect, at equal distances from its opposite edges |
| `Geometry.FlippedCenter` | ARKit_Vision_Example/ViewController.swift:83-90 | the centre of the flipped box has the same x as the raw box's centre, and its y is `1 - midY` |
| `Geometry.TranslationOf` | ARKit_Vision_Example/ViewController.swift:114-118 | `columns.3.xyz` of a world transform is the point that the transform sends the origin to |
| `Hysteresis.Step` | ARKit_Vision_Example/ViewController.swift:202-209 | one call keeps a counter that is in [0, 5] in range; `found()` sets it to exactly 5, which is visible; `notFound()` takes one off a positive counter and leaves the counter alone otherwise |
| `Hysteresis.Run` | ARKit_Vision_Example/ViewController.swift:191-209 | the counter after a sequence of calls: no calls leave it as it was; a sequence ending in `found()` leaves 5; a counter that starts non-negative never goes below 0 |
| `Hysteresis.RunInRange` | ARKit_Vision_Example/ViewController.swift:191-209 | after any sequence of `found()`/`notFound()` calls, a counter that started in [0, 5] is still in [0, 5] |
| `Hysteresis.RunOnlyMisses` | ARKit_Vision_Example/ViewController.swift:202-205 | `n` calls to `notFound()` from counter `t >= 0` leave `max(t - n, 0)`; from 5, the counter reaches 0 on exactly the fifth miss |
| `Hysteresis.RunAfterLastHit` | ARKit_Vision_Example/ViewController.swift:202-209 | the counter is `max(5 - m, 0)`, where `m` is the number of calls after the last `found()`; the earlier history does not matter |
| `Hysteresis.HitThenMisses` | ARKit_Vision_Example/ViewController.swift:191-209 | after `found()` and then `k` calls to `notFound()`: the counter is `max(5 - k, 0)`, and the entity is enabled if and only if `k < 5` (still enabled after 4 misses, disabled on the 5th) |
| `Hysteresis.EntityContainer.constructor` | ARKit_Vision_Example/ViewController.swift:22-26 | a new container has counter 0, the entity disabled, and no calls in its history |
| `Hysteresis.EntityContainer.SetThreshold` | ARKit_Vision_Example/ViewController.swift:192-196 | assigning the counter sets `isEnabled` to `threshold > 0` (the `didSet` observer) and changes nothing else |
| `Hysteresis.EntityContainer.NotFound` | ARKit_Vision_Example/ViewController.swift:202-205 | at 0 the counter and the flag are unchanged; above 0 the counter drops by exactly 1; the class invariant (range, flag equals `threshold > 0`, counter equals `Run` of the history) is kept; position unchanged |
| `Hysteresis.EntityContainer.Found` | ARKit_Vision_Example/ViewController.swift:207-209 | the counter becomes exactly 5 whatever it was, the entity is enabled, the invariant is kept, position unchanged |
| `Detection.AsObjectObservations` | ARKit_Vision_Example/ViewModel.swift:67 | the cast succeeds if and only if the results exist and every element is a recognised-object observation; it then keeps every element, in order |
| `Detection.SelectResult` | ARKit_Vision_Example/ViewModel.swift:67-82 | the result is nil if and only if the results are missing, the cast fails, the list is empty, or the first observation has no labels; otherwise `isCat` holds if and only if the first label's identifier is exactly "Cat", and `rawBoundingBox` is the first observation's box unchanged |
| `Detection.ErrorDoesNotDecide` | ARKit_Vision_Example/ViewModel.swift:58-82 | with or without a reported error, the selected result is the same |
| `Detection.OnlyTopLabelOfFirstObservationMatters` | ARKit_Vision_Example/ViewModel.swift:67-81 | when all observations are recognised objects, the result is determined by the first observation's top identifier and its box; the other labels, all confidences and all later observations do not matter |
| `Detection.DogIsNotCat` | ARKit_Vision_Example/ViewModel.swift:77-82 | a single observation whose top label is "Dog" gives a result with `isCat == false` and its box |
| `Detection.SearchGate` | ARKit_Vision_Example/ViewModel.swift:91-110 | work is dispatched if and only if no frame is in process; a refused search changes neither the frame nor the stored completion; an accepted one stores the completion and takes the frame into process |
| `Detection.DeliverGate` | ARKit_Vision_Example/ViewModel.swift:46-54 | with no frame in process nothing is called and nothing changes; otherwise the slot is cleared, the stored completion is kept, and the completion, if one is stored, is called once with the result and the in-process frame |
| `Detection.RunGateValid` | ARKit_Vision_Example/ViewModel.swift:91-110 | across any sequence of searches and deliveries, a frame in process always has a stored completion |
| `Detection.BusyGateDropsSearches` | ARKit_Vision_Example/ViewModel.swift:93-96 | while a frame is in process, any number of searches leave the gate exactly as it was |
| `Detection.DeliveryAnswersAcceptedSearch` | ARKit_Vision_Example/ViewModel.swift:46-54 | after an accepted search and any number of refused ones, the next delivery calls the accepted search's completion with that search's frame, and the gate is open again |
| `Detection.ViewModel.constructor` | ARKit_Vision_Example/ViewModel.swift:24-32 | a new view model has no frame in process and no stored completion |
| `Detection.ViewModel.Search` | ARKit_Vision_Example/ViewModel.swift:91-118 | the new fields and the dispatch flag are those that `SearchGate` gives; the invariant is kept |
| `Detection.ViewModel.RequestCompleted` | ARKit_Vision_Example/ViewModel.swift:39-83 | the completion call made and the new fields are those that `DeliverGate` gives for `SelectResult` of the request's output |
| `Controller.RaycastPoint` | ARKit_Vision_Example/ViewController.swift:83-93 | the raycast goes through `(midX, 1 - midY)` of the raw Vision box |
| `Controller.React` | ARKit_Vision_Example/ViewController.swift:75-132 | the closure counts a miss if and only if there is no result or it is not a cat; it changes nothing if and only if a cat's raycast hits nothing; otherwise it places the marker at the first hit's translation and counts it as found |
| `Controller.ApplyReaction` | ARKit_Vision_Example/ViewController.swift:75-132 | the marker after the closure runs. A miss (line 76) gives the `notFound()` counter, and the flag follows it unless the counter was already 0; the position is kept and `Miss` is appended to the history. No hit (lines 99-102) changes nothing. A placement (lines 120, 132) sets the position to the hit, the counter to 5 and enables the marker, appending `Hit` |
| `Controller.DogFrameIsAMiss` | ARKit_Vision_Example/ViewController.swift:75-78 | a frame whose top label is "Dog" counts as a miss: the counter decays by the `notFound()` rule, `Miss` is appended to the history, and the position is unchanged |
| `Controller.ApplyReactionKeepsInvariant` | ARKit_Vision_Example/ViewController.swift:75-132 | every reaction keeps the counter in range, the flag equal to `threshold > 0`, and the counter equal to `Run` of the call history |
| `Controller.ViewController.constructor` | ARKit_Vision_Example/ViewController.swift:19-29 | a new controller is ready for frames, with nothing in process and a hidden marker whose counter is 0 |
| `Controller.ViewController.CoachingOverlayViewWillActivate` | ARKit_Vision_Example/ViewController.swift:144-147 | coaching starting clears `isARReady` |
| `Controller.ViewController.CoachingOverlayViewDidDeactivate` | ARKit_Vision_Example/ViewController.swift:149-152 | coaching ending sets `isARReady` |
| `Controller.ViewController.SessionDidUpdate` | ARKit_Vision_Example/ViewController.swift:61-69 | while coaching, a frame dispatches nothing and changes nothing; otherwise it goes through `SearchGate` with the result closure |
| `Controller.ViewController.HandleSearchResult` | ARKit_Vision_Example/ViewController.swift:69-133 | the marker's new counter, flag, position and history are what `ApplyReaction` of `React` gives |
| `Controller.ViewController.RequestCompleted` | ARKit_Vision_Example/ViewModel.swift:46-54 | the gate goes through `DeliverGate`; the marker is untouched if no frame was in process, and otherwise reacts to the selected result for the in-process frame |

## Left out

- AR session configuration and person-occlusion setup (ViewController.swift:49-57): platform calls with no decision of the app's own.
- Coaching overlay construction and its layout constraints (ViewController.swift:155-180): user interface code.
- Scene loading, `add(children:)`, `addAnchor` and `look(at:from:relativeTo:)`: foreign rendering APIs. The marker's orientation is not modelled, and `look` never touches the counter. The lazily loaded entity is created by the controller's constructor.
- The raycast itself and the execution of the recognition request (ViewController.swift:92-98, ViewModel.swift:109-113): the raycast is the oracle parameter `raycast`, and the request's output is the input of `RequestCompleted`.
- `Detection.ViewModel.Search`: `inProcessARFrame` is really assigned later on the serial queue (ViewModel.swift:110), so several searches can be accepted before the gate closes. The model takes the frame into process in `Search` itself and states only the intended one-at-a-time gate. The race is concurrency.
- `Detection.ViewModel.RequestCompleted`: the dispatch to the main queue and the 0.1 s delay before the slot is cleared are collapsed into one step. During that delay the real gate stays closed a little longer.
- Weak-self captures: every object is assumed to be alive.
- `print` logging of errors and of coaching events.
- CGFloat and Float rounding: all coordinates are `real`. The null and infinite CGRects that Core Graphics treats specially are not represented.
- The pixel buffer and scene data of a frame: an `ARFrame` is known only by its sequence number.
