# TourBuilder step sequencing, modelled in Dafny

TourBuilder lets an author build an ordered list of tour steps (title,
description, image, highlight rectangle) and show them two ways. One is an
autoplay preview that advances on a timer. The other is a scrolling
timeline, where the current step follows the scroll position. This project
models the logic that sequences the steps, with rendering and animation
stripped away:

- `StepCollection` (`step_collection.dfy`): the shell's step list. It holds
  the initial data and the add, delete and update updaters as functions on
  `seq<Step>`. `Shell` pairs the list with the shell's `currentStep`.
- `Playback` (`playback.dfy`): the preview's four state variables as class
  `Preview`. Each handler and the interval callback are methods. Their new
  state is given by pure transition functions on `State`. Progress counts
  half-percents (0..200), so one 0.5 % tick adds exactly 1.
- `ScrollTracker` (`scroll_tracker.dfy`): the crossing policy `OnCrossing`.
  Traces of event runs carry the symmetry lemma. Class `Tracker` holds the
  shell's index, the registry of live scroll triggers, the pending 100 ms
  initialisation timeout and the resize refresh count.
- `StepForm` (`step_form.dfy`): the editor form as class `Form`. Its submit
  returns the callback it dispatches as a `Dispatch` value.
- `ProgressDots` (`progress_dots.dfy`): the dot classification, connector
  rule and counter of the progress column.
- `Options` (`options.dfy`): an `Option` type. `None` stands for a missing
  key.

The preview keeps its own index, which is separate from the shell's
`currentStep`. The timeline writes the shell's index and the progress
column reads it. `Preview` and `Tracker` therefore hold different indices. A `Tracker` object is one mount of the timeline: its registry, timeout and `isInitialized` flag start afresh at every return from the preview, while its index starts from the shell's `currentStep`, which outlives the remount.
The shell mounts either the preview or the editor view, never both, so the
preview's `n` is fixed for the object's life. Neither index is clamped when
steps are deleted. `DeleteDoesNotClamp` and `IndexPastEnd` show the
consequence.

Behaviour of the code a reader might not expect, which the model keeps:

- `nextStep` at the last step and `prevStep` at the first are complete
  no-ops. `progress` is not reset.
- Deleting a step never clamps an index.
- A tick always adds 0.5 %.
- `restart` leaves the preview paused.
- No reorder operation exists on the collection. The shell never passes
  `onReorderSteps` to the editor, so only the editor's forwarding is
  modelled.
- An update patch overwrites every key it has. Only the absence of a key
  leaves a field as it was.

Crossing events, the timer's ticks and the fresh id of an added step are
inputs to the model. The wall clock, the scrolling library's geometry and
`Date.now()` are not modelled.

## Model

| member | source | states |
|---|---|---|
| StepCollection.InitialSteps | src/App.jsx:12-40 | three steps with ids 1, 2, 3 |
| StepCollection.InitialStepsDistinct | src/App.jsx:12-40 | the initial ids are pairwise distinct and are exactly {1, 2, 3} |
| StepCollection.Add | src/App.jsx:57-64 | length grows by one and the old steps are kept in order as a prefix; the new last step has the fresh id, the payload's title, description and image, and the default highlight {50,50,200,100} whatever highlight the payload carried |
| StepCollection.AddPreservesDistinct | src/App.jsx:57-64 | with an id not yet present, add keeps ids distinct and adds exactly that id to the id set |
| StepCollection.AddDuplicateIdBreaksDistinct | src/App.jsx:60 | reusing a present id breaks distinctness, so the fresh-id requirement is necessary |
| StepCollection.Delete | src/App.jsx:66-68 | the result is no longer than the input and no surviving step has the deleted id |
| StepCollection.DeleteMembers | src/App.jsx:66-68 | a step survives exactly when it was present and its id differs from the deleted one |
| StepCollection.DeleteAppend | src/App.jsx:66-68 | delete distributes over concatenation, so survivors keep their relative order |
| StepCollection.DeleteAbsent | src/App.jsx:66-68 | deleting an absent id leaves the list unchanged |
| StepCollection.DeleteAtPosition | src/App.jsx:66-68 | with distinct ids, deleting the id at position k removes exactly position k |
| StepCollection.DeletePreservesDistinct | src/App.jsx:66-68 | delete keeps ids distinct |
| StepCollection.Merge | src/App.jsx:73 | the spread merge: each key present in the patch replaces the step's field, each absent key keeps it |
| StepCollection.Update | src/App.jsx:70-76 | length and positions are preserved; each step whose id matches gets the patch merged over it, and every other step is unchanged |
| StepCollection.UpdateAbsent | src/App.jsx:70-76 | updating an absent id leaves the list unchanged |
| StepCollection.UpdateKeepsIds | src/App.jsx:70-76 | a patch without an id key (or with the target's id) keeps every position's id and so keeps ids distinct |
| StepCollection.InitialShell | src/App.jsx:44-47 | the shell starts with the initial steps, index 0 and the editor view |
| StepCollection.ShellDelete | src/App.jsx:66-68 | delete changes only the collection; currentStep and the view mode are untouched |
| StepCollection.ShellUpdate | src/App.jsx:70-76 | update changes only the collection; currentStep and the view mode are untouched |
| StepCollection.DeleteDoesNotClamp | src/App.jsx:45 | index 2 on the initial steps, then deleting id 3, leaves the index at 2 with only 2 steps |
| Playback.Initial | src/components/DemoPreview.jsx:16-19 | step 0, paused, progress 0, not completed |
| Playback.AfterTick | src/components/DemoPreview.jsx:61-78 | below 100 % only progress grows by 0.5 %; at 100 % a non-last step advances with progress 0 and no carry-over, and the last step completes with progress 100 and playing off |
| Playback.AfterNext | src/components/DemoPreview.jsx:94-100 | inside the bounds: index +1, progress 0, completed cleared, playing kept; on the last step nothing changes |
| Playback.AfterPrev | src/components/DemoPreview.jsx:102-108 | inside the bounds: index -1, progress 0, completed cleared, playing kept; on step 0 nothing changes |
| Playback.AfterRestart | src/components/DemoPreview.jsx:110-115 | back to step 0, progress 0, paused, not completed |
| Playback.AfterToggle | src/components/DemoPreview.jsx:117-125 | from completed: step 0, progress 0, playing, not completed; otherwise playing flips and step and progress are kept |
| Playback.InitialInv | src/components/DemoPreview.jsx:16-19 | the initial state satisfies the invariant and runs no timer |
| Playback.TransitionsKeepInv | src/components/DemoPreview.jsx:58-125 | every transition keeps the invariant: index in [0, N-1], progress in [0, 100], progress 100 iff completed, completed implies last step and not playing |
| Playback.PauseResume | src/components/DemoPreview.jsx:59-91 | pausing stops the timer, and resuming gives back exactly the paused step and progress |
| Playback.FrozenWithoutTimer | src/components/DemoPreview.jsx:59-85 | without the interval, any number of would-be ticks changes nothing |
| Playback.TicksAccumulate | src/components/DemoPreview.jsx:62 | k ticks that stay below 100 % add exactly k half-percents and change nothing else |
| Playback.DwellAdvances | src/components/DemoPreview.jsx:62-79 | from 0 % on a non-last step, 199 ticks stay on it and exactly 200 ticks (10 s at 50 ms) move to the next step |
| Playback.DwellCompletes | src/components/DemoPreview.jsx:62-74 | from 0 % on the last step, 200 ticks complete the preview |
| Playback.RunKeepsInv | src/components/DemoPreview.jsx:58-92 | any number of ticks keeps the invariant and never moves the index back |
| Playback.ThreeStepAutoplay | src/components/DemoPreview.jsx:58-125 | three steps, play, then 200 / 400 / 600 ticks give step 1, step 2, completed on step 2 |
| Playback.BarBounds | src/components/DemoPreview.jsx:233-235 | the bar width ((step + progress/100)/N)*100 lies in [0, 100] and is 100 exactly when completed |
| Playback.ZoomFor | src/components/DemoPreview.jsx:32-45 | the preset is always one of the five palette entries |
| Playback.ZoomEffect | src/components/DemoPreview.jsx:30-31 | the zoom animation runs exactly when the current step exists |
| Playback.ZoomAlternates | src/components/DemoPreview.jsx:45 | consecutive steps get different presets, and presets repeat every five steps |
| Playback.ShownHighlight | src/components/DemoPreview.jsx:275-278 | every drawn field is non-zero, and a missing highlight draws the default rectangle |
| Playback.HighlightFallback | src/components/DemoPreview.jsx:275-278 | each field falls back to 50/50/200/100 exactly when it is 0, otherwise it is kept; drawing is idempotent |
| Playback.AddedStepShowsDefault | src/App.jsx:61 | a newly added step is drawn with the default rectangle |
| Playback.ShownImage | src/components/DemoPreview.jsx:255 | the image is never empty, and a non-empty image is shown as given |
| Playback.PlayLabel | src/components/DemoPreview.jsx:372-374 | the button reads Replay exactly when completed, Pause exactly when playing and not completed, and Play exactly when paused and not completed |
| Playback.Preview.constructor | src/components/DemoPreview.jsx:16-19 | the preview mounts in the initial state, with the invariant |
| Playback.Preview.Tick | src/components/DemoPreview.jsx:59-79 | delivered only while playing and not completed; the new state is AfterTick of the old one |
| Playback.Preview.NextStep | src/components/DemoPreview.jsx:94-100 | the new state is AfterNext of the old one, and the invariant is kept |
| Playback.Preview.PrevStep | src/components/DemoPreview.jsx:102-108 | the new state is AfterPrev of the old one, and the invariant is kept |
| Playback.Preview.Restart | src/components/DemoPreview.jsx:110-115 | the new state is the initial state |
| Playback.Preview.TogglePlay | src/components/DemoPreview.jsx:117-125 | the new state is AfterToggle of the old one; the replay delay is atomic |
| ScrollTracker.OnCrossing | src/components/Timeline.jsx:33-69 | enter and enter-back set the index to i; leave sets it to i only when i = N-1; leave-back sets it to 0 only when i = 0; otherwise the index is unchanged |
| ScrollTracker.Fire | src/components/Timeline.jsx:29-115 | a step-tracking trigger applies the policy with the step count it closed over; reveal triggers leave the index alone |
| ScrollTracker.TraceForward | src/components/Timeline.jsx:33-53 | scrolling down from anchor k gives k, k, ..., N-1, N-1, whatever the index was |
| ScrollTracker.TraceBackward | src/components/Timeline.jsx:42-63 | scrolling up from anchor m-1 gives m-1, m-1, ..., 0, 0, whatever the index was |
| ScrollTracker.ScrollSymmetry | src/components/Timeline.jsx:33-69 | the forward run yields 0,0,1,1,...,N-1,N-1 and the backward run yields exactly its reverse |
| ScrollTracker.TraceInRange | src/components/Timeline.jsx:25-70 | from an index in [0, N-1], in-range events keep every index in [0, N-1] |
| ScrollTracker.OneTrackerPerAnchor | src/components/Timeline.jsx:25-70 | the registry holds exactly one step-tracking trigger per mounted anchor slot and none for any other index |
| ScrollTracker.RegisteredAnchorsMounted | src/components/Timeline.jsx:25-29 | every trigger belongs to a mounted anchor slot, and every tracker closes over the current step count |
| ScrollTracker.Tracker.constructor | src/components/Timeline.jsx:11-15 | one mount of the timeline: the shell's index as it stands, no triggers, no pending timeout, not initialised |
| ScrollTracker.Tracker.Initialize | src/components/Timeline.jsx:17-122 | a no-op without anchors or steps; otherwise every old trigger is killed, the registry becomes exactly the per-anchor triggers, and one refresh happens; the index is untouched |
| ScrollTracker.Tracker.Cleanup | src/components/Timeline.jsx:130-133 | the timeout is cancelled and every trigger is killed; the index is untouched |
| ScrollTracker.Tracker.Effect | src/components/Timeline.jsx:124-135 | schedules initialisation only for a non-empty collection |
| ScrollTracker.Tracker.StepsChanged | src/components/Timeline.jsx:124-135 | on a steps change, all triggers are gone before initialisation is scheduled again |
| ScrollTracker.Tracker.TimerFires | src/components/Timeline.jsx:126-128 | the timeout runs initialisation with the step count it was scheduled for: with anchors it re-registers, marks the timeline initialised and refreshes once; without anchors nothing but the timeout changes |
| ScrollTracker.Tracker.Resize | src/components/Timeline.jsx:137-146 | refreshes geometry only once initialised; the index and the triggers never change |
| ScrollTracker.Tracker.Cross | src/components/Timeline.jsx:33-69 | only a live trigger can fire; the new index is Fire of that trigger and nothing else changes |
| StepForm.SubmitDispatch | src/components/EditorPanel.jsx:32-47 | nothing is dispatched iff a field is empty; in edit mode update(editingStep.id, {title, description, image}) with no id key; in add mode add({title, description, image}), with the image always present |
| StepForm.ReorderDispatch | src/components/EditorPanel.jsx:69-71 | the new order is forwarded unchanged |
| StepForm.DeleteDispatch | src/components/EditorPanel.jsx:391-394 | the delete button dispatches exactly the clicked step's id |
| StepForm.DeleteClickRemovesThatStep | src/components/EditorPanel.jsx:391-394 | with distinct ids, the k-th delete button removes exactly position k |
| StepForm.SubmitAddAppends | src/components/EditorPanel.jsx:42-43 | a valid add submit appends a step with the fields, an image and the default highlight |
| StepForm.SubmitUpdateSafe | src/components/EditorPanel.jsx:39-41 | a valid edit submit keeps ids distinct, and is a no-op once the edited step has been deleted |
| StepForm.EditRoundTrip | src/components/EditorPanel.jsx:53-57 | editing a step and resubmitting it unchanged leaves it as it was, or is rejected when its image is missing |
| StepForm.Form.constructor | src/components/EditorPanel.jsx:23-27 | empty fields, add mode |
| StepForm.Form.Submit | src/components/EditorPanel.jsx:32-51 | dispatches SubmitDispatch of the old fields; a rejected submit changes nothing; a valid one leaves edit mode and clears all fields |
| StepForm.Form.StartEditing | src/components/EditorPanel.jsx:53-57 | edit mode with the step's title and description, and with its image or "" |
| StepForm.Form.CancelEditing | src/components/EditorPanel.jsx:62-67 | leaves edit mode and clears all fields, dispatching nothing |
| ProgressDots.StatusOf | src/components/StickySidebar.jsx:43-51 | current iff i = currentStep, completed iff i < currentStep, upcoming iff i > currentStep |
| ProgressDots.DotAt | src/components/StickySidebar.jsx:32-137 | check mark iff completed, inner indicator iff current, glow iff i <= currentStep, a connector iff i < N-1 that is green iff i < currentStep, and a click reports i |
| ProgressDots.Render | src/components/StickySidebar.jsx:11-28 | nothing for an empty collection; otherwise one dot per step, in order |
| ProgressDots.Counter | src/components/StickySidebar.jsx:153 | shows currentStep + 1 of N |
| ProgressDots.DotCounts | src/components/StickySidebar.jsx:43-51 | with 0 <= currentStep < N exactly one dot is current, currentStep are completed and the rest upcoming |
| ProgressDots.IndexPastEnd | src/components/StickySidebar.jsx:43-153 | an unclamped index at or past N shows no current dot, all dots completed, and a counter above N |

## Left out

- Animation, styling and dark mode: framer-motion and gsap tweens, class strings, the dark-mode effect, the header toggles and the success toast. These are presentation.
- The landing page: its typewriter is a race between two timeouts, and its particles are random.
- Timer plumbing: `setInterval`/`clearInterval` and the 100 ms replay `setTimeout` are modelled only through `TimerRunning` and an atomic replay. The `currentStepRef` mirror is taken as always up to date.
- Scroll geometry and scheduling: the trigger thresholds, `ScrollTrigger.refresh` (counted, not computed) and `requestAnimationFrame`. Kill and create are taken as one step, so the frame that a cleanup does not cancel is not modelled. Which crossings happen is an input.
- `Date.now()` ids: the fresh id is a parameter. Distinctness is proved given an id not yet present.
- Reorder of the collection: no implementation exists, and the `onReorderSteps` callback is never supplied by the shell. Only the forwarding in the editor is modelled.
- StepForm.ReorderDispatch: the shell never passes `onReorderSteps` (src/App.jsx:123-129), so in this program the call in `handleReorder` throws a TypeError (not a function) on every drag and the order never changes. The model states only what the editor hands on; the thrown exception is not modelled.
- DOM calls: `scrollIntoView` when a dot is clicked and when editing starts.
- `src/data/demoSteps.js` and `src/components/StepPreviewPanel.jsx` are not part of this model. Both are unused.
- StepCollection.Add: a payload without a title or description is not modelled, because the only caller always supplies both.
- StepCollection.Merge: a patch key that is present with the value `undefined` is not modelled. The only caller never builds one.
- Playback.Preview: the controls of a preview with no steps are not rendered, so that case is never driven. The model still keeps its invariant.
