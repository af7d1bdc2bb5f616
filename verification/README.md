# Modal stack container: background transform

This project models the state machine of `ModalStackContainerView` in the
Modals package, written in Swift and SwiftUI. The view puts the app's content
beneath a stack of modals. While modals are shown, the content shrinks,
loses saturation, gets rounded corners and moves down. The view keeps six
state fields: the modal count, the background-scaling flag, and four visual
parameters (saturation, scale, corner radius, vertical offset). It reacts to
two events:

- a new modal list. Each modal says whether it allows background scaling.
- a new drag progress of the topmost modal. Progress 0 gives the look of a
  shown modal (receded) and 1 the look of an empty stack (restored).

When the stack becomes empty, the view also schedules a delayed reset. The
reset clears the corner radius if the stack is still empty when it fires.

The model has two modules:

- `Transitions` (transitions.dfy) states each event as a function from the
  old state to the new one over `real`. It proves what each function promises.
  It also proves invariants over whole runs of events. Examples: scale and
  offset stay tied to saturation; once cleared, the scaling flag comes back
  only when the stack empties. The values stay in range (saturation in
  [0, 1], scale in [0.92, 1], offset in [0, 30], radius at least 0) only when
  the device radius is not negative and every drag progress lies in [0, 1].
  The source does not clamp drag progress (lines 71-74 use it as given), so a
  progress above 1 gives saturation above 1 and a negative offset, and one
  below 0 a negative saturation and an offset above 30
  (`OverdragLeavesRange`).
- `ContainerView` (container.dfy) holds the class `ModalStackContainerView`.
  Its fields are the view's state. Its methods update those fields in place,
  as the Swift handlers do, with a loop over the modal list for the flag. Each
  method is proved to leave exactly the state the matching `Transitions`
  function gives.

The device's display corner radius is a constructor parameter
(`deviceCornerRadius`). The delayed reset becomes a count of pending resets
plus an explicit `DelayedFire` step. The step re-checks the modal count, as
the scheduled closure does.

The flag is not recomputed from the whole list. An empty list sets it, and a
non-empty list can only clear it (lines 80-88). So it stays off across
non-empty updates until the stack empties (`RunNeverEnablesWithoutEmpty`). On
the first push the radius is set to the device radius at once (line 91). It is
then replaced by the animated target 36 when scaling is on (line 105,
`FirstPushRecedes`). An empty stack always has scaling on
(`RunKeepsEmptyEnabled`), so a first push ends at the device radius only when
that first modal disables scaling.

## Model

All source paths are under `Sources/Modals/ModalStack/`; the table gives them in full.

| member | source | states |
|---|---|---|
| Transitions.Initial | Sources/Modals/ModalStack/ModalStackContainerView.swift:17-22 | the view starts with no modals, scaling enabled, no pending reset, and visual values that are co-derived and in range |
| Transitions.SettledTarget | Sources/Modals/ModalStack/ModalStackContainerView.swift:103-106 | an empty stack settles restored (saturation 1, radius = device radius), any other count receded (saturation 0, radius 36); both have scale = 0.92 + 0.08·saturation and offset = 30 − 30·saturation |
| Transitions.DragTarget | Sources/Modals/ModalStack/ModalStackContainerView.swift:71-74 | the drag target has saturation p and the same scale/offset line as every settled state |
| Transitions.DragTargetEndpoints | Sources/Modals/ModalStack/ModalStackContainerView.swift:71-74 | progress 1 gives exactly the restored state and progress 0 exactly the receded state |
| Transitions.DragTargetRadiusBetween | Sources/Modals/ModalStack/ModalStackContainerView.swift:73 | for p in [0, 1] the dragged radius lies between 36 and the device radius, so it is non-negative when the device radius is |
| Transitions.FlagAfterLoop | Sources/Modals/ModalStack/ModalStackContainerView.swift:83-87 | the loop over the modals leaves the flag on exactly when it was on and every modal allows scaling |
| Transitions.ScalingAfter | Sources/Modals/ModalStack/ModalStackContainerView.swift:80-88 | an empty list turns the flag on; for a non-empty list the flag is the old flag and-ed with every modal's permission, so a disallowing modal turns it off and a non-empty list never turns it on |
| Transitions.OnModalsChanged | Sources/Modals/ModalStack/ModalStackContainerView.swift:78-115 | the count becomes the list length; 0→1 leaves the radius at the device radius (or at 36 when the settled update runs); with scaling off or two modals, saturation, scale and offset are unchanged and the radius changes only by the 0→1 rule; otherwise the settled target for the new count; a reset is scheduled exactly when the list is empty; co-derivation is kept |
| Transitions.OnDragProgress | Sources/Modals/ModalStack/ModalStackContainerView.swift:63-76 | nothing changes unless scaling is on and exactly one modal is shown; the count, flag and pending resets never change; when applied, the visual state is the drag target for p |
| Transitions.OnDelayedFire | Sources/Modals/ModalStack/ModalStackContainerView.swift:110-113 | a firing reset sets the radius to 0 if the count is still 0 and otherwise leaves it; no other field changes except the pending count |
| Transitions.RunKeepsCoDerived | Sources/Modals/ModalStack/ModalStackContainerView.swift:63-115 | over any sequence of list changes, drags and resets, scale = 0.92 + 0.08·saturation and offset = 30 − 30·saturation keep holding |
| Transitions.RunKeepsInRange | Sources/Modals/ModalStack/ModalStackContainerView.swift:63-115 | with a non-negative device radius and drag progress in [0, 1], saturation stays in [0, 1] and the radius non-negative over any run |
| Transitions.CoDerivedBounds | Sources/Modals/ModalStack/ModalStackContainerView.swift:19-22 | in-range co-derived values have scale in [0.92, 1] and offset in [0, 30] |
| Transitions.RunFromInitialInRange | Sources/Modals/ModalStack/ModalStackContainerView.swift:17-115 | from the initial state, with a non-negative device radius and drag progress in [0, 1], every run keeps saturation in [0, 1], scale in [0.92, 1], offset in [0, 30] and the radius non-negative |
| Transitions.OverdragLeavesRange | Sources/Modals/ModalStack/ModalStackContainerView.swift:71-74 | drag progress is not clamped: with one modal and scaling on, any p > 1 gives saturation and scale above 1 and a negative offset, and any p < 0 gives negative saturation, scale below 0.92 and offset above 30 |
| Transitions.RunKeepsEmptyEnabled | Sources/Modals/ModalStack/ModalStackContainerView.swift:80-81 | over any run, a state with no modals has scaling enabled, if the starting state does |
| Transitions.RunNeverEnablesWithoutEmpty | Sources/Modals/ModalStack/ModalStackContainerView.swift:80-88 | a run with no empty modal list never turns the scaling flag on |
| Transitions.RunCountIsLastList | Sources/Modals/ModalStack/ModalStackContainerView.swift:94 | after any run the count is the length of the last list handed over; drags and resets never change it |
| Transitions.LastCountCons | Sources/Modals/ModalStack/ModalStackContainerView.swift:94 | the last list length of a run, read from its first event onwards |
| Transitions.StaleResetIsNoOp | Sources/Modals/ModalStack/ModalStackContainerView.swift:109-113 | a reset scheduled by emptying the stack, firing after the stack was refilled, changes nothing but the pending count |
| Transitions.FreshResetClearsRadius | Sources/Modals/ModalStack/ModalStackContainerView.swift:103-113 | a reset firing while the stack is still empty leaves the restored background with radius 0 |
| Transitions.EmptyStackRestores | Sources/Modals/ModalStack/ModalStackContainerView.swift:80-81 | from any state, an empty list gives count 0, scaling on, the restored background and one more pending reset |
| Transitions.FirstPushRecedes | Sources/Modals/ModalStack/ModalStackContainerView.swift:90-106 | from the initial state, one scaling-allowing modal gives count 1 and the receded background (radius 36) |
| Transitions.PushPopKeepsReceded | Sources/Modals/ModalStack/ModalStackContainerView.swift:96 | from one receded modal, a second modal freezes the background and popping back to one keeps it receded |
| ContainerView.ModalStackContainerView.constructor | Sources/Modals/ModalStack/ModalStackContainerView.swift:17-22 | the fields start at count 0, scaling on, saturation 1, scale 1, radius 36, offset 0 |
| ContainerView.ModalStackContainerView.DragProgressDidChange | Sources/Modals/ModalStack/ModalStackContainerView.swift:63-76 | the new fields are `OnDragProgress` of the old ones; the count and the flag are unchanged |
| ContainerView.ModalStackContainerView.ModalsDidChange | Sources/Modals/ModalStack/ModalStackContainerView.swift:78-115 | the new fields are `OnModalsChanged` of the old ones; the count is the list length; the flag is on for an empty list, else the old flag and-ed with every modal's permission |
| ContainerView.ModalStackContainerView.DelayedFire | Sources/Modals/ModalStack/ModalStackContainerView.swift:110-113 | the new fields are `OnDelayedFire` of the old ones; the radius becomes 0 exactly when the count is 0 |

## Left out

- The SwiftUI view tree in `body` (lines 24-61): the nested stacks, the saturation, scale, offset and mask modifiers, and the equatable root view. This is rendering. The model keeps only the values those modifiers read.
- Spring animation and transactions (lines 66-70, 98-102): the model assigns the target values at once. The frames in between belong to the UI framework.
- The timer of the delayed reset (line 110): the 0.2 s delay is not modelled. A count of pending resets records what was scheduled. `DelayedFire` fires one of them and requires one to be pending, since a closure only runs after it was scheduled. In a `Transitions.Run`, a timer event with nothing pending counts as no event.
- The subscriptions to the shared modal system (lines 55-60): the methods are the handlers themselves.
- The display corner radius of the device: taken as the constructor parameter `deviceCornerRadius`. It is read once, where the source reads it on every use. That is the same if the value does not change while the view lives.
- The always-true equality operator (lines 11-13) and the content closure (line 15): there is no behaviour in them.
- `CGFloat` rounding: the formulas are linear and are stated over exact reals.
- The modal list type: each modal is reduced to its `isBackgroundScalingEnabled` flag, given as a `seq<bool>` in presentation order.
