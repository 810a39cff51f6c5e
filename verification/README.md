# Ice Crystal Westie — verified model of the scene logic

Ice Crystal Westie is a browser scene. A hand-tracking library watches the
camera, and clenching a fist makes a cloud of 8000 particles fly into the shape
of a Christmas tree. Once the tree has formed, 90 gifts appear around its foot
and a click on the tree places the chosen decoration (westie, bell, ornament,
snowflake or candy cane) where the click ray meets the tree.

This project models the logic behind that behaviour in Dafny:

- `AppModel` (app_model.dfy): the `AppState` record, its initial value, the
  initial selection, the instruction line chosen from the state, and the
  selection bar that appears once the tree is formed.
- `Gesture` (gesture.dfy): the hand-tracking callback. It sums the four
  wrist-to-fingertip distances in the image plane and sets `isFist` when the
  sum is under 0.6. With no hand, `isFist` becomes false.
- `Formation` (formation.dfy): the one-way machine Dormant → WakingUp → Formed
  over the state record, the scene's `treeFormed` flag and the gift count.
  Tween completion is an explicit event.
- `Decorations` (decorations.dfy): the string-to-kind dispatch with its westie
  fallback, and the values a placed decoration starts from.
- `ParticleLayout` and `GiftLayout`: the pure rules behind the particle buffers
  (helix position, height, radius, scatter, colour mix) and the gifts (colour
  cycle, ribbon, distance, stacking height, stagger).
- `SceneGraph` (scene_graph.dfy): the scene handle as a class. It holds the
  three particle buffers as arrays, filled in place by the initialisation loop.
  It also holds the scene's children, the decorations and gifts groups, and
  `treeFormed`. Its methods are the completion callback, `addGifts` and the
  click handler.

Inputs the model cannot compute are passed in as parameters:
- each `Math.random()` draw is a real in [0, 1);
- `Math.sqrt` is a function parameter;
- cosine and sine are a `Trig` pair that takes angles in multiples of pi;
- the ray–cone intersection is the list of hit points;
- the two colour endpoints of the particle mix are parameters.

The code's own ranges are half-open where it computes them that way: gift
distance lies in [1.0, 5.5) and decoration target scale in [0.4, 1.2). Gift
positions are not promised to be distinct, since two equal draws give equal
positions.

## Model

| member | source | states |
|---|---|---|
| `AppModel.SelectInstruction` | App.tsx:17-27 | The if/else chain always fires. Each of the four messages is chosen exactly when its condition holds: camera off; camera on, neither formed nor waking; camera on and waking up (even if also formed); camera on, formed and not waking. |
| `AppModel.InstructionAfter` | App.tsx:17-27 | The instruction shown after the effect runs is always one of the four messages, whatever was shown before. It is the camera request exactly when the camera is off, and the decorate prompt exactly when the camera is on, the tree formed and not waking. |
| `AppModel.InstructionForgetsPrevious` | App.tsx:15-27 | After the effect runs, the instruction depends on the state alone, not on the text shown before. |
| `AppModel.SelectionBar` | App.tsx:59-64 | The bar offers ids only when the tree is formed. Every id it offers is one the dispatch matches explicitly and maps back to itself. Each of the five decoration kinds has its button exactly when the tree is formed. |
| `AppModel.Pick` | App.tsx:61-64 | Once the tree is formed, pressing button k (k < 5) selects exactly the k-th id of the list. With no bar, or no such button, the selection is unchanged. An explicit selection stays explicit. |
| `AppModel.EveryKindSelectable` | App.tsx:59-64 | Once the tree is formed, one press selects any of the five decoration kinds, whatever was selected before. |
| `AppModel.InitialView` | App.tsx:7-15 | All four flags start false and the selection starts as 'westie'. The first effect run shows the camera-access message, and no bar is shown. |
| `AppModel.SelectionsAreExplicit` | App.tsx:14-35 | Every selection reachable from 'westie' by bar presses is dispatched to its own builder, never to the fallback. |
| `Decorations.KindOf` | components/Scene.tsx:459-466 | A string maps to the kind whose id it is exactly when it is one of the five ids. Any other string maps to the westie. |
| `Decorations.DispatchRoundTrip` | components/Scene.tsx:459-464 | Dispatching on a kind's own id gives that kind back. |
| `Decorations.Place` | components/Scene.tsx:468-487 | The decoration sits at the hit point and looks horizontally away from the tree axis. It starts at scale 0, with target scale in [0.4, 1.2), sway amplitude in [0.15, 0.4) and sway period in [1.2, 2.2). |
| `Gesture.TipDistance` | components/Scene.tsx:289-292 | A fingertip's distance is non-negative whenever the square root is. A fingertip on the wrist's position in the image plane is at distance sqrt(0). |
| `Gesture.DepthIgnored` | components/Scene.tsx:289-292 | The distance uses only x and y: changing every landmark's depth leaves it unchanged. |
| `Gesture.TotalDistance` | components/Scene.tsx:286-293 | The accumulation loop over fingertips 8, 12, 16 and 20 returns the sum of their four wrist distances. |
| `Gesture.FoldIsFistDistance` | components/Scene.tsx:286-293 | Adding the distances of the fingertip list from left to right gives the sum of the four distances, and every fingertip index lies inside a 21-landmark hand. |
| `Gesture.OnResults` | components/Scene.tsx:282-297 | With a hand present, `isFist` becomes exactly (sum < 0.6). With none (missing or empty list), it becomes false. The other three flags are unchanged. |
| `Gesture.FistHasEveryTipClose` | components/Scene.tsx:287-294 | With non-negative distances, a fist has each of the four fingertips within 0.6 of the wrist. |
| `Gesture.TightHandIsFist` | components/Scene.tsx:287-294 | If every fingertip is within 0.15 of the wrist, the hand is a fist. |
| `Formation.Step` | components/Scene.tsx:421-437 | Only the camera event sets `cameraActive`. Only a fist signal changes `isFist`, and it sets it to the signalled value. |
| `Formation.InitialIsDormant` | App.tsx:7-12 | The start-up state satisfies the machine invariant and is Dormant. |
| `Formation.StepTransitions` | components/Scene.tsx:422-437 | Every step keeps the invariant. Dormant is left only for WakingUp, and exactly on a formation effect whose guard holds. WakingUp is left only for Formed, and exactly on tween completion. Formed is never left. |
| `Formation.StartEffect` | components/Scene.tsx:422-423 | When the guard holds, starting sets `isWakingUp`, changes nothing else in the record, and arms the completion callback. |
| `Formation.CompleteEffect` | components/Scene.tsx:432-435 | Completion sets `isFormed` and `treeFormed`, clears `isWakingUp` and brings the gift count to 90. |
| `Formation.RunKeepsInv` | components/Scene.tsx:421-441 | Over any sequence of events the state is never formed and waking at once. The completion is pending exactly while waking. `treeFormed` equals `isFormed`, and there are 90 gifts exactly when formed. |
| `Formation.FormedIsFinal` | components/Scene.tsx:422 | Once formed, any later events leave the tree formed with 90 gifts, and the start guard never holds again. |
| `Formation.FormedOnlyAfterWakingUp` | components/Scene.tsx:428-437 | A run that ends formed passed through WakingUp and then received the tween completion. |
| `ParticleLayout.SlotsOfParticle` | components/Scene.tsx:343-359 | Particle i < 8000 writes slots 3i..3i+2. These slots lie below 3·8000 and belong to particle i alone. |
| `ParticleLayout.HelixT` | components/Scene.tsx:348-349 | t = (i / 4000) % 1 lies in [0, 1) and equals the particle's index within its own helix divided by 4000. |
| `ParticleLayout.AngleOverPi` | components/Scene.tsx:351 | Helix 1 angles lie in [0, 10π), five turns. Helix 2 angles lie in [π, 11π), the same turns offset by π. |
| `ParticleLayout.TargetCoord` | components/Scene.tsx:354-356 | The vertical component of a particle's place on the tree lies in [-5, 5). |
| `ParticleLayout.TargetOnCircle` | components/Scene.tsx:351-356 | If cos² + sin² = 1, a particle's horizontal target lies on the circle of its cone radius: x² + z² = r². |
| `ParticleLayout.TargetHeight` | components/Scene.tsx:350-355 | The tree height of a particle lies in [-5, 5). |
| `ParticleLayout.TargetRadius` | components/Scene.tsx:352 | The cone radius of a particle lies in (0.2, 4.2]. |
| `ParticleLayout.HelicesAreHalfATurnApart` | components/Scene.tsx:348-352 | Indices below 4000 form helix 1 and the rest helix 2. Particle i and particle i + 4000 share t, height and radius, and their angles differ by exactly pi. |
| `ParticleLayout.ConeNarrowsUpwards` | components/Scene.tsx:349-352 | Within one helix, a later particle sits higher and on a smaller radius. |
| `ParticleLayout.Scatter` | components/Scene.tsx:344-346 | A starting coordinate lies in [-25, 25). |
| `ParticleLayout.Lerp` | components/Scene.tsx:358 | A colour channel mixed by a draw in [0, 1] lies between the two endpoint channels. |
| `ParticleLayout.ParticleSlots` | components/Scene.tsx:343-359 | In the filled buffers each particle starts inside the 50-unit cube. Each target slot holds that particle's place on the tree, whose height lies in [-5, 5). |
| `GiftLayout.RibbonIndex` | components/Scene.tsx:243 | floor(r · 5) indexes the five ribbon colours. |
| `GiftLayout.GiftDistance` | components/Scene.tsx:249 | A gift's distance from the axis lies in [1.0, 5.5). |
| `GiftLayout.StackFactor` | components/Scene.tsx:250 | The stacking allowance lies in [0, 2] and is 0 from distance 5 outwards. |
| `GiftLayout.GiftHeight` | components/Scene.tsx:250-251 | A gift rests between heights -5 and -3, and at exactly -5 from distance 5 outwards. |
| `GiftLayout.MakeGift` | components/Scene.tsx:239-258 | Gift i has box colour i % 8 and a ribbon colour from the list. It starts at scale 0, rests between heights -5 and -3, has size in [0.25, 1.05) and ribbon in [0.15, 0.4), yaw in [0, π) and tilts in [-0.15, 0.15). |
| `GiftLayout.GiftBatch` | components/Scene.tsx:238-259 | Exactly 90 gifts are created. |
| `GiftLayout.GiftBatchShape` | components/Scene.tsx:238-266 | Gift i has box colour i % 8 and a ribbon colour from the list. Its scale starts at 0, its height lies in [-5, -3], size in [0.25, 1.05) and ribbon in [0.15, 0.4). Its entrance delay is after gift i-1's. On the unit circle its horizontal distance lies in [1, 5.5). |
| `SceneGraph.FillParticleBuffers` | components/Scene.tsx:335-360 | The initialisation loop leaves each of the three arrays equal to its specified buffer. |
| `SceneGraph.WriteParticle` | components/Scene.tsx:343-359 | One turn of the loop writes particle i's three slots of each array with their specified values and leaves every other slot unchanged. |
| `SceneGraph.SceneHandle.constructor` | components/Scene.tsx:335-392 | A new scene has its filled buffers and the five top-level children in order. Both groups are empty and `treeFormed` is false. |
| `SceneGraph.SceneHandle.AddGifts` | components/Scene.tsx:234-268 | The gifts group grows by exactly the 90-gift batch, in order. Nothing else changes. |
| `SceneGraph.SceneHandle.CompleteFormation` | components/Scene.tsx:428-437 | Completion runs once, on a scene whose tree is not yet formed: the one-way machine in `Formation` arms the callback only from Dormant. At completion, every particle position equals its target and `treeFormed` is set. The 90 gifts are added, and the targets, colours, children and decorations are unchanged. The scene invariant, which includes 90 gifts exactly when `treeFormed`, still holds. |
| `SceneGraph.SceneHandle.PlaceOnClick` | components/Scene.tsx:451-489 | The proxy cone is added and removed, so the children end as they began. The gifts and `treeFormed` are unchanged. Exactly one decoration of the dispatched kind is added at the first hit when there is one, and none otherwise. |
| `SceneGraph.HandleClick` | components/Scene.tsx:443-490 | A click while not formed leaves the scene entirely unchanged. A click while formed adds exactly one decoration of the dispatched kind at the first hit when there is one, and none otherwise. The children, gifts and `treeFormed` never change. |

## Left out

- MediaPipe `Hands` and `Camera` set-up, the landmark stream and camera start/stop are external, asynchronous I/O. Camera start appears only as the `CameraStarted` event that sets `cameraActive`.
- The renderer, controls, bloom pass, frame loop, resize handling and teardown are rendering plumbing with no logic to verify.
- GSAP tweens are time-driven and external. Easing, intermediate frames, the halo fade, the star scale-in and the running idle sway are not modelled. Only their completion and their target values are: particle positions equal their targets, gift scale 0 with its delay, decoration target scale and sway.
- The ray cast and the camera projection are not modelled. The cone's hit points are an input.
- The geometry builders (star, westie, bell, ornament, snowflake, candy cane, gift) are fixed primitive hierarchies, i.e. data. This includes the ornament builder's own random colour draw. A decoration records only its kind.
- `lookAt` orientation is recorded as the point looked at, not as a rotation.
- Floating-point arithmetic is modelled with exact reals. JavaScript's `%` on non-negative numbers is modelled as the fractional part. THREE.Color's colour-space conversion is not modelled: the two endpoint colours are parameters.
- The labels and style classes of the selection bar buttons are JSX styling.
- React's batching of state updates is modelled as atomic steps. A stale state observed for one frame is not modelled.
- `ParticleLayout.TargetOnCircle`: states the horizontal radius only for a trigonometric pair that satisfies cos² + sin² = 1, because cosine and sine are parameters.
- `GiftLayout.GiftBatchShape`: states the annulus bound only for a trigonometric pair that satisfies cos² + sin² = 1, because cosine and sine are parameters.
