# Juice: a verified model of the store and its state machines

This project models the core of the juice web app in Dafny. The app has three parts:

- **The slider.** A user drags a mercury slider to set a "vibe" between 0 (depleted) and 1 (hyper).
- **The warp and the views.** Releasing the slider near either end warps into the app proper. There the user can:
  - pull the orb to dive into the bottle stash;
  - zoom in on a bottle;
  - drag ingredients into the lab's vessel;
  - press a batch and hold a biometric pad to check out.

The model covers the following:

- **The zustand store.** It is the class `AppStore.Store`, with one field holding the whole state record. Each setter replaces that record with a copy that has the named fields changed.
- **Store helpers.** These are the `#rrggbb` colour parsing and printing (`Colour`), the colour blend and the sommelier's message table (`Mixing`), and the snap-back commit rule and the eased commit sample (`AppStore`).
- **The vibe derivations.** These are the piecewise-linear maps from the vibe to the material parameters and to the slider colour (`VibeDerivations`).
- **The per-frame state machines.** Each component that keeps refs between frames is a class:
  - its fields are the refs;
  - each event handler is a method;
  - each per-frame step is a method `Frame`.

  The components modelled this way are the warp camera, the dive camera, the macro camera, the fluid tank, the biometric pad, the haptic engine, the audio engine, the mercury slider, the orb and the ingredient node.
- **The navigation and selection predicates.** These cover the dock, the keyboard buttons, the sommelier panel, the scene table, the screen-reader text and the depth-of-field switch.
- **The server action `generatePaymentIntent`.**

Browser timers are a handle table (`Timers.Timers`). A handle is fresh when it is handed out, the table records the delay it was created with, and a timeout or interval cannot fire once cleared. `navigator.vibrate` and the synth's attack and release are command logs. The three.js camera is a class with a position and a field of view.

The following are parameters of the operations that use them:

- `Math.random`, `Math.sin` and the logarithm;
- the audio context's state;
- the ray–plane intersection;
- the carousel's bottle position;
- the Payment Request API's presence.

Numbers are `real`. `Math.round(x)` is `Floor(x + 0.5)`. JavaScript's truncating `%` is written out where its sign matters.

The main results are:

- **Colour round-trips.** `hexToRgb(rgbToHex(...))` gives back the clamped and rounded channels. `rgbToHex(hexToRgb(h))` gives back `h` in lower case.
- **Blending.** A blend stays channel-wise between its two colours. The message table is independent of the order of earlier additions.
- **Snap-back.** It always lands on 0, 0.5 or 1, and it is idempotent.
- **Appending.** Any sequence of mixes only appends to the ingredient list.
- **The warp ramps.** Both ramps only intensify, and they reach exactly 3.0 and 0.1.
- **Camera steps.** A camera step never moves away from its target.
- **Timer handling.** The haptic engine never holds more than one interval and never leaks one. The biometric pad's release disarms both handles it holds. When the hold timer fires, the buzz interval stops, unless the server call was rejected.
- **Audio.** Attack and release events alternate.
- **Absorption.** An absorbed ingredient shrinks to zero in a bounded number of frames.
- **Tables.** The dock's id-to-view table is a bijection.
- **Checkout pricing.** Checkout always charges 45 for a non-empty cart, whatever the cart holds.

Two behaviours of the code are worth stating outright:

- **`snapBack`.** It sets the committed vibe directly, with no animation (`store/use-store.ts:129-140`). The eased 400 ms animation is only in `commitVibe`, and `snapBack` never calls it. `commitVibe` is modelled on its own, as `AppStore.CommitSample` and `AppStore.CommitAnimation`.
- **The synth pitch at a neutral vibe.** It is `lerp(80, 800, 0.5)` = 440 Hz (`components/vibe-slider/audio-engine.tsx:94`). The inline comment at `components/vibe-slider/audio-engine.tsx:93` says 200 Hz. The model follows the computation.

## Model

| member | source | states |
|---|---|---|
| Colour.HexToRgb | store/use-store.ts:6-9 | each channel is a byte; the private copy in store/vibe-derivations.ts:37-40 is the same function |
| Colour.ParseIntHex | store/use-store.ts:7 | `parseInt(s, 16)`: it skips leading JS white space, takes a sign and an optional `0x`, and reads the longest hex-digit prefix; `None` (NaN) exactly when there is no digit |
| Colour.RoundJs | store/use-store.ts:16 | `Math.round`: the nearest integer, with halves rounded up |
| Colour.ChannelByte | store/use-store.ts:16 | a channel is clamped to [0, 255] and then rounded, so it is always a byte |
| Colour.RgbToHex | store/use-store.ts:11-22 | always `#` followed by six lower-case hex digits, whatever the channels |
| Colour.PaddedHexIsByteHex | store/use-store.ts:17-18 | `toString(16).padStart(2, "0")` prints every byte as exactly its two digits |
| Colour.HexToRgbReadsPairs | store/use-store.ts:6-9 | on a well-formed `#rrggbb`, the shifts and masks read the three digit pairs |
| Colour.HexRoundTrip | store/use-store.ts:6-22 | `rgbToHex(...hexToRgb(h))` is `h` in lower case |
| Colour.RgbRoundTrip | store/use-store.ts:6-22 | `hexToRgb(rgbToHex(r, g, b))` gives the clamped, rounded channels |
| Mixing.BlendChannel | store/use-store.ts:27-29 | one channel `a(1 - w) + b w`: the first channel at weight 0 and the second at weight 1 |
| Mixing.BlendColors | store/use-store.ts:24-31 | the blend is always a well-formed lower-case colour |
| Mixing.BlendStaysBetween | store/use-store.ts:24-31 | for a weight in [0, 1], each blended channel lies between the two input channels |
| Mixing.BlendEndpoints | store/use-store.ts:24-31 | weight 0 gives the first colour and weight 1 the second, both lower-cased |
| Mixing.WhiteTowardBlack | store/use-store.ts:24-31 | white blended toward black at 0.35 is `#a6a6a6` |
| Mixing.WhiteTowardCharcoal | store/use-store.ts:24-31 | white blended toward `#111111` at 0.35 is `#acacac` |
| Mixing.GetMessageForMix | store/use-store.ts:33-52 | each text is given iff its rule holds and no earlier rule does, in the order beet+kale, beet+charcoal, ginger+kale, charcoal+ginger, three or more items, then the new id's own note (charcoal, beet, kale or ginger), then the fallback |
| Mixing.MidnightBeforeSmokyGold | store/use-store.ts:40-45 | with beet, charcoal and ginger present, in either order of addition, beet+charcoal is matched before charcoal+ginger |
| Mixing.MessageIgnoresOrder | store/use-store.ts:33-52 | reordering the earlier additions never changes the message |
| Mixing.BoldChoiceEitherOrder | store/use-store.ts:40-41 | kale then beet and beet then kale both give the beet+kale text |
| AppStore.Initial | store/use-store.ts:103-170 | the store starts at vibe 0.5 in phase input on the orb, with no overrides, no focus, zoom 1, dof 1, no ingredients, a white `#ffffff` vessel, the sommelier's greeting and checkout idle |
| AppStore.Clamp01 | store/use-store.ts:105 | the stored vibe is always in [0, 1]; a vibe already in range is kept, below 0 gives 0, and above 1 gives 1 |
| AppStore.SnapBackOf | store/use-store.ts:129-140 | vibe becomes 1 iff it was above 0.8, 0 iff below 0.2, and 0.5 otherwise; the phase becomes exiting iff an end was reached; nothing else changes |
| AppStore.SnapBackBoundaries | store/use-store.ts:131-138 | the thresholds are strict: 0.8 and 0.2 themselves snap to 0.5 |
| AppStore.SnapBackIdempotent | store/use-store.ts:129-140 | snapping back twice is snapping back once |
| AppStore.CommitSample | store/use-store.ts:115-127 | the sample is the start value at time 0 and the target from 400 ms on |
| AppStore.CommitSampleWithin | store/use-store.ts:119-122 | every sample lies between the start and the target |
| AppStore.CommitSampleApproaches | store/use-store.ts:119-122 | a later sample is never further from the target |
| AppStore.MixOf | store/use-store.ts:157-167 | appends the id; the new colour is the old one blended 35% toward the ingredient's, so each channel lies between the two; the message is taken for the old list plus the id; nothing else changes |
| AppStore.ReplayAppends | store/use-store.ts:157-167 | any step that only appends, replayed over a list of drops, appends their ids in order and changes nothing outside the lab's three fields |
| AppStore.MixAllAppends | store/use-store.ts:157-167 | any sequence of mixes appends exactly the mixed ids |
| AppStore.KaleThenBeet | store/use-store.ts:157-167 | from an empty lab, kale then beet leaves `["kale", "beet"]` and the beet+kale message |
| AppStore.CharcoalIntoFreshVessel | store/use-store.ts:157-167 | charcoal (`#111111`) into the fresh white vessel turns the liquid `#acacac`, lists `["charcoal"]` and gives charcoal's own note |
| AppStore.Store.constructor | store/use-store.ts:103-170 | the store is created with the initial record |
| AppStore.Store.SetVibe | store/use-store.ts:105 | only the vibe changes, to its clamp into [0, 1] |
| AppStore.Store.SetPhase | store/use-store.ts:107 | only the phase changes |
| AppStore.Store.SetActiveView | store/use-store.ts:109 | only the active view changes |
| AppStore.Store.SetIsDiving | store/use-store.ts:111 | only the diving flag changes |
| AppStore.Store.SetIsDragging | store/use-store.ts:113 | only the dragging flag changes |
| AppStore.Store.SetWarpDistortion | store/use-store.ts:143 | only the distortion override changes |
| AppStore.Store.SetWarpChromaticOffset | store/use-store.ts:144 | only the chromatic override changes |
| AppStore.Store.SetFocusedBottleIndex | store/use-store.ts:147 | only the focus changes |
| AppStore.Store.SetZoomLevel | store/use-store.ts:149 | only the zoom level changes |
| AppStore.Store.SetDofFocusDistance | store/use-store.ts:151 | only the focus distance changes |
| AppStore.Store.SetCheckoutState | store/use-store.ts:170 | only the checkout state changes |
| AppStore.Store.SnapBack | store/use-store.ts:129-140 | made through the store's own setters, the new state is the snap-back of the old |
| AppStore.Store.MixIngredient | store/use-store.ts:157-167 | the new state is the mix of the old one |
| AppStore.CommitAnimation.Frame | store/use-store.ts:118-124 | each frame writes the eased sample and asks for another frame iff under 400 ms have passed; the last frame writes the target |
| AppStore.CommitAnimation.constructor | store/use-store.ts:116-117 | the animation captures the store's vibe at the call as its start, the target, and the start time |
| VibeDerivations.Lerp | store/vibe-derivations.ts:6-8 | gives `a` at 0 and `b` at 1 |
| VibeDerivations.LerpWithin | store/vibe-derivations.ts:6-8 | on [0, 1] the result lies between `a` and `b` |
| VibeDerivations.Lerp3 | store/vibe-derivations.ts:10-13 | passes through `v0`, `v05` and `v1` at 0, 0.5 and 1, and both halves agree at 0.5 |
| VibeDerivations.Lerp3Within | store/vibe-derivations.ts:10-13 | each half stays between its two anchors |
| VibeDerivations.GetViscosity | store/vibe-derivations.ts:15-17 | falls linearly from 0.9 to 0.1 over [0, 1] |
| VibeDerivations.GetDistortion | store/vibe-derivations.ts:19-21 | 0.4, 0.1 and 1.2 at the three anchors |
| VibeDerivations.DistortionRange | store/vibe-derivations.ts:19-21 | stays in [0.1, 1.2] on [0, 1] |
| VibeDerivations.GetDistortionScale | store/vibe-derivations.ts:23-25 | 0.3, 0.1 and 0.8 at the anchors |
| VibeDerivations.DistortionScaleRange | store/vibe-derivations.ts:23-25 | stays in [0.1, 0.8] on [0, 1] |
| VibeDerivations.GetTemporalDistortion | store/vibe-derivations.ts:27-29 | 0.05, 0 and 0.3 at the anchors |
| VibeDerivations.TemporalDistortionRange | store/vibe-derivations.ts:27-29 | stays in [0, 0.3] on [0, 1] |
| VibeDerivations.GetChromaticOffset | store/vibe-derivations.ts:31-33 | 0.005, 0 and 0.02 at the anchors |
| VibeDerivations.ChromaticOffsetRange | store/vibe-derivations.ts:31-33 | never negative on [0, 1], with its maximum at vibe 1 |
| VibeDerivations.GetColor | store/vibe-derivations.ts:55-73 | always a well-formed lower-case colour |
| VibeDerivations.ColorAtZero | store/vibe-derivations.ts:35-65 | vibe 0 gives the depleted colour `#1a0b2e` |
| VibeDerivations.ColorAtHalf | store/vibe-derivations.ts:35-72 | vibe 0.5 gives the neutral silver `#c0c0c0` |
| VibeDerivations.ColorAtOne | store/vibe-derivations.ts:35-72 | vibe 1 gives the hyper colour `#ccff00` |
| CheckoutAction.Price | app/actions/checkout.ts:7-23 | 45 exactly for `custom_batch`, 12 for any other id |
| CheckoutAction.PriceSum | app/actions/checkout.ts:20-23 | the loop's running sum: never negative, and 0 exactly for an empty cart |
| CheckoutAction.PriceSumBounds | app/actions/checkout.ts:20-23 | the per-item sum lies between 12 and 45 per item |
| CheckoutAction.GeneratePaymentIntent | app/actions/checkout.ts:17-37 | always ok and without a client secret; the total is 45 for a non-empty cart and 0 for an empty one; the loop's sum is the per-item sum, and it is discarded |
| CheckoutAction.ItemSumDiscarded | app/actions/checkout.ts:20-27 | a two-item cart sums to 24 but is charged 45 |
| BiometricPad.Visible | components/checkout/biometric-pad.tsx:20-23 | the pad shows exactly on the checkout view while the fluid column is not mounted, so the two are never on screen together |
| BiometricPad.Pad.constructor | components/checkout/biometric-pad.tsx:17-18 | both the hold-timer ref and the buzz-interval ref start null |
| BiometricPad.Pad.OnPointerDown | components/checkout/biometric-pad.tsx:25-67 | scanning starts; a fresh 1500 ms hold timeout is armed, plus a fresh 100 ms haptic interval only when vibration is available; handles held from an earlier press stay armed |
| BiometricPad.Pad.OnPointerUp | components/checkout/biometric-pad.tsx:69-79 | both pending handles are cleared and forgotten; scanning returns to idle, and any other state is left as it is |
| BiometricPad.Pad.HoldTimerFires | components/checkout/biometric-pad.tsx:27-63 | the fired timeout leaves the table and the state becomes filling; the haptic interval is cleared, except when the Payment Request API exists and the server call is rejected, when it stays armed and referenced |
| FluidTank.Mounted | components/checkout/fluid-tank.tsx:53-55 | the column is mounted exactly in filling, draining and complete |
| FluidTank.Tank.constructor | components/checkout/fluid-tank.tsx:18-22 | no mesh yet, and both one-shot latches clear |
| FluidTank.Tank.Render | components/checkout/fluid-tank.tsx:24-58 | idle and scanning unmount the mesh and reset both latches; otherwise the mesh mounts at -15 |
| FluidTank.Tank.Frame | components/checkout/fluid-tank.tsx:31-51 | filling moves y to exactly `lerp(y, 0, min(1, 4 delta))`, without passing 0, and sets draining exactly on the first frame above -0.5 with its latch clear; draining moves y to `lerp(y, -20, min(1, 12 delta))` and sets complete exactly on the first frame below -15; each latch, once set, stays set; without a mesh or in any other state nothing changes |
| FluidTank.FillRises | components/checkout/fluid-tank.tsx:36 | a fill step from below rises without passing the target |
| DiveCamera.FovAt | components/transitions/dive-camera.tsx:39-40 | the field of view stays in [45, 120]: 45 at z 5 and above, 120 at z -8 and below |
| DiveCamera.Rig.constructor | components/transitions/dive-camera.tsx:19-21 | the handoff, emergence and dive-started latches all start clear |
| DiveCamera.Rig.Frame | components/transitions/dive-camera.tsx:23-55 | not diving: the latches clear and nothing else changes. Diving: z falls by `12 delta` from where it was, or from 5 on the dive's first frame, with fov `FovAt(z)`; the stash is selected exactly on the first frame below -2; on the first frame below -8 the camera is back at z 5 and fov 45 and the dive ends; each latch stays set for the rest of the dive, and emergence never comes before the hand-over |
| WarpCamera.Ramp | components/vibe-slider/warp-camera.tsx:47-50 | the eased ramp starts at its start value and is exactly its target once progress reaches 1 |
| WarpCamera.RampRises | components/vibe-slider/warp-camera.tsx:47-50 | an upward ramp never decreases with progress and never passes its target |
| WarpCamera.WarpDistortionAt | components/vibe-slider/warp-camera.tsx:43-49 | starts at the vibe's distortion and is exactly 3.0 from progress 1 on |
| WarpCamera.WarpChromaticAt | components/vibe-slider/warp-camera.tsx:44-50 | starts at the vibe's chromatic offset and is exactly 0.1 from progress 1 on |
| WarpCamera.WarpRampRises | components/vibe-slider/warp-camera.tsx:42-50 | for a vibe in [0, 1] both overrides only intensify, up to 3.0 and 0.1 |
| WarpCamera.CameraZ | components/vibe-slider/warp-camera.tsx:52-56 | from progress 1 on the depth no longer changes: every later frame sits at `5 (1 - log10(10))` |
| WarpCamera.CameraZEndpoints | components/vibe-slider/warp-camera.tsx:52-56 | the flight starts at z 5 and is at z 0 from progress 1 on |
| WarpCamera.ShakeAt | components/vibe-slider/warp-camera.tsx:58-65 | there is no shake while z is at least 2 |
| WarpCamera.ShakeBounded | components/vibe-slider/warp-camera.tsx:58-61 | below depth 2, for a `Math.random()` draw in [0, 1), each axis shakes by at most `(1 - z/2) 0.075` either way |
| WarpCamera.Rig.constructor | components/vibe-slider/warp-camera.tsx:20-23 | not triggered, both progress counters at 0, and the previous phase is the phase at mount |
| WarpCamera.Rig.Frame | components/vibe-slider/warp-camera.tsx:25-66 | outside exiting, it writes nothing except the two nulls on the first frame after leaving it; in exiting, the accumulators restart only on the first exiting frame since mounting, both overrides follow the ramps, and the camera follows the logarithmic flight with shake only below z 2 |
| WarpCamera.Rig.WarpStep | components/vibe-slider/warp-camera.tsx:42-50 | the warp clock advances by `delta / 1.5 s`, and both overrides are written from the ramps at the new progress, from the vibe's own values |
| WarpCamera.Rig.FlyStep | components/vibe-slider/warp-camera.tsx:52-65 | the flight advances by `0.6 delta`, and the camera sits at the flight's depth, shaken on x and y only below z 2, with its field of view untouched |
| HapticEngine.ZoneOf | components/vibe-slider/haptic-engine.tsx:38-41 | depleted iff below 0.3, hyper iff above 0.7, and neutral on [0.3, 0.7] |
| HapticEngine.CommandFor | components/vibe-slider/haptic-engine.tsx:51-67 | entering a zone gives the heartbeat `[200, 50, 100, 500]`, the six 10 ms buzzes, or a stop for neutral |
| HapticEngine.PeriodFor | components/vibe-slider/haptic-engine.tsx:57-64 | depleted repeats every 850 ms and hyper every 80 ms |
| HapticEngine.Engine.constructor | components/vibe-slider/haptic-engine.tsx:10-20 | subscribed only when vibration is available, starting neutral with no interval |
| HapticEngine.Engine.Update | components/vibe-slider/haptic-engine.tsx:20-68 | release: stop, clear the interval, reset to neutral. Drag: pulse while the last pattern was neutral, stay quiet on an unchanged zone, and on a change replace the old interval by at most one fresh one |
| HapticEngine.Engine.Release | components/vibe-slider/haptic-engine.tsx:23-31 | on release the motor is stopped, the interval is cleared and forgotten, and the zone returns to neutral |
| HapticEngine.Engine.StopRepeating | components/vibe-slider/haptic-engine.tsx:46-49 | the running interval, if any, is cleared and forgotten; the zone and the log are kept |
| HapticEngine.Engine.Repeat | components/vibe-slider/haptic-engine.tsx:53-64 | a fresh interval is armed with the zone's period, 850 ms or 80 ms, and is the only one added to the table |
| HapticEngine.Engine.Enter | components/vibe-slider/haptic-engine.tsx:44-67 | the old interval is cleared before the zone's command is issued and its interval armed |
| HapticEngine.Engine.IntervalTick | components/vibe-slider/haptic-engine.tsx:53-64 | the running interval repeats its pattern only while the store says dragging |
| HapticEngine.Engine.Teardown | components/vibe-slider/haptic-engine.tsx:70-74 | unsubscribes, clears the interval and stops the motor, but only if it was subscribed |
| AudioEngine.Lerp | components/vibe-slider/audio-engine.tsx:8-10 | `a + (b - a) t`: a at 0 and b at 1 |
| AudioEngine.Frequency | components/vibe-slider/audio-engine.tsx:94 | 80 Hz at vibe 0, 440 Hz at 0.5 and 800 Hz at 1, in [80, 800] on [0, 1] |
| AudioEngine.FilterFrequency | components/vibe-slider/audio-engine.tsx:97 | 200 Hz at vibe 0 and 15000 Hz at 1, in between on [0, 1] |
| AudioEngine.Bits | components/vibe-slider/audio-engine.tsx:100 | 16 bits at vibe 0 and 4 at 1, in between on [0, 1] |
| AudioEngine.GainTarget | components/vibe-slider/audio-engine.tsx:103-104 | silent when not dragging; when dragging at least 0.05, at most 0.3 on [0, 1], 0.05 at neutral and 0.3 at either end |
| AudioEngine.GainRampSeconds | components/vibe-slider/audio-engine.tsx:105 | a 0.05 s ramp while dragging and a 0.3 s fade otherwise |
| AudioEngine.Engine.constructor | components/vibe-slider/audio-engine.tsx:20-25 | at the first render every node ref is null, nothing has been played and no edge is logged |
| AudioEngine.Engine.Mount | components/vibe-slider/audio-engine.tsx:27-51 | the effect builds the chain once, with the gain at 0, the filter at 2000 Hz and 16 bits; a second run changes nothing |
| AudioEngine.Engine.Frame | components/vibe-slider/audio-engine.tsx:64-106 | does nothing until the nodes exist and the context runs; then logs an attack or release edge exactly when the drag flag differs from the tracked one, and ramps all four parameters from the vibe |
| AudioEngine.PressesBalanceReleases | components/vibe-slider/audio-engine.tsx:81-91 | under alternation, releases are half the edges rounded down: never more releases than presses, and one press is open exactly when the count is odd |
| MercurySlider.DragVibe | components/vibe-slider/mercury-slider.tsx:72-77 | always in [0, 1]; no travel keeps the start vibe; 40% of the viewport height up saturates at 1 and down at 0 |
| MercurySlider.DragVibeMonotone | components/vibe-slider/mercury-slider.tsx:72-77 | dragging further up never lowers the vibe |
| MercurySlider.Slider.constructor | components/vibe-slider/mercury-slider.tsx:25-27 | no drag start is recorded |
| MercurySlider.Slider.PointerDown | components/vibe-slider/mercury-slider.tsx:51-67 | dragging starts and the drag start records the pointer and the current vibe |
| MercurySlider.Slider.PointerMove | components/vibe-slider/mercury-slider.tsx:69-79 | without a drag start nothing changes; otherwise only the vibe changes, measured from the drag start |
| MercurySlider.Slider.PointerUp | components/vibe-slider/mercury-slider.tsx:81-90 | dragging ends, the drag start is cleared, and the vibe snaps to 0, 0.5 or 1 |
| MercurySlider.ParamsOf | components/vibe-slider/mercury-slider.tsx:30-49 | y is 0 at neutral and in [-2, 2]; scale is 1 when not dragging and at most 1.15; the warp override wins whenever set; the other parameters follow the vibe |
| ChromaticEffect.OffsetOf | components/vibe-slider/chromatic-effect.tsx:20-24 | the override is used whenever it is set, otherwise the vibe's offset; no vertical offset |
| ChromaticEffect.ZeroOverrideWins | components/vibe-slider/chromatic-effect.tsx:22 | an override of 0 still wins over the vibe's positive offset |
| ChromaticEffect.ShowDoF | components/vibe-slider/chromatic-effect.tsx:26 | the depth of field shows only in the stash, and never while the focus distance is 0.5 or more |
| ChromaticEffect.ResetHidesDoF | components/vibe-slider/chromatic-effect.tsx:26 | at the reset focus distance 1 the depth of field is hidden, even in the stash |
| OrbScene.Pull | components/orb/orb-scene.tsx:40-68 | never negative, 0 for an upward drag, otherwise the drop below the press point |
| OrbScene.Orb.constructor | components/orb/orb-scene.tsx:21-23 | not dragging, with both pointer heights at 0 |
| OrbScene.Orb.SquashY | components/orb/orb-scene.tsx:39-44 | 1 when not dragging or not pulled, otherwise `1 - 0.1 * pull` |
| OrbScene.Orb.PointerDown | components/orb/orb-scene.tsx:47-55 | a drag starts with no pull |
| OrbScene.Orb.PointerMove | components/orb/orb-scene.tsx:57-61 | the pointer is tracked only during a drag |
| OrbScene.Orb.PointerUp | components/orb/orb-scene.tsx:63-73 | ends the drag and requests the dive iff the pull reached 1.5; without a drag nothing is written |
| MacroCamera.TargetFor | components/stash/macro-camera.tsx:48-59 | level 2 heads 1.2 in front of the bottle and level 3 0.3 behind it |
| MacroCamera.Rig.constructor | components/stash/macro-camera.tsx:25 | the target ref starts at (0, 0, 5) |
| Three.Factor | components/checkout/fluid-tank.tsx:36 | `Math.min(1, delta * speed)` is a lerp factor in [0, 1], and 1 exactly when `delta * speed` reaches 1 |
| Three.Camera.constructor | components/vibe-slider/vibe-scene.tsx:41 | the canvas camera starts at (0, 0, 5) with a 45° field of view |
| MacroCamera.Rig.Approach | components/stash/macro-camera.tsx:49-60 | the camera moves to the lerp toward the target, never further from it, with the fov untouched |
| MacroCamera.Rig.Frame | components/stash/macro-camera.tsx:27-62 | outside the stash, without a carousel or at level 1, nothing moves; with no focus the camera heads home; at level 2 it hands over to level 3 with dof 0.025 once within 0.4; level 3 moves slower with no store write; the camera never moves away from its target; level 3 is entered only from level 2 with a focus |
| GlassBottle.JsRem3 | components/stash/glass-bottle.tsx:21 | JavaScript's `% 3`: it agrees with the Euclidean remainder for a non-negative index and is never positive for a negative one |
| GlassBottle.JuiceColor | components/stash/glass-bottle.tsx:10-21 | a non-negative index gets `JUICE_COLORS[index % 3]`; a negative index not divisible by 3 gets `undefined` |
| GlassBottle.JuiceColorsCycle | components/stash/glass-bottle.tsx:10-21 | colours repeat every three bottles and neighbours differ |
| GlassBottle.EmissiveAt | components/stash/glass-bottle.tsx:12-38 | stays in [0.05, 0.35] and reaches both ends |
| GlassBottle.TransmissionAt | components/stash/glass-bottle.tsx:41-42 | stays in [0.92, 1] |
| GlassBottle.Bottle.IsFocused | components/stash/glass-bottle.tsx:29 | a bottle is focused only when the store's focus is its own index, and none is with no focus |
| GlassBottle.Bottle.constructor | components/stash/glass-bottle.tsx:20-22 | the bottle keeps its index and starts unrotated |
| GlassBottle.Bottle.Frame | components/stash/glass-bottle.tsx:31-44 | only the focused bottle spins and pulses; the glass always shimmers |
| GlassBottle.Bottle.OnClick | components/stash/glass-bottle.tsx:46-51 | focuses this bottle at zoom 2 with dof 0.4, whatever the zoom was |
| StashBackButton.Visible | components/stash/stash-back-button.tsx:13 | the button shows only in the stash while some bottle is focused, whatever the zoom |
| StashBackButton.BackOf | components/stash/stash-back-button.tsx:15-19 | no focus, zoom 1, dof 1, the button hidden, and nothing else changed |
| StashBackButton.BackIdempotent | components/stash/stash-back-button.tsx:15-19 | going back twice is going back once |
| StashBackButton.HandleBack | components/stash/stash-back-button.tsx:13-19 | the new state is the back state; between the first two setters a close-up holds no focus with zoom still above 1 |
| IngredientNode.ShrinkStep | components/lab/ingredient-node.tsx:55-59 | never negative, never growing, snapped to 0 at 0.01 or below, otherwise down by 8 per second |
| IngredientNode.ShrinkReachesZero | components/lab/ingredient-node.tsx:55-59 | with frame times that vary but are each at least `d`, an absorbed node is gone after `n` frames once `8 n d` covers its scale |
| IngredientNode.InVessel | components/lab/ingredient-node.tsx:87-88 | a drop at the vessel's centre is a hit |
| IngredientNode.FarAlongXMisses | components/lab/ingredient-node.tsx:87-88 | a drop 1.5 or more from the centre along x misses, whatever its y and z |
| IngredientNode.Node.constructor | components/lab/ingredient-node.tsx:34-38 | the node sits at its starting position with that as its target, full size, not dragged and not absorbed |
| IngredientNode.Node.Frame | components/lab/ingredient-node.tsx:50-60 | the node glides toward its target without moving away from it and shrinks only once absorbed |
| IngredientNode.Node.PointerDown | components/lab/ingredient-node.tsx:62-68 | the drag starts and the target becomes the pointer; the scale invariant is kept |
| IngredientNode.Node.PointerMove | components/lab/ingredient-node.tsx:70-78 | the target follows the ray's hit only during a drag; the scale invariant is kept |
| IngredientNode.Node.PointerUp | components/lab/ingredient-node.tsx:80-95 | a drop within 1.5 of the vessel mixes this ingredient in and absorbs it; elsewhere it heads home with no store write; without a drag nothing happens; the scale invariant is kept |
| IngredientNode.DropIn | components/lab/ingredient-node.tsx:62-91 | picking the node up and letting go in the vessel mixes it in and absorbs it |
| IngredientNode.DropTwiceMixesTwice | components/lab/ingredient-node.tsx:62-91 | no handler checks `isAbsorbed`, so a node dropped in twice is mixed twice and its id appended twice |
| AISommelier.PanelOf | components/lab/ai-sommelier.tsx:11-41 | the panel shows only in the lab, with the message, and offers PRESS BATCH iff something was mixed |
| AISommelier.MixesOfferPressBatch | components/lab/ai-sommelier.tsx:41 | after any non-empty run of drops in the lab, the panel still shows, with the last message, and PRESS BATCH is offered |
| AISommelier.PressBatch | components/lab/ai-sommelier.tsx:51 | goes to checkout and closes the panel |
| HUD.Visible | components/hud/hud.tsx:34 | the dock shows exactly after the slider is left and on one of the three browsing views, never during checkout |
| HUD.ViewFor | components/hud/hud.tsx:22-27 | only the cart item leads to checkout |
| HUD.ViewForBijective | components/hud/hud.tsx:9-27 | the id-to-view table is a bijection |
| HUD.NextId | components/hud/hud.tsx:37 | the same item toggles the highlight off; any other item takes it |
| HUD.DoubleClickRestores | components/hud/hud.tsx:37 | two clicks on one item from no highlight, or from its own, restore the highlight |
| HUD.Dock.constructor | components/hud/hud.tsx:33 | no dock item is highlighted |
| HUD.Dock.HandleDockClick | components/hud/hud.tsx:36-40 | navigates to the item's view exactly when the click highlights it |
| HUD.StaleHighlightSwallowsClick | components/hud/hud.tsx:33-39 | clicking lab, going back to the orb by keyboard, then clicking lab again leaves no highlight and the orb view |
| KeyboardNav.Renders | components/vibe-slider/keyboard-nav.tsx:16 | the buttons exist exactly once the phase is exiting |
| KeyboardNav.AriaCurrent | components/vibe-slider/keyboard-nav.tsx:24-40 | no button is marked current during checkout |
| KeyboardNav.TargetOf | components/vibe-slider/keyboard-nav.tsx:23-39 | no button targets checkout |
| KeyboardNav.TargetOfInjective | components/vibe-slider/keyboard-nav.tsx:23-39 | no two buttons share a view |
| KeyboardNav.OneCurrent | components/vibe-slider/keyboard-nav.tsx:24-40 | at most one button is current, and one is iff the view is not checkout |
| KeyboardNav.Press | components/vibe-slider/keyboard-nav.tsx:23-39 | sets the button's view and nothing else, and makes that button current |
| ScreenReaderAnnouncer.CheckoutLabel | components/vibe-slider/screen-reader-announcer.tsx:15-26 | every checkout state has a non-empty sentence, so the empty fallback is never reached |
| ScreenReaderAnnouncer.CheckoutLabelInjective | components/vibe-slider/screen-reader-announcer.tsx:15-26 | every state is announced differently |
| ScreenReaderAnnouncer.Announcement | components/vibe-slider/screen-reader-announcer.tsx:35-36 | the message, a space, then the status sentence |
| ScreenReaderAnnouncer.AnnouncementReads | components/vibe-slider/screen-reader-announcer.tsx:12-13 | only the message and the checkout state are read |
| VibeScene.ScenesFor | components/vibe-slider/vibe-scene.tsx:18-30 | input mounts the slider alone; exiting mounts exactly one scene and never the slider, with checkout's scene iff the view is checkout |
| VibeScene.ShowsBackground | components/vibe-slider/vibe-scene.tsx:32-36 | the breathing background is behind the orb, the stash and the lab, and only those |
| VibeScene.CheckoutHasNoBackground | components/vibe-slider/vibe-scene.tsx:27-36 | the checkout scene never has the breathing background behind it |
| VibeScene.InitialScreen | components/vibe-slider/vibe-scene.tsx:18-36 | at start-up only the slider shows, over the background, with no dock, no keyboard buttons, no depth of field and no pad |

## Left out

- **Rendering, shaders, springs and particles.** This covers materials, geometry, the orb's entrance spring and the scene composition. They are visual output only.
- **Sound effects and Tone.js.** The sound effects (`playGlassDrop`, `playHydraulicFlood`) and Tone.js's audio graph are left out. The synth, the filter and the gain are ramp targets and an edge log. `Tone.start()` in the slider's pointer-down is the `running` input of the audio frame.
- **The Payment Request sheet.** It is left out. Two facts reach the model: whether the API exists, and whether the server call is rejected. A not-ok intent cannot occur, because the server always answers `ok`.
- **React's render snapshot.** Handlers and frames here read the store's current state. The source reads some values (phase, view, focus, zoom, checkout state) from the last render, one render behind.
- **Pointer capture, event propagation and unmounting.** The ingredient node's unmount once its scale reaches 0 is left out. So are the camera's projection-matrix updates and HMR disposal of the audio nodes.
- **The biometric pad's `vibrate(50)` ticks.** Only the interval that drives them is modelled.
- **Mixing.BlendColors: default weight.** The source's default `weight = 0.5` is not modelled; the weight is always passed, and the only caller passes 0.35.
- **Colour.ParseIntHex: precision.** It is exact for any number of digits. JavaScript loses precision beyond 2^53, but a six-digit colour never gets there.
- **CheckoutAction.Price: prototype keys.** It does not model prototype-inherited keys such as `constructor` in `PRICING_DB`. Any non-empty cart's sum is overwritten, so the result is unaffected.
- **MacroCamera.Rig.Frame: the distance test.** It compares squared distances (`< 0.16`). The source compares `distanceTo` with 0.4. The two agree because both sides are non-negative.
- **IngredientNode.InVessel: the distance test.** It compares the squared distance with 2.25, for the same reason.
- **Three.DistanceSquared: the zero case.** It states only that equal points have distance 0, not the converse.
- **WarpCamera.CameraZ: the logarithm.** It takes the logarithm as a parameter. The flight is stated at its two ends, z 5 and z 0, from log10(1) = 0 and log10(10) = 1, not at the points in between.
- **MercurySlider.Slider.PointerMove: viewport height.** It requires a positive viewport height. The canvas always has one.
- **The carousel's bottle position.** The sines and cosines of the angle are an input of the macro camera.
