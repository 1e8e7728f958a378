# Dunder Mifflin slider: navigation and detail-view state

A model of the state machine inside the React carousel component `DunderMifflinSlider`
(`src/App.jsx`). The carousel shows four fixed sections (products, employees, warehouse,
branches). The component keeps four pieces of state: the active index `current`, the theme
flag `isDarkMode`, and the detail view's `showDetails` flag and `selectedCard`. Clicks,
hovers, keys and finished swipes map onto `activate(i, scroll)`, `go(step)`,
`handleDetails`, `handleBack` or `toggleTheme`. A touchstart only records the swipe origin
`sx`/`sy`, and a resize only calls `center`.

Files:

- `options.dfy`: the `Option` type, used for a null selection, an unattached ref and a swipe that does nothing.
- `navigation.dfy`: N = 4, the clamp used by `go`, and the render predicates for the prev/next buttons and the dots.
- `sections.dfy`: the section record and its four-shape `details` payload, the well-formed static list, and the `renderDetailsContent` dispatch on `id`.
- `geometry.dfy`: the centering offset computed by `center` and the 60-pixel swipe decision.
- `slider.dfy`: the specification and the component.
  - `UiState` is the state as a value. Each handler has a transition function on it.
  - `OnEvent` routes every input the rendered page can receive. `Run` applies a sequence of inputs.
  - Lemmas state the invariants and the end-to-end scenarios.
  - `class Slider` holds the same state in fields. Each of its methods is proved to reach the state its transition function gives.

React effects that run after `current` changes are modelled as immediate updates. The
`[current]` effect at lines 163-165 recenters the active card, so the handler methods
report `recenter` exactly when `current` changed. The flag `scroll` of `activate` only adds
a second, deferred centering request, reported as `deferred`. The touch effect at lines
184-210 also re-runs on each change of `current`. It binds fresh listeners whose swipe
origin is (0, 0). This is recorded in the fields `swipeBound`, `sx` and `sy`. As written,
`center` never scrolls (see Findings).

Back is modelled twice. `OnEvent`, `Run`, `Inv` and the class use the corrected Back, which
binds the touch listeners to the remounted track. `OnEventAsWritten`, `RunAsWritten` and
`InvAsWritten` are the component exactly as written, where Back leaves the listeners on the
old track (second row of Findings).

## Model

| member | source | states |
|---|---|---|
| `Navigation.GoTarget` | src/App.jsx:147-150 | the index `go` moves to always lies in [0, N-1]; it is `current + step` when that is in range, 0 below it and N-1 above it (no wrap-around) |
| `Navigation.PrevDisabled` | src/App.jsx:357-365 | the prev button is disabled exactly when `go(-1)` would leave the index where it is |
| `Navigation.NextDisabled` | src/App.jsx:366-374 | the next button is disabled exactly when `go(1)` would leave the index where it is |
| `Navigation.ExactlyOneActive` | src/App.jsx:416-422 | at any valid index, the set of active dots (and of active cards, line 385) is exactly `{current}` |
| `Sections.RenderDetails` | src/App.jsx:220-304 | the detail content is present iff a section is selected and its id is one of the four known ids; it is then that section's payload, whose shape is the one its id's layout reads |
| `Sections.CatalogueIdsDistinct` | src/App.jsx:12-116 | the four sections of the static list have pairwise distinct ids |
| `Sections.CatalogueRenders` | src/App.jsx:12-116 | every section of the static list renders its own payload in the detail view |
| `Geometry.Center` | src/App.jsx:120-137 | `center(i)` asks for no scroll when the track or the wrapper is missing or card i does not exist; otherwise it asks for one on the layout's axis (top when narrow, left otherwise) whose offset puts the card's middle at the wrapper's middle |
| `Geometry.NeverCentersAsWritten` | src/App.jsx:120-123 | with the DOM as the component mounts it, where no element carries the wrapper ref, `center` never issues a scroll request |
| `Geometry.CentersWhenWrapperAttached` | src/App.jsx:120-137 | with the wrapper ref attached, every existing card gets a request that centers it on the layout's axis |
| `Geometry.SwipeStep` | src/App.jsx:195-200 | a swipe whose displacement on the layout's axis lies within 60 asks for nothing; above 60 it asks for one step back, below -60 for one step forward |
| `Geometry.SwipeIgnoresCrossAxis` | src/App.jsx:198-199 | movement on the axis the layout does not use never changes the swipe decision |
| `Slider.BodyClass` | src/App.jsx:212-214 | the body class is `dark-mode` iff the dark theme is on, and `light-mode` iff it is off |
| `Slider.KeyStep` | src/App.jsx:170-171 | ArrowRight and ArrowDown ask for step 1, ArrowLeft and ArrowUp for step -1, and every other key for nothing |
| `Slider.ActivateIdempotent` | src/App.jsx:139-145 | activating the current index changes no state; any other valid index becomes current; a second identical activation is a no-op |
| `Slider.GoClamps` | src/App.jsx:147-150 | `go` sets `current` to min(max(current+step, 0), N-1) and keeps the detail flag, the selection and the theme; at index 0 a backward step, and at N-1 a forward step, leave the whole state unchanged |
| `Slider.OpenThenBack` | src/App.jsx:152-161 | opening sets `showDetails` and `selectedCard` together and keeps `current`; going back clears both and keeps `current` and the theme, both as written and with the corrected Back |
| `Slider.ThemeInvolution` | src/App.jsx:212-218 | toggling the theme twice restores the state; one toggle always changes the body class and keeps `current` |
| `Slider.KeyHandling` | src/App.jsx:168-172 | while the detail view is open no key changes anything; otherwise ArrowRight/ArrowDown act as `go(1)`, ArrowLeft/ArrowUp as `go(-1)`, and any other key changes nothing |
| `Slider.SwipeHandling` | src/App.jsx:195-200 | with listeners bound, a swipe within 60 on the layout's axis changes nothing; beyond it, it acts as exactly one `go(-1)` for a positive and one `go(1)` for a negative displacement |
| `Slider.ButtonsDisabledAtEnds` | src/App.jsx:357-374 | a button is disabled iff pressing it would leave the whole state unchanged |
| `Slider.EventPreservesInv` | src/App.jsx:340-423 | with the corrected Back, every input keeps the invariant: `current` in [0, N-1], a selection from the static list exactly while the detail view is open, and swipe listeners bound whenever the carousel is shown |
| `Slider.RunPreservesInv` | src/App.jsx:5-8 | with the corrected Back, every sequence of inputs from a valid state keeps that invariant |
| `Slider.EventPreservesInvAsWritten` | src/App.jsx:340-423 | as written, every input keeps the weaker invariant: `current` in [0, N-1], a selection from the static list exactly while the detail view is open, and no live swipe listeners while it is open |
| `Slider.RunPreservesInvAsWritten` | src/App.jsx:5-8 | as written, every sequence of inputs from a valid state keeps that weaker invariant |
| `Slider.InvBrokenAsWritten` | src/App.jsx:184-210 | the mount state satisfies the full invariant; as written, Details on section 0 then Back breaks its swipe clause, while the corrected Back keeps it |
| `Slider.DetailsFreezeNavigation` | src/App.jsx:306-338 | while the detail view is open, no sequence of inputs without Back changes `current`, closes the view or changes the selection |
| `Slider.ArrowRightPresses` | src/App.jsx:168-172 | from any valid index with the detail view closed, k presses of ArrowRight end at index min(current + k, N-1), both as written and with the corrected Back |
| `Slider.ArrowRightScenario` | src/App.jsx:147-150 | from mount, ArrowRight pressed 1, 2, 3 and 4 times ends at indices 1, 2, 3 and 3 |
| `Slider.DetailsRoundTripScenario` | src/App.jsx:152-161 | from mount, two forward steps and Details on section 2 open the view on section 2 at index 2; Back then closes it, clears the selection and leaves index 2, both as written and with the corrected Back |
| `Slider.ResizeKeepsState` | src/App.jsx:178-182 | a resize leaves the state unchanged, both as written and with the corrected Back |
| `Slider.RunAgreesWithoutBack` | src/App.jsx:158-161 | on any input sequence without Back, the component as written and with the corrected Back reach the same state |
| `Slider.DetailsFreezeNavigationAsWritten` | src/App.jsx:306-338 | as written too, while the detail view is open, no sequence of inputs without Back changes `current` or closes the view |
| `Slider.SwipeLostAfterBackAsWritten` | src/App.jsx:184-210 | as written, after opening and closing the detail view the swipe listeners are not bound, and a 200-pixel forward swipe at index 0 leaves index 0 |
| `Slider.SwipeWorksAfterBack` | src/App.jsx:184-210 | with the listeners rebound on Back, the invariant holds after closing, and a swipe past the threshold steps as it should |
| `Slider.Slider.BodyClassName` | src/App.jsx:212-214 | the component's body class is `dark-mode` iff its theme flag is set |
| `Slider.Slider.constructor` | src/App.jsx:5-8 | at mount the index is 0, the theme is light, the detail view is closed with no selection, and the invariant holds |
| `Slider.Slider.Activate` | src/App.jsx:139-145 | the new state is `Activated`; a centering is requested iff `current` changed, and a deferred one only if the `scroll` flag is also set |
| `Slider.Slider.Go` | src/App.jsx:147-150 | the new index is the clamped target and the state is `Went`; it recenters iff the index moved |
| `Slider.Slider.HandleDetails` | src/App.jsx:152-156 | the view opens on the given section with `current` unchanged |
| `Slider.Slider.HandleBack` | src/App.jsx:158-161 | the corrected Back: the view closes with no selection and `current` unchanged, and the touch listeners are bound again (the code as written does not rebind them) |
| `Slider.Slider.ToggleTheme` | src/App.jsx:216-218 | flips the theme flag, so the body class changes, and nothing else |
| `Slider.Slider.HandleKeyDown` | src/App.jsx:168-172 | the new state is `KeyPressed`; it recenters iff the index moved |
| `Slider.Slider.HandleTouchStart` | src/App.jsx:190-193 | records the swipe origin when the listeners are bound |
| `Slider.Slider.HandleTouchEnd` | src/App.jsx:195-201 | the new state is `TouchEnded`; it recenters iff the index moved |
| `Slider.Slider.HandleResize` | src/App.jsx:178-182 | changes nothing and always asks to recenter the current card |
| `Slider.Slider.Dispatch` | src/App.jsx:340-423 | each input from the page reaches its handler and yields `OnEvent`'s state, with the corrected Back; it recenters iff the index moved or the window was resized |

## Findings

| source | as written | input that shows it | evidently intended | confidence | as-written member | corrected member |
|---|---|---|---|---|---|---|
| src/App.jsx:120-123 | `wrapRef` (line 10) is attached to no element; only the track carries a ref (line 380). So `center` always returns at line 123 | any index, on either layout: for example the mount, or `go(1)` from index 0 | the scrolling wrapper around the track carries `wrapRef`, and the active card is centered | high (not executed) | `Geometry.NeverCentersAsWritten` | `Geometry.CentersWhenWrapperAttached` |
| src/App.jsx:184-210 | the touch effect depends on `[current]` only. Opening the detail view unmounts the track, and Back mounts a new one. The effect does not re-run, so its listeners stay on the old, detached track | Details on section 0, Back, then a touch from (0, 0) to (-200, 0) on the wide layout: the index stays 0 instead of becoming 1 | swipes keep working after Back: the effect also re-runs when `showDetails` changes | high (not executed) | `Slider.SwipeLostAfterBackAsWritten` | `Slider.SwipeWorksAfterBack` |

The rest of the model uses the corrected behaviour of Back, `DetailsClosed`, and the
as-written one is kept as `DetailsClosedAsWritten`. Both centering variants use the same
`Center`, applied to the DOM as mounted (`AsWrittenDom`) or with the wrapper attached (`MountedDom`).

## Left out

- Markup, images and text: the display strings of the static list are abstract. The list is a parameter that satisfies `Catalogue`: four sections whose ids are the four known ids, in order, each with the payload shape its id reads.
- The smooth `scrollTo` animation: `Center` computes only the target offset and axis. The handler methods report whether a centering is requested.
- The `dynamic-bg-style` style element created or replaced while the detail page is shown (lines 306-316).
- The write to `document.body.className`: only the derived class value `BodyClass` is modelled.
- `window.matchMedia`: the breakpoint and hover answers are boolean parameters of the touch and hover inputs. The dot row hidden on narrow layouts (line 415) only affects the display and is not modelled; a dot click is accepted on both layouts.
- `isMobile()` is called several times inside one handler. The model assumes it gives the same answer each time within one handler.
- Listener registration and removal for the keyboard and resize handlers: these are treated as always bound to the current state. The touch listeners are modelled only through `swipeBound`.
- React's asynchronous `setState` batching and stale closures: each setter is an immediate field update.
- The 50 ms `setTimeout` before the deferred centering, and the timing race it approximates: only the `deferred` flag is modelled.
- Floating-point geometry: pixel measures are `real`.
- `Slider.Slider.Activate`: requires a valid index. Every caller in the component passes the index of a rendered card or dot.
- EventPreservesInv: proved for the corrected Back only. As written the swipe clause of `Inv` fails after Details then Back (`InvBrokenAsWritten`). The code as written keeps only `InvAsWritten` (`EventPreservesInvAsWritten`).
- RunPreservesInv: proved for the corrected Back only. The code as written gets the weaker run invariant `RunPreservesInvAsWritten`.
- Slider.Slider.HandleBack: models the corrected Back. The class has no method for Back as written, which is the transition `DetailsClosedAsWritten`.
- Slider.Slider.Dispatch: routes Back to the corrected `HandleBack`. The inputs as written are the function `OnEventAsWritten`, not a class method.
- `Sections.RenderDetails`: requires that a section with a known id carries that id's payload shape. With any other shape, the layout's reads would fail.
