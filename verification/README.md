# stippled-image: a Dafny model of the refresh and render coordinator

The `<stippled-image>` web component draws a stippled version of an image:
a worker places points over the image's pixels in 50 refinement
iterations, and after every iteration the element repaints the points as
filled circles. This project models the element's control logic as an
immutable state record with one transition function per entry point. It
then proves the rules that keep the worker sessions apart and the
configuration consistent.

Modules:

- `Config` (`config.dfy`): the seven configuration fields. The setters
  compare before they write, and each change is classified as a
  recompute, a redraw, or nothing. The getters derive the effective
  width, height and point count; the point count is clamped at 20000.
- `JsNumber` (`js_number.dfy`): the JavaScript number facts the
  point-count getter relies on. Dividing by a zero sampling gives
  Infinity or NaN, `Math.min` keeps NaN, and Infinity clamps to the bound.
- `Drawing` (`drawing.dfy`): `draw()` as the list of circle centres it
  fills. The loop as written (`Centres`) is proved equal to a recursive
  reference (`Pairs`).
- `Element` (`element.dfy`): the state record and the transitions. It
  covers the setters, `connectedCallback` and `disconnectedCallback`, the
  single-flight `refresh`, `doRefresh` cut at its `await`, `loadImage`'s
  cache check, the worker message listener, the deferred termination,
  `terminateWorker` and the `workerUrl` getter.
- `Invariants` (`invariants.dfy`): the invariant every reachable state
  keeps, and the no-leak bounds derived from it.
- `Session` (`session.dfy`): properties of the worker protocol and the
  refresh cycle, stated over runs of events.

Asynchrony becomes explicit events:

- `Set` / `Connected` / `Disconnected`: an attribute changes, or the
  element is attached or detached.
- `ImageLoaded` / `ImageFailed`: the image load settles.
- `Resumed`: the continuation after `await this.loadImage()` runs when the
  cached image was reused.
- `Settled`: the `.then`/`.catch` that clears `refreshing` runs.
- `WorkerMessage`: a worker posts a message.
- `TimerFired`: the oldest `setTimeout` callback runs.

The `refreshing` flag is "phase is not `Idle`". The `Settling` phase is the
turn between `doRefresh` settling and the flag clearing. A refresh
requested during that turn is dropped too.

Each event that can call `worker.terminate()` (`Set`, `Connected`,
`Disconnected`, `TimerFired`) carries its own flag saying whether that
call throws. A throw only adds a console log entry (`errorsLogged`).

The events that finish `doRefresh` (`ImageLoaded`, `Resumed`) carry a
spawn outcome:

- `Spawns`: pixels are read back and a worker starts.
- `ReadbackThrows`: `getImageData` throws, for example on a canvas
  tainted by a cross-origin image. The refresh rejects after storing the
  image. A zero-sized surface always takes this path, whatever the
  outcome says.
- `WorkerThrows`: `new Worker` throws after the canvas was resized and
  cleared and the script URL was created. No worker is registered.

Observable output is kept as logs:

- `frames`: what each `draw()` painted.
- `notices`: the `render` and `load` events fired.
- `requests`: the message posted to each spawned worker.
- `fetches`: the image loads started.

Behaviour the model makes explicit:

- Reading pixels back from a zero-sized surface throws (the HTML canvas
  rule for `getImageData`). So a refresh whose effective width or height
  is 0 rejects after storing the image, and spawns no worker
  (`Session.RejectedSpawnSpawnsNothing`).
- Assigning the canvas size clears the visible canvas. So a refresh that
  spawns a worker first logs a `Blank` frame.
- The staleness check in the listener only tests that *some* worker is
  registered. Stale workers are shut out because `terminateWorker`
  detaches the listener. The invariant `listening == Registered(worker)`
  shows the two tests agree in every reachable state.
- A disconnect while an image load is pending does not cancel the
  refresh. When the load completes, a worker is spawned and a new script
  URL is created after the disconnect (`Session.DisconnectDuringLoadRespawns`).
- A change arriving while a refresh is in flight is stored but does not
  trigger a new refresh (`Session.GeometryChangeRefreshes`).

Two details of the code that the model keeps:

- The terminal message (iteration 50) fires only `load`; no `render`
  precedes it.
- The image cache compares `_i.src`, the URL the loaded image reports,
  with the requested string.

## Model

| member | source | states |
|---|---|---|
| Config.Apply | src/stippled-image.ts:116-184 | A setter stores its value (the points setter stores `min(20000, value)`) and changes no other field. It is a no-op exactly when the stored value is already equal. Otherwise colour and radius ask for a redraw and the other five fields ask for a refresh. The stored point count never exceeds 20000. |
| Config.EffectiveWidth | src/stippled-image.ts:108-110 | A positive explicit width wins. Otherwise the result is the loaded image's width. It is 0 exactly when neither source gives a positive width. |
| Config.EffectiveHeight | src/stippled-image.ts:112-114 | Same rule as the width: explicit height, then the image height, then 0. |
| Config.EffectivePoints | src/stippled-image.ts:130-132 | The effective point count is never Infinity and, when finite, lies in [0, 20000]. With a nonzero explicit count it is `min(20000, n)`. Otherwise it is `min(20000, width*height/sampling)`. Sampling 0 gives 20000 for a nonzero area and NaN for a zero one. |
| Drawing.Pairs | src/stippled-image.ts:284-289 | Reference centre list: ⌊L/2⌋ centres, the k-th at `(d[2k], d[2k+1])`. |
| Drawing.Centres | src/stippled-image.ts:284-289 | The `i += 2` drawing loop produces exactly the reference centre list. |
| Drawing.Draw | src/stippled-image.ts:274-293 | No point data gives a cleared canvas with no circles. Data of length L gives ⌊L/2⌋ circles, centred at `(d[2k], d[2k+1])` in order, with the current radius and colour. |
| Element.TerminateWorker | src/stippled-image.ts:262-272 | Afterwards no worker is registered. The listener is detached from the old worker only, and `terminate` was called on it. A throwing `terminate` changes only the error log. With no worker registered, nothing changes. |
| Element.Refresh | src/stippled-image.ts:186-201 | While a refresh is in flight, a refresh request changes nothing. Otherwise it sets the flag and terminates the registered worker: the listener is detached from it and `terminate` is called on it, and a throwing `terminate` adds exactly one error log entry. An empty source stops there. For any other source, the cached image is reused when its URL equals the source; otherwise exactly one load of the source starts. It never spawns, and nothing else changes: image, canvas, timers, script URLs, point data, frames and events stay as they were. |
| Element.EnsureWorkerUrl | src/stippled-image.ts:91-99 | Afterwards a script URL is held. An existing one is kept and nothing changes; otherwise exactly one URL is created. No URL is revoked, and the count of created URLs that are neither revoked nor held is unchanged. |
| Element.LoadImage | src/stippled-image.ts:225-228 | The cached image is reused exactly when one is stored and its reported URL equals the request, and then no load starts. Otherwise exactly one load of the requested URL is logged. Nothing else changes. |
| Element.Resume | src/stippled-image.ts:203-222 | Once the image is available it is stored. With zero effective width or height, or a throwing `getImageData`, nothing else changes. Otherwise the canvas is resized and cleared and a script URL is held. If `new Worker` succeeds, exactly one new worker (the next id) is registered with the listener and gets one request with the effective width, height and point count; if it throws, no worker or request is added. Nothing is terminated, no URL leaks, no load starts and nothing else changes. |
| Element.Deliver | src/stippled-image.ts:245-260 | A message from a worker without the listener, or with no worker registered, changes nothing. An accepted message replaces the point data with its payload and redraws. It fires exactly one event, `load` on iteration 50 and `render` otherwise. Only iteration 50 schedules a deferred termination, capturing the registered worker. |
| Element.FireTimer | src/stippled-image.ts:252-256 | The oldest pending callback is consumed. If its captured worker is still the registered one, that worker is terminated: none is registered, it loses the listener and is told to terminate. A throwing `terminate` then adds one error log entry. Otherwise worker, listener set, terminations and error log are unchanged. Nothing else ever changes. |
| Element.Disconnect | src/stippled-image.ts:83-89 | The registered worker, if any, is shut down: it loses the listener and is told to terminate, and a throwing `terminate` adds one error log entry. Afterwards no worker is registered and no script URL is held. The URL is revoked once if one was held. Nothing else changes. |
| Element.Step | src/stippled-image.ts:53-272 | The event log only grows. It grows by exactly one event exactly when the step is a message the listener accepts. A step spawns at most one worker, always with the next fresh id, which becomes the registered one. |
| Invariants.StepInv | src/stippled-image.ts:186-272 | Every transition keeps the invariant. The listener is attached exactly to the registered worker. No worker is registered while an image is awaited. Every other spawned worker has been told to terminate. The stored count is at most 20000. At most one script URL is live. |
| Invariants.RunInv | src/stippled-image.ts:186-272 | The invariant holds after any sequence of events, whichever of the `terminate`, `getImageData` and `new Worker` calls in it throw. |
| Invariants.NoLeak | src/stippled-image.ts:83-99 | After any sequence of events from a fresh element, with any call to `terminate`, `getImageData` or `new Worker` throwing or not: at most one spawned worker has not been told to terminate, at most one script URL is unreleased, and with no worker registered none is left running. |
| Session.SessionPrefix | src/stippled-image.ts:245-260 | While worker w is registered, its messages for iterations 1..k are all accepted. Each fires one event and the last payload becomes the point data. Only iteration 50 schedules a termination. The registration is unchanged. |
| Session.FullSession | src/stippled-image.ts:245-260 | A session emitting iterations 1..50 fires 49 `render` events then one `load`, and the point data ends as the iteration-50 payload. |
| Session.StaleMessageIgnored | src/stippled-image.ts:245-246 | A message from any worker other than the registered one leaves the state unchanged. |
| Session.StaysStale | src/stippled-image.ts:214-216 | A worker that is no longer registered never becomes registered again and never regains the listener, whatever events follow and whichever calls in them throw. |
| Session.DeferredTermination | src/stippled-image.ts:250-257 | The deferred termination terminates the captured worker only while it is still registered. A newer worker keeps its registration and listener. |
| Session.StyleChangeOnlyRedraws | src/stippled-image.ts:153-173 | A colour or radius change never terminates or spawns a worker and never starts a refresh. It never touches point data or events; it repaints once, or does nothing when unchanged. |
| Session.GeometryChangeRefreshes | src/stippled-image.ts:116-151 | A changed width, height, points, src or sampling value is stored. With no refresh in flight it starts one, first terminating and unregistering the current worker. With one in flight nothing but the stored value changes. |
| Session.SetterNoOp | src/stippled-image.ts:116-184 | Setting any field to the value it already holds leaves the whole state unchanged. |
| Session.EmptySourceSpawnsNothing | src/stippled-image.ts:196-201 | With an empty source a refresh ends with the flag cleared, no worker registered and no worker spawned. |
| Session.LoadFailureSpawnsNothing | src/stippled-image.ts:186-204 | A failed image load ends the refresh with the flag cleared. No new worker is spawned, and point data, frames and canvas are unchanged. |
| Session.LoadSuccessSpawnsOne | src/stippled-image.ts:196-223 | A load that succeeds with positive dimensions, readable pixels and a worker that starts ends with the flag cleared. Exactly one new worker is registered with the listener, and it gets one request with the effective geometry and point count. |
| Session.RejectedSpawnSpawnsNothing | src/stippled-image.ts:204-216 | When the effective width or height is 0, `getImageData` throws or `new Worker` throws, the refresh still ends with the flag cleared and the image stored. No worker is registered, spawned or sent a request, and the point data is unchanged. When the pixels could not be read (zero size or a throwing `getImageData`), frames and canvas are unchanged too. |
| Session.CachedImageReused | src/stippled-image.ts:225-228 | When the last image's URL equals the source, a refresh starts no new load and resumes with that image. |
| Session.TerminateIdempotent | src/stippled-image.ts:262-272 | Terminating twice is the same as terminating once. A throwing `terminate` differs from a clean one only in the error log. |
| Session.DisconnectOnce | src/stippled-image.ts:83-89 | A second disconnect changes nothing, and one disconnect revokes at most one URL. |
| Session.WorkerUrlCreatedOnce | src/stippled-image.ts:91-99 | Spawning a worker while a script URL is cached reuses it and creates none. |
| Session.DisconnectDuringLoadRespawns | src/stippled-image.ts:83-89 | A disconnect during a pending image load is followed, when the load succeeds, by a registered worker with the next fresh id and an unreleased script URL created after the disconnect (exactly one more URL created than before). |

## Left out

- Shadow DOM, styles, `observedAttributes` and `customElements.define`. They are registration glue with no logic.
- The lazy `canvas` getter and `createContext`. They only look up or create a drawing surface.
- `attributeChangedCallback`'s numeric coercion. Numbers are modelled as non-negative integers, so NaN, negative and fractional attribute values are not modelled. The point-count quotient is kept as an exact real.
- Image decoding, rasterisation, `getImageData`'s pixels and the buffer transfer. These are browser APIs. A load is an event with a success or failure outcome, whether `getImageData` or `new Worker` throws is an outcome the event carries, the pixel buffer is not represented, and a request records only the geometry and point count.
- The stippling algorithm in `./worker`. It is not part of this model; a worker is an identity that may post messages.
- Real threads, `setTimeout` and promise scheduling. They are explicit events, and pending timers run oldest first.
- Canvas path calls (`arc`, `fill`, `Math.PI`) and Float32 rounding of coordinates. A frame records the centres, radius and colour.
- Event dispatch through `CustomEvent`, including bubbling. Events are a log of names.
- The text written by `console.log`. Only the count of logged termination errors is kept.
