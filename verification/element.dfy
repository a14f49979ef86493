/**
 * The stippled-image element as an immutable state record and one transition
 * function per entry point: the property setters, connect and disconnect,
 * the refresh coordinator, the worker message listener, the deferred
 * termination timer, and the continuations of the asynchronous steps
 * (an image load settling, an `await` resuming, a refresh promise settling).
 */
module Element {
  import opened Wrappers
  import opened JsNumber
  import opened Config
  import opened Drawing

  /** Identity of a spawned worker; ids are handed out in spawn order. */
  type WorkerId = nat

  /** The events the element dispatches on itself. */
  datatype Notice = Render | Load

  /**
   * Where the refresh coordinator stands. Any phase other than Idle means the
   * `refreshing` flag is set.
   */
  datatype Phase =
    | Idle                    // no refresh in flight
    | Fetching(url: string)   // awaiting a fresh image load
    | Resuming(image: Image)  // awaiting the cached image (the `await` still yields)
    | Settling                // doRefresh has settled; the flag clears on the next turn

  /** The one message posted to a freshly spawned worker. */
  datatype Request = Request(worker: WorkerId, width: nat, height: nat, pointCount: Num)

  datatype State = State(
    config: Config,
    image: Option<Image>,       // the last loaded image
    phase: Phase,
    worker: Option<WorkerId>,   // the registered worker
    listening: set<WorkerId>,   // workers the message listener is attached to
    nextWorker: WorkerId,       // id of the next worker to be spawned
    stopped: set<WorkerId>,     // workers `terminate()` was called on
    errorsLogged: nat,          // failed terminations written to the console
    requests: seq<Request>,     // requests posted, one per spawned worker
    fetches: seq<string>,       // image loads started
    stipple: Option<seq<real>>, // the last accepted point data
    canvas: (nat, nat),         // size of the visible canvas
    frames: seq<Frame>,         // what each `draw()` painted, oldest first
    notices: seq<Notice>,       // events fired, oldest first
    timers: seq<WorkerId>,      // pending deferred terminations with their captured worker
    workerUrl: Option<nat>,     // the cached worker script URL
    urlsCreated: nat,
    urlsRevoked: nat)

  const Initial: State :=
    State(Default, None, Idle, None, {}, 0, {}, 0, [], [], None, (300, 150), [], [], [], None, 0, 0)

  /**
   * How the host calls between an available image and a running worker end:
   * `getImageData` can throw (a zero-sized or cross-origin-tainted surface),
   * and so can `new Worker`.
   */
  datatype Spawn = Spawns | ReadbackThrows | WorkerThrows

  /**
   * The entry points of the element, including the continuations of its
   * asynchronous steps. An event that may call `terminateWorker` carries
   * whether that `terminate()` call throws.
   */
  datatype Event =
    | Set(field: Field, throws: bool)
    | Connected(throws: bool)
    | Disconnected(throws: bool)
    | ImageLoaded(loaded: Image, outcome: Spawn)  // a fresh image load succeeds
    | ImageFailed                                 // a fresh image load errors or aborts
    | Resumed(outcome: Spawn)                     // the `await` on the cached image resumes
    | Settled                                     // the refresh promise's `then`/`catch` runs
    | WorkerMessage(from: WorkerId, points: seq<real>, iteration: int)
    | TimerFired(throws: bool)

  /** The `refreshing` flag. */
  predicate Refreshing(s: State) {
    !s.phase.Idle?
  }

  /** The registered worker as a set of at most one id. */
  function Registered(w: Option<WorkerId>): (r: set<WorkerId>)
    ensures |r| <= 1
    ensures forall id :: id in r <==> w == Some(id)
  {
    if w.Some? then {w.value} else {}
  }

  /** Size of the cached worker script URL handle: 0 or 1. */
  function UrlHandles(s: State): nat {
    if s.workerUrl.Some? then 1 else 0
  }

  /** `draw()`: paint the current point data with the current style. */
  function Redraw(s: State): (r: State)
    ensures r.frames == s.frames + [Draw(s.stipple, s.config.radius, s.config.color)]
    ensures r.(frames := s.frames) == s
  {
    s.(frames := s.frames + [Draw(s.stipple, s.config.radius, s.config.color)])
  }

  /**
   * `terminateWorker()`: detach the listener from the registered worker, ask
   * it to stop (a throwing `terminate` is only logged), forget it.
   */
  function TerminateWorker(s: State, throws: bool): (r: State)
    ensures r.worker == None
    ensures r.listening == s.listening - Registered(s.worker)
    ensures r.stopped == s.stopped + Registered(s.worker)
    ensures s.worker.None? ==> r == s
    ensures r.(worker := s.worker, listening := s.listening, stopped := s.stopped, errorsLogged := s.errorsLogged) == s
    ensures r.errorsLogged == s.errorsLogged + (if s.worker.Some? && throws then 1 else 0)
  {
    match s.worker
    case None => s
    case Some(w) =>
      s.(listening := s.listening - {w},
         stopped := s.stopped + {w},
         errorsLogged := s.errorsLogged + (if throws then 1 else 0),
         worker := None)
  }

  /** The `workerUrl` getter: create the script URL on first use, then reuse it. */
  function EnsureWorkerUrl(s: State): (r: State)
    ensures r.workerUrl.Some?
    ensures s.workerUrl.Some? ==> r == s
    ensures s.workerUrl.None? ==> r.urlsCreated == s.urlsCreated + 1
    ensures r.urlsRevoked == s.urlsRevoked
    ensures r.urlsCreated - r.urlsRevoked - UrlHandles(r) == s.urlsCreated - s.urlsRevoked - UrlHandles(s)
    ensures r.(workerUrl := s.workerUrl, urlsCreated := s.urlsCreated) == s
  {
    if s.workerUrl.Some? then s
    else s.(workerUrl := Some(s.urlsCreated), urlsCreated := s.urlsCreated + 1)
  }

  /**
   * The part of `loadImage` the element decides: reuse the last image when
   * its URL equals the request, otherwise start a load and wait for it.
   */
  function LoadImage(s: State, url: string): (r: State)
    ensures r.phase.Fetching? || r.phase.Resuming?
    ensures r.phase.Resuming? ==> s.image == Some(r.phase.image) && r.phase.image.src == url && r.fetches == s.fetches
    ensures r.phase.Fetching? ==> r.phase.url == url && r.fetches == s.fetches + [url]
    ensures r.phase.Fetching? <==> s.image.None? || s.image.value.src != url
    ensures r.(phase := s.phase, fetches := s.fetches) == s
  {
    if s.image.Some? && s.image.value.src == url then s.(phase := Resuming(s.image.value))
    else s.(phase := Fetching(url), fetches := s.fetches + [url])
  }

  /**
   * `refresh()` and the synchronous head of `doRefresh()`: unless a refresh is
   * already in flight, set the flag, terminate the registered worker, and
   * either stop (empty source) or start loading the image.
   */
  function Refresh(s: State, throws: bool): (r: State)
    ensures Refreshing(s) ==> r == s
    ensures !Refreshing(s) ==> Refreshing(r) && r.worker == None && r.listening == s.listening - Registered(s.worker)
    ensures !Refreshing(s) ==> r.stopped == s.stopped + Registered(s.worker)
    ensures !Refreshing(s) ==> r.errorsLogged == s.errorsLogged + (if s.worker.Some? && throws then 1 else 0)
    ensures !Refreshing(s) && s.config.src == "" ==> r.phase == Settling
    ensures !Refreshing(s) && s.config.src != "" ==> r.phase.Fetching? || r.phase.Resuming?
    ensures r.nextWorker == s.nextWorker && r.requests == s.requests
    ensures r.stipple == s.stipple && r.frames == s.frames && r.notices == s.notices && r.config == s.config
    ensures !Refreshing(s) && s.config.src != "" ==>
      (r.phase.Fetching? <==> s.image.None? || s.image.value.src != s.config.src)
    ensures !Refreshing(s) && r.phase.Resuming? ==> s.image == Some(r.phase.image)
    ensures r.fetches == s.fetches + (if !Refreshing(s) && r.phase.Fetching? then [s.config.src] else [])
    ensures r.(phase := s.phase, worker := s.worker, listening := s.listening, stopped := s.stopped,
               errorsLogged := s.errorsLogged, fetches := s.fetches) == s
  {
    if Refreshing(s) then s
    else
      var t := TerminateWorker(s, throws);
      if t.config.src == "" then t.(phase := Settling)
      else LoadImage(t, t.config.src)
  }

  /**
   * The rest of `doRefresh()` once the image is available: remember it, read
   * its pixels back at the effective size, size the canvas (which clears
   * it), spawn one worker with the listener attached and post it the
   * request. Reading back a zero-sized surface always throws; `out` says
   * whether the readback or the worker construction throws otherwise. A
   * throw rejects the refresh with no worker spawned.
   */
  function Resume(s: State, img: Image, out: Spawn): (r: State)
    ensures r.phase == Settling && r.image == Some(img)
    ensures var w := EffectiveWidth(s.config, Some(img));
            var h := EffectiveHeight(s.config, Some(img));
            if w == 0 || h == 0 || out == ReadbackThrows then
              r == s.(phase := Settling, image := Some(img))
            else
              && r.canvas == (w, h)
              && r.frames == s.frames + [Blank]
              && r.workerUrl.Some?
              && if out == Spawns then
                   && r.worker == Some(s.nextWorker)
                   && r.listening == s.listening + {s.nextWorker}
                   && r.nextWorker == s.nextWorker + 1
                   && r.requests == s.requests + [Request(s.nextWorker, w, h, EffectivePoints(s.config, Some(img)))]
                 else
                   && r.worker == s.worker && r.listening == s.listening
                   && r.nextWorker == s.nextWorker && r.requests == s.requests
    ensures r.stipple == s.stipple && r.notices == s.notices && r.config == s.config
    ensures r.stopped == s.stopped && r.timers == s.timers && r.urlsRevoked == s.urlsRevoked
    ensures r.urlsCreated - r.urlsRevoked - UrlHandles(r) == s.urlsCreated - s.urlsRevoked - UrlHandles(s)
    ensures r.(phase := s.phase, image := s.image, canvas := s.canvas, frames := s.frames,
               workerUrl := s.workerUrl, urlsCreated := s.urlsCreated, worker := s.worker,
               listening := s.listening, nextWorker := s.nextWorker, requests := s.requests) == s
  {
    var s1 := s.(image := Some(img));
    var w := EffectiveWidth(s1.config, s1.image);
    var h := EffectiveHeight(s1.config, s1.image);
    if w == 0 || h == 0 || out == ReadbackThrows then s1.(phase := Settling)
    else
      var s2 := EnsureWorkerUrl(s1.(canvas := (w, h), frames := s1.frames + [Blank]));
      if out == WorkerThrows then s2.(phase := Settling)
      else
        var id := s2.nextWorker;
        s2.(worker := Some(id),
            listening := s2.listening + {id},
            nextWorker := id + 1,
            requests := s2.requests + [Request(id, w, h, EffectivePoints(s1.config, s1.image))],
            phase := Settling)
  }

  /**
   * A worker message reaches the listener only while the listener is
   * attached to that worker; the listener then acts only while some worker
   * is registered.
   */
  function Deliver(s: State, from: WorkerId, points: seq<real>, iteration: int): (r: State)
    ensures from !in s.listening || s.worker.None? ==> r == s
    ensures from in s.listening && s.worker.Some? ==>
      && r.stipple == Some(points)
      && r.frames == s.frames + [Draw(Some(points), s.config.radius, s.config.color)]
      && r.notices == s.notices + [if iteration == 50 then Load else Render]
      && r.timers == s.timers + (if iteration == 50 then [s.worker.value] else [])
      && r.(stipple := s.stipple, frames := s.frames, notices := s.notices, timers := s.timers) == s
  {
    if from !in s.listening || s.worker.None? then s
    else
      var s1 := Redraw(s.(stipple := Some(points)));
      var s2 := if iteration == 50 then s1.(timers := s1.timers + [s.worker.value]) else s1;
      s2.(notices := s2.notices + [if iteration == 50 then Load else Render])
  }

  /**
   * The oldest pending deferred termination runs: it terminates only if the
   * worker it captured is still the registered one.
   */
  function FireTimer(s: State, throws: bool): (r: State)
    ensures |s.timers| == 0 ==> r == s
    ensures |s.timers| > 0 ==> r.timers == s.timers[1..]
    ensures |s.timers| > 0 && s.worker == Some(s.timers[0]) ==>
      && r.worker == None && s.timers[0] !in r.listening && s.timers[0] in r.stopped
      && r.listening == s.listening - {s.timers[0]} && r.stopped == s.stopped + {s.timers[0]}
    ensures |s.timers| > 0 && s.worker != Some(s.timers[0]) ==>
      r.worker == s.worker && r.listening == s.listening && r.stopped == s.stopped
    ensures r.stipple == s.stipple && r.frames == s.frames && r.notices == s.notices
    ensures r.phase == s.phase && r.nextWorker == s.nextWorker && r.config == s.config
    ensures r.errorsLogged == s.errorsLogged + (if |s.timers| > 0 && s.worker == Some(s.timers[0]) && throws then 1 else 0)
    ensures r.(timers := s.timers, worker := s.worker, listening := s.listening, stopped := s.stopped,
               errorsLogged := s.errorsLogged) == s
  {
    if |s.timers| == 0 then s
    else
      var captured := s.timers[0];
      var t := s.(timers := s.timers[1..]);
      if t.worker == Some(captured) then TerminateWorker(t, throws) else t
  }

  /** `disconnectedCallback()`: terminate the worker and release the script URL if held. */
  function Disconnect(s: State, throws: bool): (r: State)
    ensures r.worker == None && r.workerUrl == None
    ensures r.listening == s.listening - Registered(s.worker)
    ensures r.stopped == s.stopped + Registered(s.worker)
    ensures r.errorsLogged == s.errorsLogged + (if s.worker.Some? && throws then 1 else 0)
    ensures r.urlsRevoked == s.urlsRevoked + UrlHandles(s)
    ensures r.urlsCreated == s.urlsCreated
    ensures r.stipple == s.stipple && r.frames == s.frames && r.notices == s.notices
    ensures r.phase == s.phase && r.nextWorker == s.nextWorker && r.requests == s.requests
    ensures r.(worker := s.worker, listening := s.listening, stopped := s.stopped, errorsLogged := s.errorsLogged,
               workerUrl := s.workerUrl, urlsRevoked := s.urlsRevoked) == s
  {
    var t := TerminateWorker(s, throws);
    if t.workerUrl.Some? then t.(workerUrl := None, urlsRevoked := t.urlsRevoked + 1)
    else t
  }

  /** One transition. */
  function Step(s: State, e: Event): (r: State)
    ensures s.notices <= r.notices
    ensures |r.notices| == |s.notices| + 1 <==> e.WorkerMessage? && e.from in s.listening && s.worker.Some?
    ensures |r.notices| <= |s.notices| + 1
    ensures r.nextWorker == s.nextWorker || (r.nextWorker == s.nextWorker + 1 && r.worker == Some(s.nextWorker))
    ensures r.worker == s.worker || r.worker.None? || r.worker == Some(s.nextWorker)
  {
    match e
    case Set(f, throws) =>
      var (c, effect) := Apply(s.config, f);
      if effect == Unchanged then s
      else if effect == Recompute then Refresh(s.(config := c), throws)
      else Redraw(s.(config := c))
    case Connected(throws) => Refresh(s, throws)
    case Disconnected(throws) => Disconnect(s, throws)
    case ImageLoaded(img, out) => if s.phase.Fetching? then Resume(s, img, out) else s
    case ImageFailed => if s.phase.Fetching? then s.(phase := Settling) else s
    case Resumed(out) => if s.phase.Resuming? then Resume(s, s.phase.image, out) else s
    case Settled => if s.phase.Settling? then s.(phase := Idle) else s
    case WorkerMessage(from, points, iteration) => Deliver(s, from, points, iteration)
    case TimerFired(throws) => FireTimer(s, throws)
  }

  /** A run of events from `s`, the last event applied last. */
  function Run(s: State, es: seq<Event>): State
    decreases |es|
  {
    if |es| == 0 then s
    else Step(Run(s, es[..|es| - 1]), es[|es| - 1])
  }
}
