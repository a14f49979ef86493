/**
 * Properties of the worker session protocol and the refresh coordinator,
 * stated over runs of the element's transition function.
 */
module Session {
  import opened Wrappers
  import opened Config
  import opened Drawing
  import opened Element
  import opened Invariants

  /** Running `es` then `e` is stepping `e` after running `es`. */
  lemma RunSnoc(s: State, es: seq<Event>, e: Event)
    ensures Run(s, es + [e]) == Step(Run(s, es), e)
  {
    assert (es + [e])[..|es|] == es;
  }

  lemma RunTwo(s: State, e1: Event, e2: Event)
    ensures Run(s, [e1, e2]) == Step(Step(s, e1), e2)
  {
    RunSnoc(s, [], e1);
    RunSnoc(s, [e1], e2);
    assert [e1] + [e2] == [e1, e2];
  }

  lemma RunThree(s: State, e1: Event, e2: Event, e3: Event)
    ensures Run(s, [e1, e2, e3]) == Step(Step(Step(s, e1), e2), e3)
  {
    RunTwo(s, e1, e2);
    RunSnoc(s, [e1, e2], e3);
    assert [e1, e2] + [e3] == [e1, e2, e3];
  }

  lemma StepConnected(s: State, throws: bool)
    ensures Step(s, Connected(throws)) == Refresh(s, throws)
  {
  }

  lemma StepDisconnected(s: State, throws: bool)
    ensures Step(s, Disconnected(throws)) == Disconnect(s, throws)
  {
  }

  lemma StepImageLoaded(s: State, img: Image, out: Spawn)
    requires s.phase.Fetching?
    ensures Step(s, ImageLoaded(img, out)) == Resume(s, img, out)
  {
  }

  lemma StepSettled(s: State)
    requires s.phase.Settling?
    ensures Step(s, Settled) == s.(phase := Idle)
  {
  }

  /** The messages a worker emits for iterations 1..|ps|, carrying payloads `ps`. */
  function Messages(w: WorkerId, ps: seq<seq<real>>): (es: seq<Event>)
    ensures |es| == |ps|
  {
    if |ps| == 0 then []
    else Messages(w, ps[..|ps| - 1]) + [WorkerMessage(w, ps[|ps| - 1], |ps|)]
  }

  /** The event fired for iteration `i`. */
  function NoticeFor(i: int): Notice {
    if i == 50 then Load else Render
  }

  /** The events fired for iterations 1..k. */
  function Notices(k: nat): (ns: seq<Notice>)
    ensures |ns| == k
  {
    if k == 0 then [] else Notices(k - 1) + [NoticeFor(k)]
  }

  /** Iterations before the last one fire only `render`. */
  lemma {:induction false} NoticesBefore50(k: nat)
    requires k < 50
    ensures Notices(k) == seq(k, _ => Render)
  {
    if k > 0 {
      NoticesBefore50(k - 1);
    }
  }

  /** A full session fires `render` 49 times and then `load` once. */
  lemma FullSessionNotices()
    ensures Notices(50) == seq(49, _ => Render) + [Load]
  {
    NoticesBefore50(49);
  }

  /** The facts a run of session messages keeps or establishes. */
  ghost predicate AfterMessages(s: State, t: State, w: WorkerId, ps: seq<seq<real>>) {
    && t.worker == s.worker && t.listening == s.listening
    && t.notices == s.notices + Notices(|ps|)
    && (|ps| > 0 ==> t.stipple == Some(ps[|ps| - 1]))
    && (|ps| == 0 ==> t.stipple == s.stipple)
    && |t.frames| == |s.frames| + |ps|
    && t.timers == s.timers + (if |ps| == 50 then [w] else [])
    && t.config == s.config && t.nextWorker == s.nextWorker && t.requests == s.requests
  }

  /** One message from the registered worker is accepted. */
  lemma AcceptedMessage(t: State, w: WorkerId, p: seq<real>, i: int)
    requires t.worker == Some(w) && w in t.listening
    ensures var u := Step(t, WorkerMessage(w, p, i));
      && u.worker == t.worker && u.listening == t.listening
      && u.notices == t.notices + [NoticeFor(i)]
      && u.stipple == Some(p)
      && |u.frames| == |t.frames| + 1
      && u.timers == t.timers + (if i == 50 then [w] else [])
      && u.config == t.config && u.nextWorker == t.nextWorker && u.requests == t.requests
  {
  }

  /** Accepting the message for iteration |ps| extends the facts for the earlier iterations. */
  lemma ExtendSession(s: State, before: State, after: State, w: WorkerId, ps: seq<seq<real>>)
    requires 0 < |ps| <= 50
    requires AfterMessages(s, before, w, ps[..|ps| - 1])
    requires && after.worker == before.worker && after.listening == before.listening
             && after.notices == before.notices + [NoticeFor(|ps|)]
             && after.stipple == Some(ps[|ps| - 1])
             && |after.frames| == |before.frames| + 1
             && after.timers == before.timers + (if |ps| == 50 then [w] else [])
             && after.config == before.config && after.nextWorker == before.nextWorker
             && after.requests == before.requests
    ensures AfterMessages(s, after, w, ps)
  {
    assert Notices(|ps|) == Notices(|ps| - 1) + [NoticeFor(|ps|)];
  }

  /**
   * While worker `w` is registered, its messages for iterations 1..k are all
   * accepted: each replaces the point data and redraws, one event is fired per
   * message, and only iteration 50 schedules a deferred termination.
   */
  lemma {:induction false} SessionPrefix(s: State, w: WorkerId, ps: seq<seq<real>>)
    requires s.worker == Some(w) && w in s.listening
    requires |ps| <= 50
    ensures AfterMessages(s, Run(s, Messages(w, ps)), w, ps)
    decreases |ps|
  {
    if |ps| > 0 {
      var init := ps[..|ps| - 1];
      SessionPrefix(s, w, init);
      var before := Run(s, Messages(w, init));
      var m := WorkerMessage(w, ps[|ps| - 1], |ps|);
      var after := Step(before, m);
      AcceptedMessage(before, w, ps[|ps| - 1], |ps|);
      ExtendSession(s, before, after, w, ps);
      assert Messages(w, ps) == Messages(w, init) + [m];
      RunSnoc(s, Messages(w, init), m);
    }
  }

  /**
   * A session that runs to completion: 49 `render` events then one `load`,
   * the point data equal to the iteration-50 payload, and exactly one
   * deferred termination scheduled, for `w`.
   */
  lemma FullSession(s: State, w: WorkerId, ps: seq<seq<real>>)
    requires Inv(s) && s.worker == Some(w)
    requires |ps| == 50
    ensures var t := Run(s, Messages(w, ps));
      && t.notices == s.notices + seq(49, _ => Render) + [Load]
      && t.stipple == Some(ps[49])
      && t.timers == s.timers + [w]
      && t.worker == Some(w)
  {
    SessionPrefix(s, w, ps);
    FullSessionNotices();
  }

  /** A message from any worker other than the registered one changes nothing. */
  lemma StaleMessageIgnored(s: State, from: WorkerId, points: seq<real>, iteration: int)
    requires Inv(s)
    requires s.worker != Some(from)
    ensures Step(s, WorkerMessage(from, points, iteration)) == s
  {
  }

  /**
   * Once worker `w` is no longer registered it never becomes registered
   * again, so none of its later messages is accepted, whatever happens.
   */
  lemma {:induction false} StaysStale(s: State, w: WorkerId, es: seq<Event>)
    requires Inv(s)
    requires w < s.nextWorker && s.worker != Some(w)
    ensures var t := Run(s, es);
      w < t.nextWorker && t.worker != Some(w) && w !in t.listening
    decreases |es|
  {
    if |es| > 0 {
      var init := es[..|es| - 1];
      StaysStale(s, w, init);
      RunInv(s, init);
      StepKeepsStale(Run(s, init), w, es[|es| - 1]);
    }
  }

  lemma StepKeepsStale(s: State, w: WorkerId, e: Event)
    requires Inv(s)
    requires w < s.nextWorker && s.worker != Some(w)
    ensures var t := Step(s, e);
      w < t.nextWorker && t.worker != Some(w) && w !in t.listening
  {
    StepInv(s, e);
  }

  /**
   * A deferred termination terminates only the worker it captured, and only
   * while that worker is still registered; a newer worker is left alone.
   */
  lemma DeferredTermination(s: State, throws: bool)
    requires Inv(s) && |s.timers| > 0
    ensures var t := Step(s, TimerFired(throws));
      && t.timers == s.timers[1..]
      && (s.worker == Some(s.timers[0]) ==> t.worker == None && t.listening == {} && s.timers[0] in t.stopped)
      && (s.worker != Some(s.timers[0]) ==>
            t.worker == s.worker && t.listening == s.listening && t.stopped == s.stopped)
  {
  }

  /** A style change repaints once and leaves workers, refresh and point data alone. */
  lemma StyleChangeOnlyRedraws(s: State, f: Field, throws: bool)
    requires IsStyle(f)
    ensures var t := Step(s, Set(f, throws));
      && t.worker == s.worker && t.listening == s.listening && t.stopped == s.stopped
      && t.nextWorker == s.nextWorker && t.requests == s.requests && t.phase == s.phase
      && t.stipple == s.stipple && t.notices == s.notices
      && (Holds(s.config, f) ==> t == s)
      && (!Holds(s.config, f) ==> t.frames == s.frames + [Draw(s.stipple, t.config.radius, t.config.color)])
  {
  }

  /**
   * A geometry change that is not a no-op starts a refresh when none is in
   * flight (terminating the registered worker first), and is dropped, apart
   * from being stored, when one is.
   */
  lemma GeometryChangeRefreshes(s: State, f: Field, throws: bool)
    requires !IsStyle(f) && !Holds(s.config, f)
    ensures var t := Step(s, Set(f, throws));
      && Holds(t.config, f)
      && (Refreshing(s) ==> t == s.(config := Apply(s.config, f).0))
      && (!Refreshing(s) ==> Refreshing(t) && t.worker == None
                              && t.stopped == s.stopped + Registered(s.worker)
                              && t.listening == s.listening - Registered(s.worker))
      && t.frames == s.frames && t.stipple == s.stipple && t.nextWorker == s.nextWorker
  {
  }

  /** An unchanged value does nothing at all, whichever setter it goes to. */
  lemma SetterNoOp(s: State, f: Field, throws: bool)
    requires Holds(s.config, f)
    ensures Step(s, Set(f, throws)) == s
  {
  }

  /** With an empty source a refresh ends without spawning a worker. */
  lemma EmptySourceSpawnsNothing(s: State, throws: bool)
    requires !Refreshing(s) && s.config.src == ""
    ensures var t := Run(s, [Connected(throws), Settled]);
      && t.phase == Idle && t.worker == None
      && t.nextWorker == s.nextWorker && t.requests == s.requests && t.stipple == s.stipple
  {
    var s1 := Refresh(s, throws);
    RunTwo(s, Connected(throws), Settled);
    StepConnected(s, throws);
    StepSettled(s1);
  }

  /**
   * A failed image load ends the refresh with no new worker and the point
   * data and canvas untouched; the refreshing flag clears.
   */
  lemma LoadFailureSpawnsNothing(s: State, throws: bool)
    requires !Refreshing(s) && s.config.src != ""
    requires s.image.None? || s.image.value.src != s.config.src
    ensures var t := Run(s, [Connected(throws), ImageFailed, Settled]);
      && t.phase == Idle && t.worker == None && t.fetches == s.fetches + [s.config.src]
      && t.nextWorker == s.nextWorker && t.requests == s.requests
      && t.stipple == s.stipple && t.frames == s.frames && t.canvas == s.canvas
  {
    var s1 := Refresh(s, throws);
    var s2 := s1.(phase := Settling);
    RunThree(s, Connected(throws), ImageFailed, Settled);
    StepConnected(s, throws);
    assert s1.phase.Fetching? && s1.fetches == s.fetches + [s.config.src];
    assert Step(s1, ImageFailed) == s2;
    StepSettled(s2);
  }

  /**
   * A successful load of a nonempty image whose pixels read back and whose
   * worker starts registers exactly one new worker, with the listener
   * attached, posts it one request with the effective geometry and point
   * count, and clears the flag.
   */
  lemma LoadSuccessSpawnsOne(s: State, img: Image, throws: bool)
    requires s.listening == Registered(s.worker) && !Refreshing(s) && s.config.src != ""
    requires s.image.None? || s.image.value.src != s.config.src
    requires EffectiveWidth(s.config, Some(img)) > 0 && EffectiveHeight(s.config, Some(img)) > 0
    ensures var t := Run(s, [Connected(throws), ImageLoaded(img, Spawns), Settled]);
      && t.phase == Idle
      && t.worker == Some(s.nextWorker) && t.listening == {s.nextWorker}
      && t.nextWorker == s.nextWorker + 1
      && t.requests == s.requests + [Request(s.nextWorker, EffectiveWidth(s.config, Some(img)),
                                             EffectiveHeight(s.config, Some(img)),
                                             EffectivePoints(s.config, Some(img)))]
      && t.stipple == s.stipple
  {
    var s1 := Refresh(s, throws);
    assert s1.phase.Fetching? && s1.listening == {} && s1.config == s.config;
    var s2 := Resume(s1, img, Spawns);
    RunThree(s, Connected(throws), ImageLoaded(img, Spawns), Settled);
    StepConnected(s, throws);
    StepImageLoaded(s1, img, Spawns);
    StepSettled(s2);
  }

  /**
   * A load whose pixels cannot be read back (zero effective width or height,
   * or a throwing readback), or whose worker fails to construct, rejects the
   * refresh: the image is kept, no worker is spawned and no request posted,
   * and the flag clears. Only a failing worker construction gets as far as
   * resizing (and so clearing) the canvas.
   */
  lemma RejectedSpawnSpawnsNothing(s: State, img: Image, out: Spawn, throws: bool)
    requires !Refreshing(s) && s.config.src != ""
    requires s.image.None? || s.image.value.src != s.config.src
    requires EffectiveWidth(s.config, Some(img)) == 0 || EffectiveHeight(s.config, Some(img)) == 0
             || out != Spawns
    ensures var t := Run(s, [Connected(throws), ImageLoaded(img, out), Settled]);
      && t.phase == Idle && t.worker == None && t.image == Some(img)
      && t.nextWorker == s.nextWorker && t.requests == s.requests && t.stipple == s.stipple
      && ((EffectiveWidth(s.config, Some(img)) == 0 || EffectiveHeight(s.config, Some(img)) == 0
           || out == ReadbackThrows) ==> t.frames == s.frames && t.canvas == s.canvas)
  {
    var s1 := Refresh(s, throws);
    assert s1.phase.Fetching? && s1.config == s.config;
    var s2 := Resume(s1, img, out);
    RunThree(s, Connected(throws), ImageLoaded(img, out), Settled);
    StepConnected(s, throws);
    StepImageLoaded(s1, img, out);
    StepSettled(s2);
  }

  /** When the last image has the requested URL, no new load starts. */
  lemma CachedImageReused(s: State, throws: bool)
    requires !Refreshing(s) && s.config.src != ""
    requires s.image.Some? && s.image.value.src == s.config.src
    ensures var t := Step(s, Connected(throws));
      t.phase == Resuming(s.image.value) && t.fetches == s.fetches
  {
  }

  /** Terminating twice is terminating once, and a throwing `terminate` only adds a log line. */
  lemma TerminateIdempotent(s: State, a: bool, b: bool)
    ensures TerminateWorker(TerminateWorker(s, a), b) == TerminateWorker(s, a)
    ensures TerminateWorker(s, true).(errorsLogged := s.errorsLogged) ==
            TerminateWorker(s, false).(errorsLogged := s.errorsLogged)
  {
  }

  /** A second disconnect releases nothing further and terminates nothing further. */
  lemma DisconnectOnce(s: State, a: bool, b: bool)
    ensures var t := Disconnect(s, a);
      Disconnect(t, b) == t && t.urlsRevoked <= s.urlsRevoked + 1
  {
  }

  /** The script URL is created only when none is cached. */
  lemma WorkerUrlCreatedOnce(s: State, img: Image, out: Spawn)
    requires s.workerUrl.Some?
    ensures Resume(s, img, out).workerUrl == s.workerUrl
    ensures Resume(s, img, out).urlsCreated == s.urlsCreated
  {
  }

  /**
   * Disconnecting while an image load is pending does not cancel the
   * refresh: when the load completes a worker is spawned and a new script
   * URL created, after the disconnect.
   */
  lemma DisconnectDuringLoadRespawns(s: State, img: Image, throws: bool)
    requires Inv(s) && s.phase.Fetching?
    requires EffectiveWidth(s.config, Some(img)) > 0 && EffectiveHeight(s.config, Some(img)) > 0
    ensures var t := Run(s, [Disconnected(throws), ImageLoaded(img, Spawns)]);
      && t.worker == Some(s.nextWorker) && t.workerUrl.Some?
      && t.urlsCreated == s.urlsCreated + 1 && t.urlsCreated == t.urlsRevoked + 1
  {
    var s1 := Disconnect(s, throws);
    RunTwo(s, Disconnected(throws), ImageLoaded(img, Spawns));
    StepDisconnected(s, throws);
    assert s1.phase.Fetching? && s1.workerUrl.None? && s1.urlsCreated == s1.urlsRevoked;
    StepImageLoaded(s1, img, Spawns);
  }
}
