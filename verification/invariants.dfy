/**
 * The invariant every reachable element state keeps: the listener is
 * attached to exactly the registered worker, every other spawned worker has
 * been told to terminate, no worker is registered while an image is
 * awaited, the stored point count is clamped, and at most one script URL is
 * live.
 */
module Invariants {
  import opened Config
  import opened Element

  /** Ids of all workers spawned before `n`. */
  function Spawned(n: nat): (r: set<WorkerId>)
    ensures forall id: nat :: id in r <==> id < n
  {
    if n == 0 then {} else Spawned(n - 1) + {n - 1}
  }

  ghost predicate Inv(s: State) {
    && s.config.points <= MaxPoints
    && s.listening == Registered(s.worker)
    && (s.worker.Some? ==> s.worker.value < s.nextWorker)
    && (s.phase.Fetching? || s.phase.Resuming? ==> s.worker.None?)
    && Spawned(s.nextWorker) - s.stopped <= Registered(s.worker)
    && s.urlsCreated == s.urlsRevoked + UrlHandles(s)
  }

  lemma InitialInv()
    ensures Inv(Initial)
  {
  }

  lemma RefreshInv(s: State, throws: bool)
    requires Inv(s)
    ensures Inv(Refresh(s, throws))
  {
  }

  lemma ResumeInv(s: State, img: Image, out: Spawn)
    requires Inv(s) && s.worker.None?
    ensures Inv(Resume(s, img, out))
  {
    var r := Resume(s, img, out);
    if r.worker.Some? {
      assert Spawned(r.nextWorker) == Spawned(s.nextWorker) + {s.nextWorker};
    }
  }

  /** Every transition keeps the invariant. */
  lemma {:induction false} StepInv(s: State, e: Event)
    requires Inv(s)
    ensures Inv(Step(s, e))
  {
    match e
    case Set(f, throws) =>
      var (c, effect) := Apply(s.config, f);
      if effect == Recompute {
        RefreshInv(s.(config := c), throws);
      }
    case Connected(throws) => RefreshInv(s, throws);
    case Disconnected(_) =>
    case ImageLoaded(img, out) =>
      if s.phase.Fetching? {
        ResumeInv(s, img, out);
      }
    case ImageFailed =>
    case Resumed(out) =>
      if s.phase.Resuming? {
        ResumeInv(s, s.phase.image, out);
      }
    case Settled =>
    case WorkerMessage(from, points, iteration) =>
    case TimerFired(_) =>
  }

  /** Every state reachable from a state satisfying the invariant satisfies it. */
  lemma {:induction false} RunInv(s: State, es: seq<Event>)
    requires Inv(s)
    ensures Inv(Run(s, es))
    decreases |es|
  {
    if |es| > 0 {
      RunInv(s, es[..|es| - 1]);
      StepInv(Run(s, es[..|es| - 1]), es[|es| - 1]);
    }
  }

  /** In a state satisfying the invariant at most one worker and one script URL are live. */
  lemma LiveBounds(s: State)
    requires Inv(s)
    ensures |Spawned(s.nextWorker) - s.stopped| <= 1
    ensures s.urlsCreated - s.urlsRevoked <= 1
    ensures s.worker.None? ==> Spawned(s.nextWorker) <= s.stopped
  {
    SubsetCard(Spawned(s.nextWorker) - s.stopped, Registered(s.worker));
  }

  /**
   * However many connect/disconnect cycles and refreshes happen, at most one
   * spawned worker has not been told to terminate and at most one script URL
   * is unreleased; with no worker registered, none is left running.
   */
  lemma NoLeak(es: seq<Event>, s: State)
    requires s == Run(Initial, es)
    ensures |Spawned(s.nextWorker) - s.stopped| <= 1
    ensures s.urlsCreated - s.urlsRevoked <= 1
    ensures s.worker.None? ==> Spawned(s.nextWorker) <= s.stopped
  {
    InitialInv();
    RunInv(Initial, es);
    LiveBounds(s);
  }

  lemma SubsetCard(a: set<WorkerId>, b: set<WorkerId>)
    requires a <= b
    ensures |a| <= |b|
  {
    assert b == a + (b - a);
  }
}
