/** The hand-over from `stop` to the main thread blocked in `run`.

    `run` takes the mutex and waits on a condition variable until the stop flag is set; `stop` sets
    the flag and notifies while holding the same mutex.
 */
module Wakeup {

  /** The main thread: before the wait; holding the mutex and about to test the flag; asleep; woken
      and in need of the mutex; past the wait. */
  datatype Main = Before | Testing | Asleep | Woken | Through

  /** The thread running `stop`: before it; holding the mutex; flag stored; notified; mutex released. */
  datatype Stopper = Idle | Locked | Stored | Notified | Done

  datatype World = World(main: Main, stopper: Stopper, stop: bool)

  datatype Event =
    | MainLocks      // the main thread acquires the mutex, before its first test or after waking
    | MainTests      // with the flag set it goes on; otherwise it sleeps and releases the mutex, atomically
    | Spurious       // the condition variable may wake without a notification
    | StopLocks | StopStores | StopNotifies | StopUnlocks

  const START := World(Before, Idle, false)

  predicate MutexFree(w: World) {
    w.main != Testing && (w.stopper == Idle || w.stopper == Done)
  }

  predicate Enabled(w: World, e: Event) {
    match e
    case MainLocks => MutexFree(w) && (w.main == Before || w.main == Woken)
    case MainTests => w.main == Testing
    case Spurious => w.main == Asleep
    case StopLocks => MutexFree(w) && w.stopper == Idle
    case StopStores => w.stopper == Locked
    case StopNotifies => w.stopper == Stored
    case StopUnlocks => w.stopper == Notified
  }

  function Step(w: World, e: Event): World
    requires Enabled(w, e)
  {
    match e
    case MainLocks => w.(main := Testing)
    case MainTests => w.(main := if w.stop then Through else Asleep)
    case Spurious => w.(main := Woken)
    case StopLocks => w.(stopper := Locked)
    case StopStores => w.(stopper := Stored, stop := true)
    case StopNotifies => w.(stopper := Notified, main := if w.main == Asleep then Woken else w.main)
    case StopUnlocks => w.(stopper := Done)
  }

  datatype Outcome = State(w: World) | Impossible

  function Run(es: seq<Event>): Outcome
    decreases |es|
  {
    if es == [] then State(START)
    else
      var before := Run(es[..|es| - 1]);
      if before.State? && Enabled(before.w, es[|es| - 1]) then State(Step(before.w, es[|es| - 1])) else Impossible
  }

  ghost predicate Inv(w: World) {
    && (w.stop <==> w.stopper in {Stored, Notified, Done})
    && (w.main == Asleep ==> w.stopper in {Idle, Locked, Stored})
    && (w.main == Testing ==> w.stopper in {Idle, Done})
    && (w.main == Through ==> w.stop)
  }

  lemma {:induction false} RunKeepsInv(es: seq<Event>)
    requires Run(es).State?
    ensures Inv(Run(es).w)
    decreases |es|
  {
    if es != [] {
      RunKeepsInv(es[..|es| - 1]);
    }
  }

  /** How many steps of its own the main thread needs to get past the wait once `stop` is done. */
  function StepsToGo(w: World): nat {
    match w.main
    case Before => 2
    case Woken => 2
    case Testing => 1
    case Asleep => 3
    case Through => 0
  }

  /** No lost wakeup: once `stop` has finished, the main thread is never asleep; and until it is past
      the wait it always has a step, and each step brings it closer. */
  lemma NoLostWakeup(es: seq<Event>)
    requires Run(es).State? && Run(es).w.stopper == Done
    ensures var w := Run(es).w;
      && w.main != Asleep
      && (w.main != Through ==> Enabled(w, MainLocks) || Enabled(w, MainTests))
      && forall e :: Enabled(w, e) ==> Step(w, e).stopper == Done && StepsToGo(Step(w, e)) < StepsToGo(w)
  {
    RunKeepsInv(es);
  }

  /** The main thread gets past the wait only after the flag has been set. */
  lemma OnlyAfterStop(es: seq<Event>)
    requires Run(es).State? && Run(es).w.main == Through
    ensures Run(es).w.stop
  {
    RunKeepsInv(es);
  }
}
