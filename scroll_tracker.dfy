/**
 * The scroll step tracker (src/components/Timeline.jsx). Crossing detection
 * belongs to the scrolling library; here a crossing is an input delivered to
 * one registered trigger. The policy of the four callbacks is OnCrossing; the
 * class Tracker holds the shell's current index, the trigger registry, the
 * pending 100 ms initialisation timeout and the resize bookkeeping.
 */
module ScrollTracker {
  import opened Options

  /** onEnter, onEnterBack, onLeave and onLeaveBack. */
  datatype Crossing = Enter | EnterBack | Leave | LeaveBack

  /**
   * A registered scroll trigger. Tracker is the step-tracking trigger of an
   * anchor and keeps the steps.length its callbacks closed over; the two
   * reveal triggers come from the entrance animations and change no index.
   */
  datatype Trigger = Tracker(anchor: nat, count: nat) | CardReveal(anchor: nat) | TextReveal(anchor: nat)

  /** The index after a crossing of anchor `index`, for a collection of `count` steps. */
  function OnCrossing(current: nat, index: nat, count: nat, e: Crossing): (r: nat)
    ensures e == Enter || e == EnterBack ==> r == index
    ensures e == Leave ==> r == (if index + 1 == count then index else current)
    ensures e == LeaveBack ==> r == (if index == 0 then 0 else current)
  {
    match e
    case Enter => index
    case EnterBack => index
    case Leave => if index == count - 1 then index else current
    case LeaveBack => if index == 0 then 0 else current
  }

  /** The effect of a crossing delivered to a registered trigger. */
  function Fire(t: Trigger, current: nat, e: Crossing): (r: nat)
    ensures !t.Tracker? ==> r == current
    ensures t.Tracker? ==> r == OnCrossing(current, t.anchor, t.count, e)
  {
    match t
    case Tracker(anchor, count) => OnCrossing(current, anchor, count, e)
    case CardReveal(_) => current
    case TextReveal(_) => current
  }

  /** A crossing of anchor `index` in direction `dir`. */
  datatype Event = Event(index: nat, dir: Crossing)

  /** The index after each event of a run of crossings against triggers built for `count` steps. */
  function Trace(current: nat, events: seq<Event>, count: nat): (r: seq<nat>)
    ensures |r| == |events|
    decreases |events|
  {
    if events == [] then []
    else
      var next := OnCrossing(current, events[0].index, count, events[0].dir);
      [next] + Trace(next, events[1..], count)
  }

  /** Scrolling down through anchors k .. n-1: enter, then leave, each in turn. */
  function Forward(k: nat, n: nat): (r: seq<Event>)
    decreases n - k
  {
    if k >= n then [] else [Event(k, Enter), Event(k, Leave)] + Forward(k + 1, n)
  }

  /** Scrolling up through anchors m-1 .. 0: enter back, then leave back, each in turn. */
  function Backward(m: nat): (r: seq<Event>) {
    if m == 0 then [] else [Event(m - 1, EnterBack), Event(m - 1, LeaveBack)] + Backward(m - 1)
  }

  /** k, k, k+1, k+1, ..., n-1, n-1. */
  function Doubled(k: nat, n: nat): (r: seq<nat>)
    decreases n - k
  {
    if k >= n then [] else [k, k] + Doubled(k + 1, n)
  }

  /** m-1, m-1, ..., 0, 0. */
  function DoubledDown(m: nat): (r: seq<nat>) {
    if m == 0 then [] else [m - 1, m - 1] + DoubledDown(m - 1)
  }

  function Reverse<T>(s: seq<T>): (r: seq<T>)
    ensures |r| == |s|
  {
    seq(|s|, i requires 0 <= i < |s| => s[|s| - 1 - i])
  }

  /** Whatever the index was, scrolling down from anchor k gives k, k, ..., n-1, n-1. */
  lemma {:induction false} TraceForward(current: nat, k: nat, n: nat)
    requires k <= n
    ensures Trace(current, Forward(k, n), n) == Doubled(k, n)
    decreases n - k
  {
    if k < n {
      var evs := Forward(k, n);
      assert evs[0] == Event(k, Enter);
      assert evs[1..] == [Event(k, Leave)] + Forward(k + 1, n);
      assert evs[1..][0] == Event(k, Leave);
      assert evs[1..][1..] == Forward(k + 1, n);
      TraceForward(k, k + 1, n);
    }
  }

  /** Whatever the index was, scrolling up from anchor m-1 gives m-1, m-1, ..., 0, 0. */
  lemma {:induction false} TraceBackward(current: nat, m: nat, n: nat)
    ensures Trace(current, Backward(m), n) == DoubledDown(m)
    decreases m
  {
    if m > 0 {
      var evs := Backward(m);
      assert evs[0] == Event(m - 1, EnterBack);
      assert evs[1..] == [Event(m - 1, LeaveBack)] + Backward(m - 1);
      assert evs[1..][0] == Event(m - 1, LeaveBack);
      assert evs[1..][1..] == Backward(m - 1);
      TraceBackward(m - 1, m - 1, n);
    }
  }

  lemma {:induction false} DoubledAt(k: nat, n: nat, j: nat)
    requires k <= n && j < 2 * (n - k)
    ensures |Doubled(k, n)| == 2 * (n - k)
    ensures Doubled(k, n)[j] == k + j / 2
    decreases n - k
  {
    if j >= 2 {
      DoubledAt(k + 1, n, j - 2);
    } else if k + 1 <= n {
      DoubledLength(k + 1, n);
    }
  }

  lemma {:induction false} DoubledLength(k: nat, n: nat)
    requires k <= n
    ensures |Doubled(k, n)| == 2 * (n - k)
    decreases n - k
  {
    if k < n { DoubledLength(k + 1, n); }
  }

  lemma {:induction false} DoubledDownAt(m: nat, j: nat)
    requires j < 2 * m
    ensures |DoubledDown(m)| == 2 * m
    ensures DoubledDown(m)[j] == m - 1 - j / 2
  {
    if j >= 2 {
      DoubledDownAt(m - 1, j - 2);
    } else {
      DoubledDownLength(m - 1);
    }
  }

  lemma {:induction false} DoubledDownLength(m: nat)
    ensures |DoubledDown(m)| == 2 * m
  {
    if m > 0 { DoubledDownLength(m - 1); }
  }

  /**
   * Scroll symmetry: the forward run of n anchors yields 0, 0, 1, 1, ..., n-1, n-1,
   * and the backward run yields exactly that sequence reversed.
   */
  lemma ScrollSymmetry(before: nat, after: nat, n: nat)
    ensures Trace(before, Forward(0, n), n) == Doubled(0, n)
    ensures Trace(after, Backward(n), n) == Reverse(Trace(before, Forward(0, n), n))
  {
    TraceForward(before, 0, n);
    TraceBackward(after, n, n);
    DoubledLength(0, n);
    DoubledDownLength(n);
    var up, down := Doubled(0, n), DoubledDown(n);
    forall j | 0 <= j < 2 * n ensures down[j] == Reverse(up)[j] {
      DoubledDownAt(n, j);
      DoubledAt(0, n, 2 * n - 1 - j);
      assert (2 * n - 1 - j) / 2 == n - 1 - j / 2;
    }
  }

  /** Every event names an anchor of the collection. */
  predicate EventsInRange(events: seq<Event>, n: nat) {
    forall k :: 0 <= k < |events| ==> events[k].index < n
  }

  /** Starting in range and fed in-range events, the index stays in range. */
  lemma {:induction false} TraceInRange(current: nat, events: seq<Event>, n: nat)
    requires current < n && EventsInRange(events, n)
    ensures forall k :: 0 <= k < |events| ==> Trace(current, events, n)[k] < n
    decreases |events|
  {
    if events != [] {
      var next := OnCrossing(current, events[0].index, n, events[0].dir);
      assert EventsInRange(events[1..], n) by {
        forall k | 0 <= k < |events[1..]| ensures events[1..][k].index < n {
          assert events[1..][k] == events[k + 1];
        }
      }
      TraceInRange(next, events[1..], n);
    }
  }

  /** The three triggers created for a mounted anchor. */
  function PerAnchor(i: nat, n: nat): seq<Trigger> {
    [Tracker(i, n), CardReveal(i), TextReveal(i)]
  }

  /** The registry after the forEach over the anchor slots (false for an unmounted slot). */
  function Registered(anchors: seq<bool>, n: nat): (r: seq<Trigger>)
    decreases |anchors|
  {
    if anchors == [] then []
    else
      var last := |anchors| - 1;
      Registered(anchors[..last], n) + (if anchors[last] then PerAnchor(last, n) else [])
  }

  /** The number of step-tracking triggers for anchor a. */
  function TrackersOf(ts: seq<Trigger>, a: nat): nat
    decreases |ts|
  {
    if ts == [] then 0
    else TrackersOf(ts[..|ts| - 1], a) + (if ts[|ts| - 1].Tracker? && ts[|ts| - 1].anchor == a then 1 else 0)
  }

  lemma {:induction false} TrackersOfAppend(x: seq<Trigger>, y: seq<Trigger>, a: nat)
    ensures TrackersOf(x + y, a) == TrackersOf(x, a) + TrackersOf(y, a)
    decreases |y|
  {
    if y != [] {
      var last := |y| - 1;
      assert (x + y)[..|x + y| - 1] == x + y[..last];
      assert (x + y)[|x + y| - 1] == y[last];
      TrackersOfAppend(x, y[..last], a);
    } else {
      assert x + y == x;
    }
  }

  /** The triggers created for one anchor slot. */
  function SlotTriggers(anchors: seq<bool>, i: nat, n: nat): seq<Trigger>
    requires i < |anchors|
  {
    if anchors[i] then PerAnchor(i, n) else []
  }

  lemma SlotTrackers(anchors: seq<bool>, i: nat, n: nat, a: nat)
    requires i < |anchors|
    ensures TrackersOf(SlotTriggers(anchors, i, n), a) == if anchors[i] && a == i then 1 else 0
  {
    if anchors[i] {
      var p := PerAnchor(i, n);
      assert p[..2][..1] == [Tracker(i, n)];
      assert p[..2][..1][..0] == [];
      assert TrackersOf(p[..2][..1], a) == if a == i then 1 else 0;
      assert p[..2][1] == CardReveal(i);
      assert TrackersOf(p[..2], a) == TrackersOf(p[..2][..1], a);
    }
  }

  /** Exactly one step-tracking trigger per mounted anchor slot and none for any other index. */
  lemma {:induction false} OneTrackerPerAnchor(anchors: seq<bool>, n: nat, a: nat)
    ensures TrackersOf(Registered(anchors, n), a) == if a < |anchors| && anchors[a] then 1 else 0
    decreases |anchors|
  {
    if anchors != [] {
      var last := |anchors| - 1;
      var front := anchors[..last];
      OneTrackerPerAnchor(front, n, a);
      assert Registered(anchors, n) == Registered(front, n) + SlotTriggers(anchors, last, n);
      TrackersOfAppend(Registered(front, n), SlotTriggers(anchors, last, n), a);
      SlotTrackers(anchors, last, n, a);
      if a < last {
        assert front[a] == anchors[a];
      }
    }
  }

  /** Every created trigger belongs to a mounted anchor slot, and every tracker closes over n. */
  lemma {:induction false} RegisteredAnchorsMounted(anchors: seq<bool>, n: nat)
    ensures forall t :: t in Registered(anchors, n) ==> t.anchor < |anchors| && anchors[t.anchor]
    ensures forall t :: t in Registered(anchors, n) && t.Tracker? ==> t.count == n
    decreases |anchors|
  {
    if anchors != [] {
      var last := |anchors| - 1;
      var front := anchors[..last];
      RegisteredAnchorsMounted(front, n);
      assert Registered(anchors, n) == Registered(front, n) + SlotTriggers(anchors, last, n);
      forall t | t in Registered(front, n) ensures t.anchor < |anchors| && anchors[t.anchor] {
        assert front[t.anchor] == anchors[t.anchor];
      }
    }
  }

  /** The shell's index as driven by the timeline, with the trigger registry and timers. */
  class Tracker {
    /** The shell's currentStep, written through setCurrentStep. */
    var current: nat
    /** Every live scroll trigger, in creation order. */
    var triggers: seq<Trigger>
    /** The 100 ms initialisation timeout, with the steps.length its callback closed over. */
    var pending: Option<nat>
    /** The last effect run returned a cleanup; it does so exactly when steps was non-empty. */
    var armed: bool
    /** isInitialized: triggers were created at least once; never reset. */
    var initialized: bool
    /** The number of geometry refreshes performed. */
    var refreshes: nat

    ghost predicate Valid()
      reads this
    {
      && (pending.Some? ==> armed && pending.value > 0)
      && (!armed ==> triggers == [] && pending.None?)
    }

    /** One mount of the timeline; `start` is the shell's currentStep, which outlives every remount. */
    constructor(start: nat)
      ensures Valid()
      ensures current == start && triggers == [] && pending == None && !armed && !initialized && refreshes == 0
    {
      current, triggers, pending, armed, initialized, refreshes := start, [], None, false, false, 0;
    }

    /** initializeScrollTriggers: a no-op without anchors or steps, else kill every trigger and create them anew. */
    method Initialize(anchors: seq<bool>, n: nat)
      requires Valid() && armed
      modifies this
      ensures Valid()
      ensures current == old(current) && pending == old(pending) && armed == old(armed)
      ensures |anchors| == 0 || n == 0 ==>
                triggers == old(triggers) && initialized == old(initialized) && refreshes == old(refreshes)
      ensures |anchors| > 0 && n > 0 ==>
                triggers == Registered(anchors, n) && initialized && refreshes == old(refreshes) + 1
    {
      if |anchors| == 0 || n == 0 {
        return;
      }
      triggers := [];
      var i := 0;
      while i < |anchors|
        invariant 0 <= i <= |anchors|
        invariant triggers == Registered(anchors[..i], n)
        invariant current == old(current) && pending == old(pending) && armed == old(armed)
        invariant initialized == old(initialized) && refreshes == old(refreshes)
      {
        assert anchors[..i + 1][..i] == anchors[..i];
        if anchors[i] {
          triggers := triggers + PerAnchor(i, n);
        }
        i := i + 1;
      }
      assert anchors[..i] == anchors;
      refreshes := refreshes + 1;
      initialized := true;
    }

    /** The effect cleanup, run on a steps change and on unmount: cancel the timeout, kill every trigger. */
    method Cleanup()
      requires Valid()
      modifies this
      ensures Valid()
      ensures triggers == [] && pending == None && !armed
      ensures current == old(current) && initialized == old(initialized) && refreshes == old(refreshes)
    {
      if armed {
        pending := None;
        triggers := [];
        armed := false;
      }
    }

    /** The effect body after a render with n steps: schedule initialisation only when n > 0. */
    method Effect(n: nat)
      requires Valid() && !armed
      modifies this
      ensures Valid()
      ensures pending == (if n > 0 then Some(n) else None) && armed == (n > 0)
      ensures triggers == old(triggers) && current == old(current)
      ensures initialized == old(initialized) && refreshes == old(refreshes)
    {
      if n > 0 {
        pending := Some(n);
        armed := true;
      }
    }

    /** A new steps array: the previous run's cleanup, then the effect again. */
    method StepsChanged(n: nat)
      requires Valid()
      modifies this
      ensures Valid()
      ensures triggers == [] && pending == (if n > 0 then Some(n) else None) && armed == (n > 0)
      ensures current == old(current) && initialized == old(initialized) && refreshes == old(refreshes)
    {
      Cleanup();
      Effect(n);
    }

    /** The 100 ms timeout fires; `anchors` says which anchor slots hold a mounted element by then. */
    method TimerFires(anchors: seq<bool>)
      requires Valid() && pending.Some?
      modifies this
      ensures Valid() && pending == None && armed
      ensures current == old(current)
      ensures |anchors| == 0 ==> triggers == old(triggers) && refreshes == old(refreshes) && initialized == old(initialized)
      ensures |anchors| > 0 ==> triggers == Registered(anchors, old(pending).value) && initialized && refreshes == old(refreshes) + 1
    {
      var n := pending.value;
      pending := None;
      Initialize(anchors, n);
    }

    /** handleResize: refresh the geometry once initialised; the index and the triggers are untouched. */
    method Resize()
      requires Valid()
      modifies this
      ensures Valid()
      ensures refreshes == old(refreshes) + (if initialized then 1 else 0)
      ensures current == old(current) && triggers == old(triggers) && pending == old(pending)
      ensures armed == old(armed) && initialized == old(initialized)
    {
      if initialized {
        refreshes := refreshes + 1;
      }
    }

    /** The library reports a crossing to live trigger number k. */
    method Cross(k: nat, e: Crossing)
      requires Valid() && k < |triggers|
      modifies this
      ensures Valid()
      ensures current == Fire(old(triggers)[k], old(current), e)
      ensures triggers == old(triggers) && pending == old(pending) && armed == old(armed)
      ensures initialized == old(initialized) && refreshes == old(refreshes)
    {
      current := Fire(triggers[k], current, e);
    }
  }
}
