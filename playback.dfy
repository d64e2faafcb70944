/**
 * The autoplay preview (src/components/DemoPreview.jsx). Its four `useState`
 * variables are the fields of class Preview; each handler and the interval
 * callback is a method whose new state is given by a transition function on
 * the value type State. Progress is kept in half-percent units, so one tick
 * (0.5 %) adds exactly 1 and a full step is 200.
 */
module Playback {
  import opened Options
  import opened StepCollection

  /** Progress units in a full step: 100 % at 0.5 % per tick. */
  const Full: nat := 200

  /** Milliseconds between two ticks of the autoplay interval. */
  const TickMillis: nat := 50

  /** currentStep, isPlaying, progress (in half-percents) and isCompleted. */
  datatype State = State(step: nat, playing: bool, progress: nat, completed: bool)

  /** The state the preview is mounted with. */
  function Initial(): (s: State)
    ensures s.step == 0 && !s.playing && s.progress == 0 && !s.completed
  {
    State(0, false, 0, false)
  }

  /** The invariant every reachable state keeps, for a collection of n steps. */
  predicate Inv(s: State, n: nat) {
    && s.progress <= Full
    && (s.completed <==> s.progress == Full)
    && (s.completed ==> !s.playing)
    && (if n == 0 then s.step == 0 else s.step < n)
    && (s.completed && n > 0 ==> s.step == n - 1)
  }

  /** The interval exists exactly while playing and not completed; ticks come only then. */
  predicate TimerRunning(s: State) {
    s.playing && !s.completed
  }

  /** One interval callback: add 0.5 %, and at 100 % advance or complete. */
  function AfterTick(s: State, n: nat): (r: State)
    requires TimerRunning(s)
    ensures s.progress + 1 < Full ==> r == s.(progress := s.progress + 1)
    ensures s.progress + 1 >= Full && s.step + 1 < n ==> r == State(s.step + 1, true, 0, false)
    ensures s.progress + 1 >= Full && s.step + 1 >= n ==> r == State(s.step, false, Full, true)
  {
    var next := s.progress + 1;
    if next >= Full then
      if s.step < n - 1 then s.(step := s.step + 1, progress := 0)
      else s.(playing := false, completed := true, progress := Full)
    else s.(progress := next)
  }

  /** nextStep: moves forward unless on the last step, where nothing changes. */
  function AfterNext(s: State, n: nat): (r: State)
    ensures s.step + 1 < n ==> r == State(s.step + 1, s.playing, 0, false)
    ensures s.step + 1 >= n ==> r == s
  {
    if s.step < n - 1 then s.(step := s.step + 1, progress := 0, completed := false) else s
  }

  /** prevStep: moves back unless on the first step, where nothing changes. */
  function AfterPrev(s: State): (r: State)
    ensures s.step > 0 ==> r == State(s.step - 1, s.playing, 0, false)
    ensures s.step == 0 ==> r == s
  {
    if s.step > 0 then s.(step := s.step - 1, progress := 0, completed := false) else s
  }

  /** restart: back to the first step, paused. */
  function AfterRestart(s: State): (r: State)
    ensures r == Initial()
  {
    State(0, false, 0, false)
  }

  /** togglePlay: replay from the start when completed, else flip playing and keep the position. */
  function AfterToggle(s: State): (r: State)
    ensures s.completed ==> r == State(0, true, 0, false)
    ensures !s.completed ==> r.step == s.step && r.progress == s.progress && !r.completed && r.playing == !s.playing
  {
    if s.completed then AfterRestart(s).(playing := true) else s.(playing := !s.playing)
  }

  /** The state after at most k ticks; the ticks stop once the interval is gone. */
  function Run(s: State, n: nat, k: nat): State
    decreases k
  {
    if k == 0 || !TimerRunning(s) then s else Run(AfterTick(s, n), n, k - 1)
  }

  lemma InitialInv(n: nat)
    ensures Inv(Initial(), n)
    ensures !TimerRunning(Initial())
  {
  }

  /** Every transition keeps the invariant. */
  lemma TransitionsKeepInv(s: State, n: nat)
    requires Inv(s, n)
    ensures TimerRunning(s) ==> Inv(AfterTick(s, n), n)
    ensures Inv(AfterNext(s, n), n)
    ensures Inv(AfterPrev(s), n)
    ensures Inv(AfterRestart(s), n)
    ensures Inv(AfterToggle(s), n)
  {
  }

  /** Pausing removes the timer; resuming gives back exactly the paused position and progress. */
  lemma PauseResume(s: State)
    requires TimerRunning(s)
    ensures !TimerRunning(AfterToggle(s))
    ensures AfterToggle(AfterToggle(s)) == s
  {
  }

  /** Without the timer no tick has any effect: a paused or completed preview is frozen. */
  lemma {:induction false} FrozenWithoutTimer(s: State, n: nat, k: nat)
    requires !TimerRunning(s)
    ensures Run(s, n, k) == s
  {
  }

  /** Starting from progress p, k more ticks that stay below 100 % only add k. */
  lemma {:induction false} TicksAccumulate(s: State, n: nat, k: nat)
    requires TimerRunning(s)
    requires s.progress + k < Full
    ensures Run(s, n, k) == s.(progress := s.progress + k)
    decreases k
  {
    if k > 0 {
      var t := AfterTick(s, n);
      assert t == s.(progress := s.progress + 1);
      TicksAccumulate(t, n, k - 1);
    }
  }

  /** From 0 % on a step that is not the last, 199 ticks stay on it and the 200th moves on: 10 s per step. */
  lemma DwellAdvances(s: State, n: nat)
    requires TimerRunning(s) && s.progress == 0 && s.step + 1 < n
    ensures Run(s, n, Full - 1) == s.(progress := Full - 1)
    ensures Run(s, n, Full) == State(s.step + 1, true, 0, false)
    ensures Full * TickMillis == 10000
  {
    TicksAccumulate(s, n, Full - 1);
    RunSplit(s, n, Full - 1);
  }

  /** From 0 % on the last step, 200 ticks complete the preview. */
  lemma DwellCompletes(s: State, n: nat)
    requires TimerRunning(s) && s.progress == 0 && s.step + 1 >= n
    ensures Run(s, n, Full) == State(s.step, false, Full, true)
  {
    TicksAccumulate(s, n, Full - 1);
    RunSplit(s, n, Full - 1);
  }

  /** k + 1 ticks are k ticks followed by one more. */
  lemma {:induction false} RunSplit(s: State, n: nat, k: nat)
    ensures Run(s, n, k + 1) == Run(Run(s, n, k), n, 1)
    decreases k
  {
    if k > 0 && TimerRunning(s) {
      RunSplit(AfterTick(s, n), n, k - 1);
    }
  }

  /** Any number of ticks keeps the invariant and never moves the step backwards. */
  lemma {:induction false} RunKeepsInv(s: State, n: nat, k: nat)
    requires Inv(s, n)
    ensures Inv(Run(s, n, k), n)
    ensures Run(s, n, k).step >= s.step
    decreases k
  {
    if k > 0 && TimerRunning(s) {
      TransitionsKeepInv(s, n);
      RunKeepsInv(AfterTick(s, n), n, k - 1);
    }
  }

  /** Three steps, play pressed: 200 ticks reach step 1, 400 reach step 2, 600 complete on step 2. */
  lemma ThreeStepAutoplay()
    ensures Run(AfterToggle(Initial()), 3, Full) == State(1, true, 0, false)
    ensures Run(Run(AfterToggle(Initial()), 3, Full), 3, Full) == State(2, true, 0, false)
    ensures Run(Run(Run(AfterToggle(Initial()), 3, Full), 3, Full), 3, Full) == State(2, false, Full, true)
  {
    var s0 := AfterToggle(Initial());
    DwellAdvances(s0, 3);
    var s1 := Run(s0, 3, Full);
    DwellAdvances(s1, 3);
    var s2 := Run(s1, 3, Full);
    DwellCompletes(s2, 3);
  }

  /** The progress-bar width in percent: ((currentStep + progress/100) / N) * 100. */
  function BarPercent(s: State, n: nat): real
    requires n > 0
  {
    ((s.step as real) + (s.progress as real) / (Full as real)) / (n as real) * 100.0
  }

  lemma RatioBounds(u: real, t: real)
    requires 0.0 <= u <= t && t > 0.0
    ensures 0.0 <= u / t <= 1.0
    ensures u / t == 1.0 <==> u == t
  {
    var q := u / t;
    assert q * t == u;
  }

  /** The bar stays within [0, 100] and is full exactly when the preview is completed. */
  lemma BarBounds(s: State, n: nat)
    requires n > 0 && Inv(s, n)
    ensures 0.0 <= BarPercent(s, n) <= 100.0
    ensures BarPercent(s, n) == 100.0 <==> s.completed
  {
    var units := (Full * s.step + s.progress) as real;
    var total := (Full * n) as real;
    assert (s.step as real) + (s.progress as real) / (Full as real) == units / (Full as real);
    assert units / (Full as real) / (n as real) == units / total;
    assert Full * s.step + s.progress <= Full * n;
    assert Full * s.step + s.progress == Full * n <==> s.completed;
    RatioBounds(units, total);
  }

  /** One zoom preset of the image animation. */
  datatype Zoom = Zoom(scale: real, x: int, y: int)

  /** Center, left, right, top and bottom focus. */
  const Presets: seq<Zoom> := [Zoom(1.2, 0, 0), Zoom(1.3, 50, -20), Zoom(1.25, -40, 30), Zoom(1.15, 20, 40), Zoom(1.35, -30, -50)]

  /** The preset animated for a step index: the presets cycle with the index. */
  function ZoomFor(step: nat): (z: Zoom)
    ensures z in Presets
  {
    Presets[step % |Presets|]
  }

  /** The animation runs only when the current step exists. */
  function ZoomEffect(s: State, n: nat): (z: Option<Zoom>)
    ensures z.Some? <==> s.step < n
  {
    if s.step < n then Some(ZoomFor(s.step)) else None
  }

  /** Consecutive steps get different presets, and the presets repeat every five steps. */
  lemma ZoomAlternates(step: nat)
    ensures ZoomFor(step) != ZoomFor(step + 1)
    ensures ZoomFor(step + 5) == ZoomFor(step)
  {
    assert (step + 5) % 5 == step % 5;
    assert (step + 1) % 5 == if step % 5 == 4 then 0 else step % 5 + 1;
  }

  /** `value || fallback` on a number: 0, like a missing value, yields the fallback. */
  function OrElse(v: Option<int>, fallback: int): int {
    if v.Some? && v.value != 0 then v.value else fallback
  }

  /** The rectangle the overlay is drawn with. */
  function ShownHighlight(h: Option<Rect>): (r: Rect)
    ensures r.x != 0 && r.y != 0 && r.width != 0 && r.height != 0
    ensures h.None? ==> r == DefaultHighlight
  {
    var x := if h.Some? then Some(h.value.x) else None;
    var y := if h.Some? then Some(h.value.y) else None;
    var w := if h.Some? then Some(h.value.width) else None;
    var ht := if h.Some? then Some(h.value.height) else None;
    Rect(OrElse(x, DefaultHighlight.x), OrElse(y, DefaultHighlight.y),
         OrElse(w, DefaultHighlight.width), OrElse(ht, DefaultHighlight.height))
  }

  /** Each field falls back to its default exactly when missing or 0; drawing is idempotent. */
  lemma HighlightFallback(r: Rect)
    ensures ShownHighlight(Some(r)).x == (if r.x == 0 then 50 else r.x)
    ensures ShownHighlight(Some(r)).y == (if r.y == 0 then 50 else r.y)
    ensures ShownHighlight(Some(r)).width == (if r.width == 0 then 200 else r.width)
    ensures ShownHighlight(Some(r)).height == (if r.height == 0 then 100 else r.height)
    ensures ShownHighlight(Some(ShownHighlight(Some(r)))) == ShownHighlight(Some(r))
  {
  }

  /** A newly added step is drawn with the default rectangle. */
  lemma AddedStepShowsDefault(steps: seq<Step>, payload: Draft, freshId: int)
    ensures ShownHighlight(Add(steps, payload, freshId)[|steps|].highlight) == DefaultHighlight
  {
  }

  /** The image shown: `image || "/placeholder.svg"`. */
  function ShownImage(image: Option<string>): (r: string)
    ensures r != ""
    ensures image.Some? && image.value != "" ==> r == image.value
  {
    if image.Some? && image.value != "" then image.value else "/placeholder.svg"
  }

  /** The label of the play button. */
  function PlayLabel(s: State): (caption: string)
    ensures caption == "Replay" <==> s.completed
    ensures caption == "Pause" <==> !s.completed && s.playing
    ensures caption == "Play" <==> !s.completed && !s.playing
  {
    if s.completed then "Replay" else if s.playing then "Pause" else "Play"
  }

  /** The preview component: its own step index, separate from the shell's. */
  class Preview {
    /** steps.length; the collection cannot change while the preview is mounted. */
    const n: nat
    var currentStep: nat
    var isPlaying: bool
    var progress: nat
    var isCompleted: bool

    function Current(): State
      reads this
    {
      State(currentStep, isPlaying, progress, isCompleted)
    }

    ghost predicate Valid()
      reads this
    {
      Inv(Current(), n)
    }

    constructor(n: nat)
      ensures this.n == n && Current() == Initial() && Valid()
    {
      this.n := n;
      currentStep, isPlaying, progress, isCompleted := 0, false, 0, false;
    }

    /** The interval callback, delivered only while the interval exists. */
    method Tick()
      requires Valid() && TimerRunning(Current())
      modifies this
      ensures Valid() && Current() == AfterTick(old(Current()), n)
    {
      TransitionsKeepInv(Current(), n);
      var newProgress := progress + 1;
      if newProgress >= Full {
        if currentStep < n - 1 {
          currentStep := currentStep + 1;
          progress := 0;
        } else {
          isPlaying := false;
          isCompleted := true;
          progress := Full;
        }
      } else {
        progress := newProgress;
      }
    }

    method NextStep()
      requires Valid()
      modifies this
      ensures Valid() && Current() == AfterNext(old(Current()), n)
    {
      TransitionsKeepInv(Current(), n);
      if currentStep < n - 1 {
        currentStep := currentStep + 1;
        progress := 0;
        isCompleted := false;
      }
    }

    method PrevStep()
      requires Valid()
      modifies this
      ensures Valid() && Current() == AfterPrev(old(Current()))
    {
      TransitionsKeepInv(Current(), n);
      if currentStep > 0 {
        currentStep := currentStep - 1;
        progress := 0;
        isCompleted := false;
      }
    }

    method Restart()
      requires Valid()
      modifies this
      ensures Valid() && Current() == AfterRestart(old(Current()))
    {
      currentStep := 0;
      progress := 0;
      isPlaying := false;
      isCompleted := false;
    }

    /** The 100 ms delay before replaying is taken as instantaneous. */
    method TogglePlay()
      requires Valid()
      modifies this
      ensures Valid() && Current() == AfterToggle(old(Current()))
    {
      TransitionsKeepInv(Current(), n);
      if isCompleted {
        Restart();
        isPlaying := true;
      } else {
        isPlaying := !isPlaying;
      }
    }
  }
}
