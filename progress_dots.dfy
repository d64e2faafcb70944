/**
 * The progress column beside the timeline (src/components/StickySidebar.jsx):
 * one dot per step, classified against the shell's current index, with the
 * connector lines between dots and the "k of N" counter.
 */
module ProgressDots {
  import opened Options

  datatype Status = Current | Completed | Upcoming

  /** A dot's status: current at the index, completed before it, upcoming after it. */
  function StatusOf(i: nat, current: nat): (st: Status)
    ensures st == Current <==> i == current
    ensures st == Completed <==> i < current
    ensures st == Upcoming <==> i > current
  {
    if i == current then Current else if i < current then Completed else Upcoming
  }

  datatype Connector = Green | Grey

  /** What the i-th dot shows, and the index its click reports. */
  datatype Dot = Dot(status: Status, glow: bool, check: bool, indicator: bool, connector: Option<Connector>, reports: nat)

  function DotAt(i: nat, n: nat, current: nat): (d: Dot)
    ensures d.status == StatusOf(i, current)
    ensures d.glow <==> i <= current
    ensures d.connector.Some? ==> (d.connector.value == Green <==> i < current)
    ensures d.check <==> d.status == Completed
    ensures d.indicator <==> d.status == Current
    ensures d.glow <==> d.status != Upcoming
    ensures d.connector.Some? <==> i + 1 < n
    ensures d.connector.Some? ==> (d.connector.value == Green <==> d.status == Completed)
    ensures d.reports == i
  {
    Dot(StatusOf(i, current),
        i == current || i < current,
        i < current,
        i == current,
        if i < n - 1 then Some(if i < current then Green else Grey) else None,
        i)
  }

  /** The column: nothing for an empty collection, else one dot per step in order. */
  function Render(n: nat, current: nat): (r: Option<seq<Dot>>)
    ensures r.None? <==> n == 0
    ensures r.Some? ==> |r.value| == n && forall i :: 0 <= i < n ==> r.value[i] == DotAt(i, n, current)
  {
    if n == 0 then None else Some(seq(n, i requires 0 <= i < n => DotAt(i, n, current)))
  }

  /** The counter below the dots: "{currentStep + 1} of {steps.length}". */
  function Counter(current: nat, n: nat): (c: (nat, nat))
    ensures c.0 == current + 1 && c.1 == n
  {
    (current + 1, n)
  }

  /** The number of dots with status st. */
  function CountStatus(dots: seq<Dot>, st: Status): nat
    decreases |dots|
  {
    if dots == [] then 0
    else CountStatus(dots[..|dots| - 1], st) + (if dots[|dots| - 1].status == st then 1 else 0)
  }

  lemma {:induction false} CountPrefix(n: nat, current: nat, k: nat)
    requires 0 < n && k <= n
    ensures var dots := Render(n, current).value[..k];
            && CountStatus(dots, Current) == (if current < k then 1 else 0)
            && CountStatus(dots, Completed) == (if current < k then current else k)
            && CountStatus(dots, Upcoming) == (if current < k then k - 1 - current else 0)
  {
    if k > 0 {
      var all := Render(n, current).value;
      assert all[..k][..k - 1] == all[..k - 1];
      assert all[..k][k - 1] == DotAt(k - 1, n, current);
      CountPrefix(n, current, k - 1);
    }
  }

  /** With the index in range exactly one dot is current and exactly `current` dots are completed. */
  lemma DotCounts(n: nat, current: nat)
    requires current < n
    ensures CountStatus(Render(n, current).value, Current) == 1
    ensures CountStatus(Render(n, current).value, Completed) == current
    ensures CountStatus(Render(n, current).value, Upcoming) == n - 1 - current
  {
    CountPrefix(n, current, n);
    assert Render(n, current).value[..n] == Render(n, current).value;
  }

  /** An index left past the end by a delete shows no current dot, every dot completed, and "k of N" with k > N. */
  lemma IndexPastEnd(n: nat, current: nat)
    requires 0 < n <= current
    ensures CountStatus(Render(n, current).value, Current) == 0
    ensures CountStatus(Render(n, current).value, Completed) == n
    ensures Counter(current, n).0 > Counter(current, n).1
  {
    CountPrefix(n, current, n);
    assert Render(n, current).value[..n] == Render(n, current).value;
  }
}
