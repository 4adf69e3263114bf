/** The panels of the dashboard, their cyclic order and the ordinal the tab
    bar uses to highlight the active one (`MenuItem` in src/main.rs). */
module Menu {

  /** `Quit` is a sentinel: it is never the active panel, and moving to the
      next or previous panel from it is unreachable. */
  datatype MenuItem = Home | Todo | Done | All | Notes | Quit

  /** The five panels the user can move between. */
  predicate Navigable(p: MenuItem) {
    !p.Quit?
  }

  /** The ordinal of a panel (`From<MenuItem> for usize`). */
  function Index(p: MenuItem): (n: nat)
    ensures n <= 5
    ensures n == 5 <==> p == Quit
  {
    match p
    case Home => 0
    case Todo => 1
    case Done => 2
    case All => 3
    case Notes => 4
    case Quit => 5
  }

  /** The panel to the right of `p`, wrapping from Notes to Home. */
  function Next(p: MenuItem): (r: MenuItem)
    requires Navigable(p)
    ensures Navigable(r)
    ensures Index(r) == (Index(p) + 1) % 5
  {
    match p
    case Home => Todo
    case Todo => Done
    case Done => All
    case All => Notes
    case Notes => Home
  }

  /** The panel to the left of `p`, wrapping from Home to Notes. */
  function Previous(p: MenuItem): (r: MenuItem)
    requires Navigable(p)
    ensures Navigable(r)
    ensures Index(r) == (Index(p) + 4) % 5
  {
    match p
    case Home => Notes
    case Todo => Home
    case Done => Todo
    case All => Done
    case Notes => All
  }

  /** `Next` applied `k` times. */
  function NextTimes(p: MenuItem, k: nat): (r: MenuItem)
    requires Navigable(p)
    ensures Navigable(r)
  {
    if k == 0 then p else Next(NextTimes(p, k - 1))
  }

  /** `Previous` applied `k` times. */
  function PreviousTimes(p: MenuItem, k: nat): (r: MenuItem)
    requires Navigable(p)
    ensures Navigable(r)
  {
    if k == 0 then p else Previous(PreviousTimes(p, k - 1))
  }

  /** Distinct panels have distinct ordinals. */
  lemma IndexInjective(p: MenuItem, q: MenuItem)
    ensures Index(p) == Index(q) <==> p == q
  {
  }

  lemma PreviousUndoesNext(p: MenuItem)
    requires Navigable(p)
    ensures Previous(Next(p)) == p
  {
    IndexInjective(Previous(Next(p)), p);
  }

  lemma NextUndoesPrevious(p: MenuItem)
    requires Navigable(p)
    ensures Next(Previous(p)) == p
  {
    IndexInjective(Next(Previous(p)), p);
  }

  /** Moving right `k` times advances the ordinal by `k`, modulo five. */
  lemma {:induction false} NextTimesIndex(p: MenuItem, k: nat)
    requires Navigable(p)
    ensures Index(NextTimes(p, k)) == (Index(p) + k) % 5
  {
    if k > 0 {
      var before := NextTimes(p, k - 1);
      var a := Index(p) + k - 1;
      NextTimesIndex(p, k - 1);
      assert Index(before) == a % 5;
      assert Index(Next(before)) == (a % 5 + 1) % 5;
      assert (a % 5 + 1) % 5 == (a + 1) % 5;
    }
  }

  /** Moving left `k` times lowers the ordinal by `k`, modulo five. */
  lemma {:induction false} PreviousTimesIndex(p: MenuItem, k: nat)
    requires Navigable(p)
    ensures Index(PreviousTimes(p, k)) == (Index(p) + 4 * k) % 5
  {
    if k > 0 {
      var before := PreviousTimes(p, k - 1);
      var a := Index(p) + 4 * (k - 1);
      PreviousTimesIndex(p, k - 1);
      assert Index(before) == a % 5;
      assert Index(Previous(before)) == (a % 5 + 4) % 5;
      assert (a % 5 + 4) % 5 == (a + 4) % 5;
    }
  }

  /** Five moves to the right come back to the starting panel. */
  lemma NextCycle(p: MenuItem)
    requires Navigable(p)
    ensures NextTimes(p, 5) == p
    ensures forall k :: 0 < k < 5 ==> NextTimes(p, k) != p
  {
    forall k | 0 <= k <= 5
      ensures Index(NextTimes(p, k)) == (Index(p) + k) % 5
    {
      NextTimesIndex(p, k);
    }
    IndexInjective(NextTimes(p, 5), p);
  }

  /** Five moves to the left come back to the starting panel. */
  lemma PreviousCycle(p: MenuItem)
    requires Navigable(p)
    ensures PreviousTimes(p, 5) == p
    ensures forall k :: 0 < k < 5 ==> PreviousTimes(p, k) != p
  {
    forall k | 0 <= k <= 5
      ensures Index(PreviousTimes(p, k)) == (Index(p) + 4 * k) % 5
    {
      PreviousTimesIndex(p, k);
    }
    IndexInjective(PreviousTimes(p, 5), p);
  }
}
