/**
 The step grid of the sequencer: one on/off flag per step of the loop.
 A click on the button of a cell inverts that cell's flag and nothing else.
 */
module Grid {

  /** Number of steps in the loop; the grid is created with exactly this many cells. */
  const Steps: nat := 16

  /** The index of a grid cell. One button exists per index, so a click always names one of these. */
  type Cell = i: int | 0 <= i < Steps

  /** A grid holds exactly one flag per step. */
  predicate WellFormed(g: seq<bool>) {
    |g| == Steps
  }

  /** The grid as created at start-up: every step is silent. */
  function Initial(): (g: seq<bool>)
    ensures WellFormed(g)
    ensures forall i :: 0 <= i < |g| ==> !g[i]
    ensures ActiveCount(g) == 0
  {
    var g := seq(Steps, _ => false);
    AllSilentCount(g);
    g
  }

  /** The click handler of cell `i`: invert the flag at `i`, leave every other flag alone. */
  function Toggle(g: seq<bool>, i: Cell): (r: seq<bool>)
    requires WellFormed(g)
    ensures WellFormed(r)
    ensures r[i] == !g[i]
    ensures forall j :: 0 <= j < |g| && j != i ==> r[j] == g[j]
  {
    g[i := !g[i]]
  }

  /** Number of active steps in a grid, counted from the front. */
  function ActiveCount(g: seq<bool>): (n: nat)
    ensures n <= |g|
  {
    if g == [] then 0 else (if g[0] then 1 else 0) + ActiveCount(g[1..])
  }

  /** A grid with no active step has count zero, and conversely. */
  lemma {:induction false} AllSilentCount(g: seq<bool>)
    ensures ActiveCount(g) == 0 <==> forall i :: 0 <= i < |g| ==> !g[i]
  {
    if g != [] {
      AllSilentCount(g[1..]);
      if ActiveCount(g) == 0 {
        forall i | 0 <= i < |g| ensures !g[i] {
          if i > 0 {
            assert g[i] == g[1..][i - 1];
          }
        }
      }
    }
  }

  /** Counting is additive over concatenation. */
  lemma {:induction false} ActiveCountAppend(a: seq<bool>, b: seq<bool>)
    ensures ActiveCount(a + b) == ActiveCount(a) + ActiveCount(b)
  {
    if a == [] {
      assert a + b == b;
    } else {
      assert (a + b)[1..] == a[1..] + b;
      ActiveCountAppend(a[1..], b);
    }
  }

  /** Toggling the same cell twice gives back the original grid. */
  lemma ToggleInvolution(g: seq<bool>, i: Cell)
    requires WellFormed(g)
    ensures Toggle(Toggle(g, i), i) == g
  {
  }

  /** Clicks on two cells give the same grid in either order. */
  lemma ToggleCommutes(g: seq<bool>, i: Cell, j: Cell)
    requires WellFormed(g)
    ensures Toggle(Toggle(g, i), j) == Toggle(Toggle(g, j), i)
  {
  }

  /** A click switches exactly one step on or off, so the active count moves by exactly one. */
  lemma ToggleCount(g: seq<bool>, i: Cell)
    requires WellFormed(g)
    ensures g[i] ==> ActiveCount(Toggle(g, i)) + 1 == ActiveCount(g)
    ensures !g[i] ==> ActiveCount(Toggle(g, i)) == ActiveCount(g) + 1
  {
    var r := Toggle(g, i);
    assert g == g[..i] + [g[i]] + g[i + 1..];
    assert r == g[..i] + [r[i]] + g[i + 1..];
    ActiveCountAppend(g[..i] + [g[i]], g[i + 1..]);
    ActiveCountAppend(g[..i], [g[i]]);
    ActiveCountAppend(g[..i] + [r[i]], g[i + 1..]);
    ActiveCountAppend(g[..i], [r[i]]);
  }
}
