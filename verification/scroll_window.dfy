/**
 The windowing arithmetic behind the endpoint table's scroll handler.

 The table renders the rows `[start, start + size)` of the filtered endpoint
 list, where `size` is the window size and `len` the length of the filtered
 list. A scroll event moves `start` forward when the viewport is near the bottom
 of the content and backward when it is near the top, by a fixed step, clamped
 to `[0, max(0, len - size)]`.
 */
module ScrollWindow {

  /** A scroll advances the window when less than this many pixels remain below the viewport. */
  const BottomThreshold: int := 200
  /** A scroll retreats the window when the viewport is less than this many pixels from the top. */
  const TopThreshold: int := 200
  /** Rows the window moves per triggering scroll event. */
  const Step: nat := 20

  /** The scrollable table element as seen by the handler: not mounted (a null ref), or its geometry. */
  datatype TableRef =
    | Detached
    | Mounted(scrollTop: int, scrollHeight: int, clientHeight: int)

  /** The bottom test of the scroll handler. */
  predicate NearBottom(t: TableRef)
    requires t.Mounted?
  {
    t.scrollHeight - t.scrollTop - t.clientHeight < BottomThreshold
  }

  /** The top test of the scroll handler (without its `start > 0` half). */
  predicate NearTop(t: TableRef)
    requires t.Mounted?
  {
    t.scrollTop < TopThreshold
  }

  function Min(a: int, b: int): int { if a <= b then a else b }

  function Max(a: int, b: int): int { if a >= b then a else b }

  /**
   The last admissible first row, `max(0, len - size)`: zero when the whole list
   fits in one window, and otherwise the start whose window ends at the last row.
   */
  function LastStart(len: nat, size: nat): (r: nat)
    ensures len <= size ==> r == 0
    ensures size <= len ==> r + size == len
  {
    Max(0, len - size)
  }

  /** The forward step `min(prev + 20, max(0, len - size))`. */
  function Advance(prev: int, len: nat, size: nat): (r: int)
    ensures 0 <= prev ==> 0 <= r
    ensures r <= LastStart(len, size)
    ensures prev <= LastStart(len, size) ==> prev <= r
    ensures prev + Step <= LastStart(len, size) ==> r == prev + Step
    ensures LastStart(len, size) <= prev + Step ==> r == LastStart(len, size)
  {
    Min(prev + Step, LastStart(len, size))
  }

  /** The backward step `max(prev - 20, 0)`. */
  function Retreat(prev: int): (r: nat)
    ensures 0 <= prev ==> r <= prev
    ensures Step <= prev ==> r == prev - Step
    ensures prev <= Step ==> r == 0
  {
    Max(prev - Step, 0)
  }

  /**
   The first row after one scroll event. The bottom test is tried first; the top
   test applies only when it fails and the window is not already at row 0; a
   detached table, or a viewport near neither edge, leaves the window alone.
   */
  function Scrolled(start: int, t: TableRef, len: nat, size: nat): (r: int)
    ensures 0 <= start ==> 0 <= r
    ensures 0 <= start <= LastStart(len, size) ==> 0 <= r <= LastStart(len, size)
    ensures r != start ==> t.Mounted? && (NearBottom(t) || (NearTop(t) && 0 < start))
  {
    match t
    case Detached => start
    case Mounted(_, _, _) =>
      if NearBottom(t) then Advance(start, len, size)
      else if NearTop(t) && start > 0 then Retreat(start)
      else start
  }

  /** The first row after `k` scroll events in a row against the same geometry. */
  function ScrolledTimes(start: int, t: TableRef, len: nat, size: nat, k: nat): int
  {
    if k == 0 then start else Scrolled(ScrolledTimes(start, t, len, size, k - 1), t, len, size)
  }

  /** Near the bottom, the forward branch wins even when the top test also holds. */
  lemma BottomTakesPriority(start: int, t: TableRef, len: nat, size: nat)
    requires t.Mounted? && NearBottom(t) && NearTop(t)
    requires 0 <= start < LastStart(len, size)
    ensures start < Scrolled(start, t, len, size)
  {
  }

  /** Near the bottom, a scroll takes the forward step, whatever the top test says. */
  lemma BottomAdvances(start: int, t: TableRef, len: nat, size: nat)
    requires t.Mounted? && NearBottom(t)
    ensures Scrolled(start, t, len, size) == Advance(start, len, size)
  {
  }

  /** Away from the bottom and near the top, a window past row 0 moves back by one step, down to 0. */
  lemma TopRetreats(start: int, t: TableRef, len: nat, size: nat)
    requires t.Mounted? && !NearBottom(t) && NearTop(t)
    requires 0 < start
    ensures Scrolled(start, t, len, size) == Retreat(start) < start
  {
  }

  /** A window already at its last row does not move on a bottom scroll. */
  lemma AtEndStaysPut(t: TableRef, len: nat, size: nat)
    requires t.Mounted? && NearBottom(t)
    ensures Scrolled(LastStart(len, size), t, len, size) == LastStart(len, size)
  {
  }

  /**
   A window left past its last row (the filtered list shrank without a reset)
   is pulled back to the last row by a bottom scroll.
   */
  lemma BottomScrollReclamps(start: int, t: TableRef, len: nat, size: nat)
    requires t.Mounted? && NearBottom(t)
    requires LastStart(len, size) < start
    ensures Scrolled(start, t, len, size) == LastStart(len, size)
  {
  }

  /**
   Scrolling down one step and then up one step returns to the same row,
   whenever the step down was not clamped.
   */
  lemma AdvanceThenRetreat(start: int, down: TableRef, up: TableRef, len: nat, size: nat)
    requires down.Mounted? && NearBottom(down)
    requires up.Mounted? && !NearBottom(up) && NearTop(up)
    requires 0 <= start && start + Step <= LastStart(len, size)
    ensures Scrolled(Scrolled(start, down, len, size), up, len, size) == start
  {
  }

  /** From row 0, `k` bottom scrolls give `min(20 * k, max(0, len - size))`. */
  lemma {:induction false} ScrollDownFromTop(t: TableRef, len: nat, size: nat, k: nat)
    requires t.Mounted? && NearBottom(t)
    ensures ScrolledTimes(0, t, len, size, k) == Min(Step * k, LastStart(len, size))
  {
    if k > 0 {
      ScrollDownFromTop(t, len, size, k - 1);
    }
  }

  /** With 100 filtered rows and a 40-row window, bottom scrolls stop at row 60. */
  lemma ScrollDownStopsAtSixty(t: TableRef, k: nat)
    requires t.Mounted? && NearBottom(t)
    ensures ScrolledTimes(0, t, 100, 40, k) == Min(20 * k, 60)
    ensures 3 <= k ==> ScrolledTimes(0, t, 100, 40, k) == 60
  {
    ScrollDownFromTop(t, 100, 40, k);
  }

  /** From any row, `k` top scrolls away from the bottom give `max(start - 20 * k, 0)`. */
  lemma {:induction false} ScrollUpToTop(start: int, t: TableRef, len: nat, size: nat, k: nat)
    requires t.Mounted? && !NearBottom(t) && NearTop(t)
    requires 0 <= start
    ensures ScrolledTimes(start, t, len, size, k) == Max(start - Step * k, 0)
  {
    if k > 0 {
      ScrollUpToTop(start, t, len, size, k - 1);
    }
  }

  /** Any number of scrolls against one geometry keeps the window in `[0, max(0, len - size)]`. */
  lemma {:induction false} ScrolledTimesInWindow(start: int, t: TableRef, len: nat, size: nat, k: nat)
    requires 0 <= start <= LastStart(len, size)
    ensures 0 <= ScrolledTimes(start, t, len, size, k) <= LastStart(len, size)
  {
    if k > 0 {
      ScrolledTimesInWindow(start, t, len, size, k - 1);
    }
  }
}
