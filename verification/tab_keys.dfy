/** Keyboard handling on the tab buttons: the arrow keys move the focus to
    the previous or next tab, wrapping around at either end; Enter and Space
    click the focused tab; every other key is ignored. */
module TabKeys {

  datatype Key = ArrowLeft | ArrowUp | ArrowRight | ArrowDown | Enter | Space | OtherKey

  /** What the handler does: focus the tab at `index`, click the current tab, or nothing. */
  datatype KeyAction = Focus(index: int) | Click | NoAction

  /** Left or Up from `current` among `count` tabs. */
  function Previous(current: int, count: int): (p: int)
    ensures 1 <= count && -1 <= current < count ==> 0 <= p < count
    ensures 0 < current < count ==> p < current
    ensures current == 0 ==> p == count - 1
  {
    if current > 0 then current - 1 else count - 1
  }

  /** Right or Down from `current` among `count` tabs. */
  function Next(current: int, count: int): (n: int)
    ensures 1 <= count && -1 <= current < count ==> 0 <= n < count
    ensures 0 <= current < count - 1 ==> n > current
    ensures current == count - 1 ==> n == 0
  {
    if current < count - 1 then current + 1 else 0
  }

  /** The keydown handler on a tab button. `current` is the button's position
      among the tabs (-1 if `indexOf` did not find it). */
  function OnKeyDown(key: Key, current: int, count: int): (a: KeyAction)
    ensures a.Focus? <==> key in {ArrowLeft, ArrowUp, ArrowRight, ArrowDown}
    ensures a.Click? <==> key in {Enter, Space}
    ensures key in {ArrowLeft, ArrowUp} ==> a == Focus(Previous(current, count))
    ensures key in {ArrowRight, ArrowDown} ==> a == Focus(Next(current, count))
    ensures a.Focus? && 1 <= count && -1 <= current < count ==> 0 <= a.index < count
  {
    match key
    case ArrowLeft | ArrowUp => Focus(Previous(current, count))
    case ArrowRight | ArrowDown => Focus(Next(current, count))
    case Enter | Space => Click
    case OtherKey => NoAction
  }

  /** Within range, the two moves are steps of one modulo the number of tabs. */
  lemma MovesAreModular(current: int, count: int)
    requires 0 <= current < count
    ensures Next(current, count) == (current + 1) % count
    ensures Previous(current, count) == (current - 1 + count) % count
  {
    if current == count - 1 {
      ModUnique(current + 1, count, 1, 0);
    } else {
      ModUnique(current + 1, count, 0, current + 1);
    }
    if current == 0 {
      ModUnique(current - 1 + count, count, 0, count - 1);
    } else {
      ModUnique(current - 1 + count, count, 1, current - 1);
    }
  }

  /** Left undoes Right and Right undoes Left. */
  lemma MovesAreInverse(current: int, count: int)
    requires 0 <= current < count
    ensures Previous(Next(current, count), count) == current
    ensures Next(Previous(current, count), count) == current
  {
  }

  /** The tab reached by pressing Right `n` times. */
  function NextTimes(current: int, count: int, n: nat): int
  {
    if n == 0 then current else Next(NextTimes(current, count, n - 1), count)
  }

  /** Pressing Right n times moves n places around the ring; after `count`
      presses the focus is back where it started. */
  lemma {:induction false} NextTimesModular(current: int, count: int, n: nat)
    requires 0 <= current < count
    ensures NextTimes(current, count, n) == (current + n) % count
  {
    if n > 0 {
      NextTimesModular(current, count, n - 1);
      var p := NextTimes(current, count, n - 1);
      MovesAreModular(p, count);
      ModStep(current + n - 1, count);
    }
  }

  /** The remainder is the unique r in [0, count) with y == q * count + r. */
  lemma ModUnique(y: int, count: int, q: int, r: int)
    requires 0 < count && 0 <= r < count && y == q * count + r
    ensures y % count == r
  {
    var d := q - y / count;
    assert d * count == y % count - r;
    if d >= 1 {
      assert false;
    } else if d <= -1 {
      assert false;
    }
  }

  lemma ModStep(x: int, count: int)
    requires 0 < count
    ensures (x % count + 1) % count == (x + 1) % count
  {
    var q, r := x / count, x % count;
    if r + 1 < count {
      ModUnique(r + 1, count, 0, r + 1);
      ModUnique(x + 1, count, q, r + 1);
    } else {
      ModUnique(r + 1, count, 1, 0);
      assert x + 1 == (q + 1) * count + 0;
      ModUnique(x + 1, count, q + 1, 0);
    }
  }

  lemma FullCircle(current: int, count: int)
    requires 0 <= current < count
    ensures NextTimes(current, count, count) == current
  {
    NextTimesModular(current, count, count);
    ModUnique(current + count, count, 1, current);
  }
}
