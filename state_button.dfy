/**
 * The cycling `StateButton` (`app/components/button.tsx`): its initial index,
 * the click transition and the icon, text and title chosen by the index.
 * The index is a JavaScript number, so it can become NaN (`% 0`).
 */
module StateButton {
  import opened Wrappers

  /** The value of `stateIndex`: an integer, or NaN. */
  datatype JsIndex = Index(value: int) | NotANumber

  /** `states.indexOf(x)`: the first position of `x`, or -1; never null, so `?? 0` never applies. */
  function IndexOf<T(==)>(states: seq<T>, x: T): (r: int)
    ensures -1 <= r < |states|
    ensures r == -1 <==> x !in states
    ensures r >= 0 ==> states[r] == x && forall j :: 0 <= j < r ==> states[j] != x
  {
    if states == [] then -1
    else if states[0] == x then 0
    else
      var k := IndexOf(states[1..], x);
      if k == -1 then -1 else k + 1
  }

  function Abs(n: int): int { if n < 0 then -n else n }

  /** `q * n`, named so that "differs by a multiple of `n`" can be quantified over `q`. */
  function Mul(q: int, n: int): int { q * n }

  /**
   * JavaScript's `a % n`: the remainder of the division truncated toward zero.
   * It differs from `a` by a multiple of `n`, is smaller than `n` in magnitude
   * and has the sign of `a`; these three facts determine it.
   */
  function JsRem(a: int, n: int): (r: int)
    requires n != 0
    ensures exists q :: a == Mul(q, n) + r
    ensures a >= 0 ==> 0 <= r < Abs(n)
    ensures a < 0 ==> -Abs(n) < r <= 0
  {
    if a >= 0 then
      assert a == Mul(a / n, n) + a % n;
      a % n
    else
      assert -a == Mul((-a) / n, n) + (-a) % n;
      assert a == Mul(-((-a) / n), n) + -((-a) % n);
      -((-a) % n)
  }

  /** `(stateIndex + 1) % states.length`; NaN when there are no states or the index is NaN. */
  function NextIndex(i: JsIndex, n: nat): (r: JsIndex)
    ensures n > 0 && i.Index? && -1 <= i.value < n ==> r.Index? && 0 <= r.value < n
    ensures n > 0 && i.Index? && -1 <= i.value < n - 1 ==> r == Index(i.value + 1)
    ensures n > 0 && i == Index(n - 1) ==> r == Index(0)
    ensures n == 0 || i.NotANumber? ==> r.NotANumber?
  {
    if n == 0 || i.NotANumber? then NotANumber else Index(JsRem(i.value + 1, n))
  }

  /** The index after `k` clicks. */
  function Clicks(i: JsIndex, n: nat, k: nat): JsIndex {
    if k == 0 then i else NextIndex(Clicks(i, n, k - 1), n)
  }

  /** Clicking `a` times and then `b` times is clicking `a + b` times. */
  lemma {:induction false} ClicksCompose(i: JsIndex, n: nat, a: nat, b: nat)
    ensures Clicks(i, n, a + b) == Clicks(Clicks(i, n, a), n, b)
  {
    if b > 0 {
      ClicksCompose(i, n, a, b - 1);
    }
  }

  /** Below the last state, each click moves one position up. */
  lemma {:induction false} ClicksUp(i: int, n: nat, k: nat)
    requires 0 <= i && i + k < n
    ensures Clicks(Index(i), n, k) == Index(i + k)
  {
    if k > 0 {
      ClicksUp(i, n, k - 1);
    }
  }

  /** A click on the last state wraps to the first. */
  lemma LastWraps(n: nat)
    requires n > 0
    ensures Clicks(Index(n - 1), n, 1) == Index(0)
  {
    assert Clicks(Index(n - 1), n, 0) == Index(n - 1);
  }

  /** `n` clicks bring an in-range index back to where it started. */
  lemma FullCycle(i: int, n: nat)
    requires 0 <= i < n
    ensures Clicks(Index(i), n, n) == Index(i)
  {
    var up: nat := n - 1 - i;
    calc {
      Clicks(Index(i), n, n);
      { assert n == up + (i + 1); ClicksCompose(Index(i), n, up, i + 1); }
      Clicks(Clicks(Index(i), n, up), n, i + 1);
      { ClicksUp(i, n, up); }
      Clicks(Index(n - 1), n, 1 + i);
      { ClicksCompose(Index(n - 1), n, 1, i); }
      Clicks(Clicks(Index(n - 1), n, 1), n, i);
      { LastWraps(n); }
      Clicks(Index(0), n, i);
      { ClicksUp(0, n, i); }
      Index(i);
    }
  }

  /** `items?.[index]`: undefined when the list is absent or the index is out of range or NaN. */
  function ElementAt<U>(items: Option<seq<U>>, i: JsIndex): (r: Option<U>)
    ensures r.Some? <==> items.Some? && i.Index? && 0 <= i.value < |items.value|
    ensures r.Some? ==> r.value == items.value[i.value]
  {
    if items.Some? && i.Index? && 0 <= i.value < |items.value| then Some(items.value[i.value]) else None
  }

  /** A mounted `StateButton`: its props and the `stateIndex` state. */
  class Button<T(==), Icon> {
    const states: seq<T>
    const icons: Option<seq<Icon>>
    const texts: Option<seq<string>>
    const titles: Option<seq<string>>
    /** Whether an `onChange` prop was given. */
    const hasOnChange: bool
    var stateIndex: JsIndex
    /** The arguments `onChange` has been called with, in order (undefined is `None`). */
    var changes: seq<Option<T>>

    /** The index is -1 or a position of `states`, or NaN once a click found no states. */
    ghost predicate Valid()
      reads this
    {
      match stateIndex
      case Index(i) => -1 <= i < |states|
      case NotANumber => |states| == 0
    }

    /** Mounting: the index starts at `states.indexOf(initState)`, -1 when it is absent. */
    constructor (initState: T, states: seq<T>, icons: Option<seq<Icon>>, texts: Option<seq<string>>,
                 titles: Option<seq<string>>, hasOnChange: bool)
      ensures Valid()
      ensures this.states == states && this.icons == icons && this.texts == texts && this.titles == titles
      ensures this.hasOnChange == hasOnChange
      ensures stateIndex == Index(IndexOf(states, initState)) && changes == []
    {
      this.states := states;
      this.icons := icons;
      this.texts := texts;
      this.titles := titles;
      this.hasOnChange := hasOnChange;
      stateIndex := Index(IndexOf(states, initState));
      changes := [];
    }

    /** `handleClick`: advance the index, then call `onChange` with the NEW state. */
    method HandleClick()
      requires Valid()
      modifies this
      ensures Valid()
      ensures stateIndex == NextIndex(old(stateIndex), |states|)
      ensures changes == old(changes) + (if hasOnChange then [ElementAt(Some(states), stateIndex)] else [])
      ensures |states| > 0 ==> stateIndex.Index? && 0 <= stateIndex.value < |states|
      ensures hasOnChange && |states| > 0 ==> changes[|changes| - 1] == Some(states[stateIndex.value])
    {
      var nextStateIndex := NextIndex(stateIndex, |states|);
      stateIndex := nextStateIndex;
      if hasOnChange {
        changes := changes + [ElementAt(Some(states), nextStateIndex)];
      }
    }

    /** `icons?.[stateIndex]`: the icon at the current index, if there is one. */
    function CurrentIcon(): (r: Option<Icon>)
      reads this
      ensures r.Some? <==> icons.Some? && stateIndex.Index? && 0 <= stateIndex.value < |icons.value|
      ensures r.Some? ==> r.value == icons.value[stateIndex.value]
    {
      ElementAt(icons, stateIndex)
    }

    /** `texts?.[stateIndex]`: the label at the current index, if there is one. */
    function CurrentText(): (r: Option<string>)
      reads this
      ensures r.Some? <==> texts.Some? && stateIndex.Index? && 0 <= stateIndex.value < |texts.value|
      ensures r.Some? ==> r.value == texts.value[stateIndex.value]
    {
      ElementAt(texts, stateIndex)
    }

    /** `titles?.[stateIndex]`: the tooltip at the current index, if there is one. */
    function CurrentTitle(): (r: Option<string>)
      reads this
      ensures r.Some? <==> titles.Some? && stateIndex.Index? && 0 <= stateIndex.value < |titles.value|
      ensures r.Some? ==> r.value == titles.value[stateIndex.value]
    {
      ElementAt(titles, stateIndex)
    }
  }

  /** A button mounted with a state that is not among its states shows no icon, text or title. */
  lemma AbsentInitStateShowsNothing<T, Icon>(b: Button<T, Icon>, initState: T)
    requires b.stateIndex == Index(IndexOf(b.states, initState))
    requires initState !in b.states
    ensures b.CurrentIcon().None? && b.CurrentText().None? && b.CurrentTitle().None?
  {
  }

  /**
   * Once the index is on a state (after any click with states present), a
   * button given one text per state shows the text paired with that state.
   */
  lemma TextFollowsState<T, Icon>(b: Button<T, Icon>)
    requires b.Valid() && b.stateIndex.Index? && b.stateIndex.value >= 0
    requires b.texts.Some? && |b.texts.value| == |b.states|
    ensures b.CurrentText() == Some(b.texts.value[b.stateIndex.value])
  {
  }
}
