/**
 * The location input around the autocomplete hook: the focus flag, the
 * highlighted suggestion (-1 for none) and the keyboard navigation over the
 * suggestion list, and when the dropdown shows.
 */
module LocationInput {
  import opened Wrappers
  import opened LocalLocations
  import opened Autocomplete

  /** The input's own state next to the hook's. */
  datatype Widget = Widget(focused: bool, highlighted: int, hook: Hook)

  /** The keys the handler tells apart. */
  datatype Key = ArrowDown | ArrowUp | Enter | Escape | OtherKey

  /** What a key press leads to: the new state and the suggestion chosen, if any. */
  datatype Pressed = Pressed(widget: Widget, selected: Option<Suggestion>)

  /** The index after ArrowDown over `n` suggestions: the next one, wrapping from the last to the first. */
  function Down(i: int, n: nat): (r: int)
    ensures i < n - 1 ==> r == i + 1
    ensures i >= n - 1 ==> r == 0
    ensures n > 0 && Sane(i, n) ==> 0 <= r < n
  {
    if i < n - 1 then i + 1 else 0
  }

  /** The index after ArrowUp over `n` suggestions: the previous one, wrapping from the first to the last. */
  function Up(i: int, n: nat): (r: int)
    ensures i > 0 ==> r == i - 1
    ensures i <= 0 ==> r == n - 1
    ensures n > 0 && Sane(i, n) ==> 0 <= r < n
  {
    if i > 0 then i - 1 else n - 1
  }

  /** An index that is none (-1) or names one of `n` suggestions. */
  predicate Sane(i: int, n: nat) {
    -1 <= i < n
  }

  /** From a sane index the arrows land on a suggestion. */
  lemma ArrowsStayInRange(i: int, n: nat)
    requires n > 0 && Sane(i, n)
    ensures 0 <= Down(i, n) < n && 0 <= Up(i, n) < n
  {
  }

  /** ArrowDown from nothing highlights the first suggestion; ArrowUp from nothing the last. */
  lemma ArrowsFromNothing(n: nat)
    requires n > 0
    ensures Down(-1, n) == 0 && Up(-1, n) == n - 1
  {
  }

  /** On a highlighted suggestion, ArrowUp undoes ArrowDown and ArrowDown undoes ArrowUp. */
  lemma ArrowsInverse(i: int, n: nat)
    requires 0 <= i < n
    ensures Up(Down(i, n), n) == i && Down(Up(i, n), n) == i
  {
  }

  /** `n` presses of ArrowDown from a highlighted suggestion come back to it. */
  function DownTimes(i: int, n: nat, k: nat): int {
    if k == 0 then i else Down(DownTimes(i, n, k - 1), n)
  }

  lemma {:induction false} DownCycles(i: int, n: nat, k: nat)
    requires 0 <= i < n
    ensures DownTimes(i, n, k) == (i + k) % n
  {
    if k > 0 {
      DownCycles(i, n, k - 1);
      DownModStep(i + k - 1, n);
    }
  }

  /** ArrowDown on a remainder gives the remainder of the successor. */
  lemma DownModStep(a: int, n: nat)
    requires n > 0 && a >= 0
    ensures Down(a % n, n) == (a + 1) % n
  {
    var q, j := a / n, a % n;
    assert a == q * n + j;
    if j < n - 1 {
      ModOf(a + 1, q, j + 1, n);
    } else {
      assert (q + 1) * n == q * n + n;
      ModOf(a + 1, q + 1, 0, n);
    }
  }

  /** The remainder is determined by any quotient-remainder decomposition. */
  lemma ModOf(a: int, q: int, r: int, n: int)
    requires n > 0 && 0 <= r < n && a == q * n + r
    ensures a % n == r
  {
    var q', r' := a / n, a % n;
    assert (q - q') * n == r' - r by {
      assert q * n - q' * n == (q - q') * n;
    }
    if q - q' >= 1 {
      MulAtLeast(q - q', n);
    } else if q' - q >= 1 {
      assert (q' - q) * n == r - r';
      MulAtLeast(q' - q, n);
    }
  }

  lemma {:induction false} MulAtLeast(d: int, n: int)
    requires d >= 1 && n > 0
    ensures d * n >= n
    decreases d
  {
    if d > 1 {
      MulAtLeast(d - 1, n);
      assert d * n == (d - 1) * n + n;
    }
  }

  /** On a highlighted suggestion the arrows are the successor and predecessor modulo the list length. */
  lemma ArrowsModular(i: int, n: nat)
    requires 0 <= i < n
    ensures Down(i, n) == (i + 1) % n
    ensures Up(i, n) == (i + n - 1) % n
  {
    ModOf(i, 0, i, n);
    DownModStep(i, n);
    if i > 0 {
      ModOf(i + n - 1, 1, i - 1, n);
    } else {
      ModOf(i + n - 1, 0, n - 1, n);
    }
  }

  /**
   * The list can change under a kept highlight (a search finishing after the
   * arrows were used): from an index past the end ArrowUp stays past the end,
   * so nothing is highlighted until the presses bring it back.
   */
  lemma StaleIndexStaysOut(i: int, n: nat)
    requires i > n
    ensures Up(i, n) >= n && Down(i, n) == 0
  {
  }

  /** The suggestion Enter would choose: the highlighted one, if the index names one. */
  function Highlighted(w: Widget): (r: Option<Suggestion>)
    ensures r.Some? <==> 0 <= w.highlighted < |w.hook.suggestions|
    ensures r.Some? ==> r.value == w.hook.suggestions[w.highlighted]
  {
    if 0 <= w.highlighted < |w.hook.suggestions| then Some(w.hook.suggestions[w.highlighted]) else None
  }

  /** `handleSuggestionClick`: select through the hook, close the dropdown and clear the highlight. */
  function Choose(w: Widget, s: Suggestion): (r: Pressed)
    ensures r.selected == Some(s) && !r.widget.focused && r.widget.highlighted == -1
    ensures r.widget.hook == HandleSelect(w.hook, s)
  {
    Pressed(Widget(false, -1, HandleSelect(w.hook, s)), Some(s))
  }

  /**
   * `handleKeyDown`: nothing unless the input is focused with suggestions;
   * the arrows move the highlight with wrap-around; Enter chooses the
   * highlighted suggestion if there is one; Escape closes the dropdown,
   * clears the highlight and empties the list.
   */
  function HandleKeyDown(w: Widget, key: Key): (r: Pressed)
    ensures !w.focused || w.hook.suggestions == [] ==> r == Pressed(w, None)
    ensures r.widget.hook.query == w.hook.query || (key == Enter && r.selected.Some?)
    ensures r.selected.Some? <==> w.focused && key == Enter && Highlighted(w).Some?
    ensures r.selected.Some? ==> r.selected == Highlighted(w) && r == Choose(w, r.selected.value)
    ensures w.focused && |w.hook.suggestions| > 0 && (key == ArrowDown || key == ArrowUp) ==>
      && r.widget.hook == w.hook && r.widget.focused
      && (Sane(w.highlighted, |w.hook.suggestions|) ==> 0 <= r.widget.highlighted < |w.hook.suggestions|)
    // ArrowDown moves to the next suggestion and ArrowUp to the previous one, both wrapping around
    ensures w.focused && |w.hook.suggestions| > 0 && key == ArrowDown ==>
      r == Pressed(w.(highlighted := Down(w.highlighted, |w.hook.suggestions|)), None)
    ensures w.focused && |w.hook.suggestions| > 0 && key == ArrowUp ==>
      r == Pressed(w.(highlighted := Up(w.highlighted, |w.hook.suggestions|)), None)
    ensures w.focused && |w.hook.suggestions| > 0 && key == Escape ==>
      && !r.widget.focused && r.widget.highlighted == -1 && r.widget.hook == ClearSuggestions(w.hook)
    ensures key == OtherKey ==> r == Pressed(w, None)
  {
    var n := |w.hook.suggestions|;
    if !w.focused || n == 0 then Pressed(w, None)
    else match key
      case ArrowDown => Pressed(w.(highlighted := Down(w.highlighted, n)), None)
      case ArrowUp => Pressed(w.(highlighted := Up(w.highlighted, n)), None)
      case Enter =>
        if 0 <= w.highlighted < n then Choose(w, w.hook.suggestions[w.highlighted]) else Pressed(w, None)
      case Escape => Pressed(Widget(false, -1, ClearSuggestions(w.hook)), None)
      case OtherKey => Pressed(w, None)
  }

  /**
   * With the dropdown open on a highlighted suggestion, ArrowDown moves the
   * highlight to the next suggestion and ArrowUp to the previous one, both
   * wrapping around the list, and nothing else changes.
   */
  lemma ArrowKeysWrap(w: Widget)
    requires w.focused && 0 <= w.highlighted < |w.hook.suggestions|
    ensures HandleKeyDown(w, ArrowDown) ==
      Pressed(w.(highlighted := (w.highlighted + 1) % |w.hook.suggestions|), None)
    ensures HandleKeyDown(w, ArrowUp) ==
      Pressed(w.(highlighted := (w.highlighted + |w.hook.suggestions| - 1) % |w.hook.suggestions|), None)
  {
    ArrowsModular(w.highlighted, |w.hook.suggestions|);
  }

  /** `handleChange`: the hook's input handler, and the highlight cleared. */
  function HandleChange(opts: Options, catalogue: seq<Location>, w: Widget, value: string): (r: (Widget, Option<string>))
    ensures r.0.highlighted == -1 && r.0.focused == w.focused
    ensures r.0.hook.query == value
    ensures r.1 == HandleInputChange(opts, catalogue, w.hook, value).scheduled
  {
    var i := HandleInputChange(opts, catalogue, w.hook, value);
    (Widget(w.focused, -1, i.hook), i.scheduled)
  }

  /** A mouse press outside the input closes the dropdown and clears the highlight. */
  function ClickOutside(w: Widget): (r: Widget)
    ensures !r.focused && r.highlighted == -1 && r.hook == w.hook
  {
    w.(focused := false, highlighted := -1)
  }

  /** The dropdown shows while focused with suggestions, a search under way, or an error. */
  predicate ShowDropdown(w: Widget): (shown: bool)
    ensures shown ==> w.focused
    ensures w.focused && |w.hook.suggestions| > 0 ==> shown
    ensures w.hook.suggestions == [] && !w.hook.isLoading && w.hook.error.None? ==> !shown
  {
    w.focused && (|w.hook.suggestions| > 0 || w.hook.isLoading || w.hook.error.Some?)
  }

  /**
   * The index stays sane under every key and every edit as long as the
   * list is not changed under it: typing clears it, the arrows keep it on a
   * suggestion, Enter and Escape reset it.
   */
  lemma {:induction false} KeysKeepIndexSane(w: Widget, key: Key)
    requires Sane(w.highlighted, |w.hook.suggestions|)
    ensures var r := HandleKeyDown(w, key).widget;
      Sane(r.highlighted, |r.hook.suggestions|)
  {
    var n := |w.hook.suggestions|;
    if w.focused && n > 0 && (key == ArrowDown || key == ArrowUp) {
      ArrowsStayInRange(w.highlighted, n);
    }
  }

  /** After Escape, or a selection, the dropdown is closed. */
  lemma ClosedAfterEscapeOrSelection(w: Widget, key: Key)
    requires w.focused && |w.hook.suggestions| > 0
    requires key == Escape || HandleKeyDown(w, key).selected.Some?
    ensures !ShowDropdown(HandleKeyDown(w, key).widget)
  {
  }
}
