/** The airport search box: the input, its clear button, the suggestion list
    and the keyboard selection index (`setupSearchFunctionality`,
    `showSuggestions` and a suggestion's click handler). */
module SearchUi {
  import opened Optional
  import opened Strings
  import opened Airports

  /** The keys the keydown handler distinguishes. */
  datatype Key = ArrowDown | ArrowUp | Enter | Escape | OtherKey

  /** A query shorter than this (after trimming) hides the list instead of
      searching. */
  const MinQueryLength := 2

  function Min(a: int, b: int): int { if a <= b then a else b }
  function Max(a: int, b: int): int { if a >= b then a else b }

  /** The selection index after `key` with `n` suggestion elements present:
      with none present nothing changes; Down moves forward and stops at the
      last, Up moves back and stops at the first (so Up with nothing selected
      selects the first), Escape deselects, Enter and other keys keep the
      index. */
  function NextSelection(key: Key, i: int, n: nat): (r: int)
    ensures n == 0 ==> r == i
    ensures -1 <= i < n ==> -1 <= r < n
    ensures n > 0 && key == ArrowDown ==> r == Min(i + 1, n - 1)
    ensures n > 0 && key == ArrowDown && -1 <= i ==> 0 <= r
    ensures n > 0 && key == ArrowUp ==> r == Max(i - 1, 0)
    ensures n > 0 && key == Escape ==> r == -1
    ensures n > 0 && (key == Enter || key == OtherKey) ==> r == i
  {
    if n == 0 then i
    else match key
      case ArrowDown => Min(i + 1, n - 1)
      case ArrowUp => Max(i - 1, 0)
      case Escape => -1
      case _ => i
  }

  /** The index after pressing `key` `k` times. */
  function Presses(key: Key, k: nat, i: int, n: nat): int
  {
    if k == 0 then i else Presses(key, k - 1, NextSelection(key, i, n), n)
  }

  /** From no selection, `k` Down presses select entry `k - 1`, and the
      selection then stays on the last entry however often Down is pressed. */
  lemma {:induction false} DownPresses(k: nat, i: int, n: nat)
    requires n > 0 && -1 <= i < n
    ensures Presses(ArrowDown, k, i, n) == Min(i + k, n - 1)
  {
    if k > 0 {
      DownPresses(k - 1, NextSelection(ArrowDown, i, n), n);
    }
  }

  /** From entry `i`, `k` Up presses select entry `i - k`, stopping at the
      first entry; from no selection, any number of Up presses select the
      first entry. */
  lemma {:induction false} UpPresses(k: nat, i: int, n: nat)
    requires n > 0 && -1 <= i < n && (i == -1 ==> k > 0)
    ensures Presses(ArrowUp, k, i, n) == Max(i - k, 0)
  {
    if k > 0 {
      UpPresses(k - 1, NextSelection(ArrowUp, i, n), n);
    }
  }

  /** The text the input shows once an airport is chosen. */
  function Label(a: Airport): (r: string)
    ensures |r| == |a.city| + |a.country| + |a.code| + 5
    ensures a.city <= r && r[|r| - |a.code| - 1..] == a.code + ")"
    ensures r[|r| - |a.code| - 2] == '('
  {
    a.city + ", " + a.country + " (" + a.code + ")"
  }

  class SearchBox {
    /** The input's value. */
    var text: string
    /** The suggestion elements in the list, shown or hidden. */
    var suggestions: seq<Airport>
    /** Whether the list is displayed. */
    var visible: bool
    /** `selectedSuggestionIndex`. */
    var selected: int

    /** The selection index is -1 (nothing selected) or names a suggestion
        element. */
    ghost predicate Valid()
      reads this
    {
      -1 <= selected < |suggestions|
    }

    constructor ()
      ensures Valid()
      ensures text == "" && suggestions == [] && !visible && selected == -1
    {
      text, suggestions, visible, selected := "", [], false, -1;
    }

    /** `showSuggestions(query)`: with no match the list is hidden and its old
        elements and selection stay as they were; otherwise the list is
        replaced by the matches, shown, and nothing is selected. */
    method ShowSuggestions(query: string, airports: seq<Airport>)
      requires Valid()
      modifies this`suggestions, this`visible, this`selected
      ensures Valid()
      ensures var found := Search(airports, query);
        if found == [] then !visible && suggestions == old(suggestions) && selected == old(selected)
        else visible && suggestions == found && selected == -1
    {
      var found := Search(airports, query);
      if |found| == 0 {
        visible := false;
        return;
      }
      suggestions := found;
      visible := true;
      selected := -1;
    }

    /** The input handler: the trimmed value is searched when it has at least
        two characters; otherwise the list is hidden and the selection reset. */
    method Input(value: string, airports: seq<Airport>)
      requires Valid()
      modifies this
      ensures Valid() && text == value
      ensures var q := Trim(value); var found := Search(airports, q);
        if |q| >= MinQueryLength && found != [] then
          visible && suggestions == found && selected == -1
        else
          !visible && suggestions == old(suggestions) &&
          selected == (if |q| >= MinQueryLength then old(selected) else -1)
    {
      text := value;
      var query := Trim(value);
      if |query| >= MinQueryLength {
        ShowSuggestions(query, airports);
      } else {
        visible := false;
        selected := -1;
      }
    }

    /** The clear button: empties the input, hides the list, resets the
        selection; the suggestion elements stay. */
    method Clear()
      requires Valid()
      modifies this`text, this`visible, this`selected
      ensures Valid()
      ensures text == "" && !visible && selected == -1
    {
      text := "";
      visible := false;
      selected := -1;
    }

    /** A click on suggestion `i`: the chosen airport is returned (the page
        then teleports the last active map to it), the input shows its label
        and the list is hidden. */
    method Choose(i: nat) returns (a: Airport)
      requires Valid() && i < |suggestions|
      modifies this`text, this`visible
      ensures Valid()
      ensures a == suggestions[i] && text == Label(a) && !visible
    {
      a := suggestions[i];
      text := Label(a);
      visible := false;
    }

    /** The keydown handler. With no suggestion elements it does nothing.
        Otherwise the index moves as `NextSelection` says, Escape also hides
        the list, and Enter clicks the selected element when the index names
        one. Neither key looks at whether the list is shown. */
    method KeyDown(key: Key) returns (chosen: Option<Airport>)
      requires Valid()
      modifies this`text, this`visible, this`selected
      ensures Valid()
      ensures selected == NextSelection(key, old(selected), |suggestions|)
      ensures chosen.Some? <==> key == Enter && 0 <= old(selected) < |suggestions|
      ensures chosen.Some? ==> chosen.value == suggestions[old(selected)] && text == Label(chosen.value) && !visible
      ensures chosen.None? ==> text == old(text)
      ensures visible == if suggestions != [] && (key == Escape || chosen.Some?) then false else old(visible)
    {
      chosen := None;
      var n := |suggestions|;
      if n == 0 {
        return;
      }
      match key {
        case ArrowDown =>
          selected := Min(selected + 1, n - 1);
        case ArrowUp =>
          selected := Max(selected - 1, 0);
        case Enter =>
          if 0 <= selected < n {
            var a := Choose(selected);
            chosen := Some(a);
          }
        case Escape =>
          visible := false;
          selected := -1;
        case OtherKey =>
      }
    }
  }
}
