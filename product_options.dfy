/** The option picker of a product (`ProductOptions.jsx`): the preparation icon chosen from
    an option's name, the selection mark, the discount badge and when the picker shows at all. */
module ProductOptions {
  import opened Wrappers
  import opened Text
  import opened MenuService
  import Formatters
  import ProductCard

  /** The preparation keywords and their icons, in the order they are tried. */
  const PreparationIcons: seq<(string, string)> := [
    ("pil-pil", "\U{1F525}"),
    ("parmesano", "\U{1F9C0}"),
    ("salsa verde", "\U{1F33F}"),
    ("ajillo", "\U{1F9C4}"),
    ("natural", "\U{1F343}"),
    ("al vapor", "\U{1F4A8}"),
    ("frito", "\U{1F373}"),
    ("a la plancha", "\U{1F525}"),
    ("al horno", "\U{2668}\U{FE0F}")
  ]

  /** The icon of an option whose name mentions no keyword. */
  const DefaultIcon := "\U{1F37D}\U{FE0F}"

  /** The position of the first key of `table` that occurs in `text`, if any. */
  function FirstKeyIn(text: string, table: seq<(string, string)>): (r: Option<nat>)
    ensures r.Some? ==> r.value < |table| && Contains(text, table[r.value].0)
    ensures r.Some? ==> forall j :: 0 <= j < r.value ==> !Contains(text, table[j].0)
    ensures r.None? <==> forall j :: 0 <= j < |table| ==> !Contains(text, table[j].0)
  {
    if |table| == 0 then None
    else if Contains(text, table[0].0) then Some(0)
    else
      match FirstKeyIn(text, table[1..])
      case None => None
      case Some(k) => Some(k + 1)
  }

  /** The key at `j` occurs in `text` and no earlier key does. */
  predicate IsFirstKey(text: string, table: seq<(string, string)>, j: int) {
    0 <= j < |table| && Contains(text, table[j].0) &&
    forall k :: 0 <= k < j ==> !Contains(text, table[k].0)
  }

  /** `getPreparationIcon`: the icon of the first keyword contained in the lower-cased name. */
  function PreparationIcon(name: string): (r: string)
    ensures r == DefaultIcon <==> forall j :: 0 <= j < |PreparationIcons| ==> !Contains(ToLower(name), PreparationIcons[j].0)
    ensures r != DefaultIcon ==>
      exists j :: IsFirstKey(ToLower(name), PreparationIcons, j) && r == PreparationIcons[j].1
  {
    match FirstKeyIn(ToLower(name), PreparationIcons)
    case None => DefaultIcon
    case Some(j) =>
      assert PreparationIcons[j].1 != DefaultIcon;
      PreparationIcons[j].1
  }

  /** Lower-casing twice is lower-casing once. */
  lemma ToLowerIdempotent(s: string)
    ensures ToLower(ToLower(s)) == ToLower(s)
  {
    assert forall i :: 0 <= i < |s| ==> LowerChar(LowerChar(s[i])) == LowerChar(s[i]);
  }

  /** The icon does not depend on how the name is capitalised. */
  lemma IconIgnoresCase(name: string)
    ensures PreparationIcon(ToLower(name)) == PreparationIcon(name)
  {
    ToLowerIdempotent(name);
  }

  /** The picker renders nothing for missing or empty options. */
  predicate RendersNothing(options: Option<seq<OptionDto>>) {
    options.None? || |options.value| == 0
  }

  /** `new Set(options.map(o => o.optionType)).size > 1`. */
  function HasMultipleTypes(options: seq<OptionDto>): (r: bool)
    ensures r <==> exists i, j :: 0 <= i < |options| && 0 <= j < |options| &&
                                  options[i].optionType != options[j].optionType
  {
    var types := set o | o in options :: o.optionType;
    if |options| == 0 then
      assert types == {};
      false
    else
      var first := options[0].optionType;
      if types == {first} then
        assert forall i :: 0 <= i < |options| ==> options[i].optionType in types;
        false
      else
        assert first in types;
        var other :| other in types && other != first;
        var o :| o in options && o.optionType == other;
        var j :| 0 <= j < |options| && options[j] == o;
        assert options[0].optionType != options[j].optionType;
        SetWithTwoMembers(types, first, other);
        true
  }

  lemma SetWithTwoMembers<T>(s: set<T>, x: T, y: T)
    requires x in s && y in s && x != y
    ensures |s| > 1
  {
    assert {x, y} <= s;
    assert |{x, y}| == 2;
    SubsetCardinality({x, y}, s);
  }

  lemma SubsetCardinality<T>(a: set<T>, b: set<T>)
    requires a <= b
    ensures |a| <= |b|
  {
    assert b == a + (b - a);
  }

  /** `selectedOption?.id === option.id`. */
  predicate IsSelected(selected: Option<OptionDto>, option: OptionDto) {
    selected.Some? && selected.value.id == option.id
  }

  /** Options with pairwise different ids. */
  predicate UniqueIds(options: seq<OptionDto>) {
    forall i, j :: 0 <= i < j < |options| ==> options[i].id != options[j].id
  }

  /** The position of the first option carrying the selected option's id, if any. */
  function SelectedIndex(options: seq<OptionDto>, selected: Option<OptionDto>): (r: Option<nat>)
    ensures r.Some? ==> r.value < |options| && IsSelected(selected, options[r.value])
    ensures r.Some? ==> forall k :: 0 <= k < r.value ==> !IsSelected(selected, options[k])
    ensures r.None? <==> forall k :: 0 <= k < |options| ==> !IsSelected(selected, options[k])
  {
    if |options| == 0 then None
    else if IsSelected(selected, options[0]) then Some(0)
    else
      match SelectedIndex(options[1..], selected)
      case None => None
      case Some(k) => Some(k + 1)
  }

  /** With unique ids exactly the option at the selected index is marked, so at most one is. */
  lemma OnlySelectedIndexMarked(options: seq<OptionDto>, selected: Option<OptionDto>, k: int)
    requires UniqueIds(options) && 0 <= k < |options|
    ensures IsSelected(selected, options[k]) <==> SelectedIndex(options, selected) == Some(k)
  {
    var r := SelectedIndex(options, selected);
    if IsSelected(selected, options[k]) {
      assert r.Some? && r.value <= k;
      assert options[r.value].id == options[k].id;
    }
  }

  /** Nothing is marked selected before the customer chooses. */
  lemma NothingSelectedInitially(option: OptionDto)
    ensures !IsSelected(None, option)
  {
  }

  /** The "-n%" badge of an option, shown beside its struck-through original price. */
  function DiscountBadge(option: OptionDto): (r: Option<int>)
    ensures r.Some? <==> ProductCard.OptionShowsDiscount(option)
    ensures r.Some? && option.price > 0 ==> 0 <= r.value <= 100
    ensures r.Some? ==> r.value == Formatters.CalculateDiscount(option.originalPrice, Some(option.price))
    ensures r.Some? && option.price > 0 ==>
      var o := option.originalPrice.value;
      -o <= 2 * (100 * (o - option.price) - r.value * o) < o
    ensures r.Some? && option.price == 0 ==> r.value == 0
  {
    if ProductCard.OptionShowsDiscount(option) then
      var d := Formatters.CalculateDiscount(option.originalPrice, Some(option.price));
      if option.price > 0 then
        Formatters.DiscountInPercentRange(option.originalPrice.value, option.price);
        Some(d)
      else Some(d)
    else None
  }

  /** A free option with an original price shows its struck-through price with a "-0%" badge. */
  lemma FreeOptionShowsZeroBadge(option: OptionDto)
    requires option.price == 0 && option.originalPrice.Some? && option.originalPrice.value > 0
    ensures DiscountBadge(option) == Some(0)
  {
  }

  /** The tip under the options appears when there is more than one. */
  predicate ShowsTip(options: seq<OptionDto>) {
    |options| > 1
  }

  /** Several types imply several options, so the tip shows whenever the types differ. */
  lemma MultipleTypesShowTip(options: seq<OptionDto>)
    requires HasMultipleTypes(options)
    ensures ShowsTip(options)
  {
    var i, j :| 0 <= i < |options| && 0 <= j < |options| && options[i].optionType != options[j].optionType;
    assert i != j;
  }
}
