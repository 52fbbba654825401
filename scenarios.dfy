/** Sessions with the widget, driven through its event handlers, and what a
    caller can conclude from the handlers' contracts alone. The array handed
    to each text change is the widget's own data. */
module LookupScenarios {
  import opened SearchFilter
  import opened LookupModalWidget

  function Fruit(name: string): (item: Item)
  {
    map["title" := name]
  }

  function Fruits(): (data: seq<Item>)
  {
    [Fruit("Apple"), Fruit("Banana"), Fruit("Grape")]
  }

  /** "an" occurs nowhere in `s` when no 'a' in `s` is followed by 'n'. */
  lemma AnNotIncluded(s: string)
    requires forall i :: 0 <= i < |s| - 1 ==> s[i] != 'a' || s[i + 1] != 'n'
    ensures !Includes(s, "an")
  {
    IncludesIffContains(s, "an");
    forall i | 0 <= i <= |s| ensures !("an" <= s[i..]) {
      if i < |s| - 1 {
        assert s[i..][0] == s[i] && s[i..][1] == s[i + 1];
      }
    }
  }

  /** Of the three fruits only "Banana" contains "an". */
  lemma FruitsMatchingAn()
    ensures DefaultSearch("an", Fruits(), "title") == [Fruit("Banana")]
  {
    var apple: string, banana: string, grape: string := "Apple", "Banana", "Grape";
    AnNotIncluded(apple);
    AnNotIncluded(grape);
    assert banana[1..] == "anana";
    assert Includes(banana, "an");
    assert Fruits()[1..][1..] == [Fruit("Grape")];
  }

  /** Open, type "an", then clear the field: the list shows only "Banana",
      then all three fruits again in their original order. */
  method TypeThenClear() returns (typed: seq<Item>, cleared: seq<Item>)
    ensures typed == [Fruit("Banana")]
    ensures cleared == Fruits()
  {
    var w := new LookupModal(Some(Fruits()), None, None);
    w.TriggerPress();
    w.TextChange("an", w.data);
    FruitsMatchingAn();
    typed := w.searchResults;
    w.TextChange("", w.data);
    cleared := w.searchResults;
  }

  /** Type "an", dismiss by the backdrop, let the overlay hide, reopen: the
      field is empty again but the list is still the filtered one, because
      neither the backdrop nor the trigger resets the results. */
  method StaleResultsAfterBackdrop() returns (visible: bool, text: Option<string>, shown: seq<Item>)
    ensures visible && text == Some("")
    ensures shown == [Fruit("Banana")]
  {
    var w := new LookupModal(Some(Fruits()), None, None);
    w.TriggerPress();
    w.TextChange("an", w.data);
    FruitsMatchingAn();
    w.BackdropPress();
    w.ModalHide();
    w.TriggerPress();
    visible, text, shown := w.isVisible, w.search, w.searchResults;
  }

  /** A caller's filter that swaps a two-item list. */
  function SwapPair(text: string, data: seq<Item>): (r: seq<Item>)
  {
    if |data| == 2 then [data[1], data[0]] else data
  }

  /** With a caller's filter whose result is as long as the data but in
      another order, closing keeps that result: the reset compares lengths
      only. */
  method ReorderedResultsSurviveClose() returns (visible: bool, shown: seq<Item>)
    ensures !visible
    ensures shown == [Fruit("Banana"), Fruit("Apple")]
  {
    var w := new LookupModal(Some([Fruit("Apple"), Fruit("Banana")]), None, Some(SwapPair));
    w.TriggerPress();
    w.TextChange("x", w.data);
    w.CloseButtonPress();
    visible, shown := w.isVisible, w.searchResults;
  }

  /** Pick "Banana" from a filtered list: the callback receives exactly that
      item, once, the overlay is closed and the full list is back. */
  method SelectFromFilteredList() returns (visible: bool, shown: seq<Item>, ghost dispatched: seq<Item>)
    ensures !visible
    ensures shown == Fruits()
    ensures dispatched == [Fruit("Banana")]
  {
    var w := new LookupModal(Some(Fruits()), None, None);
    w.TriggerPress();
    w.TextChange("an", w.data);
    FruitsMatchingAn();
    var picked := w.searchResults[0];
    w.OnSelect(picked);
    visible, shown, dispatched := w.isVisible, w.searchResults, w.selections;
  }

  /** Cancelling by any of the three ways leaves the selection log alone. */
  method CancelDispatchesNothing() returns (ghost before: seq<Item>, ghost after: seq<Item>, visible: bool)
    ensures !visible
    ensures after == before
  {
    var w := new LookupModal(Some(Fruits()), None, None);
    before := w.selections;
    w.TriggerPress();
    w.BackdropPress();
    w.TriggerPress();
    w.BackButtonPress();
    w.TriggerPress();
    w.CloseButtonPress();
    w.ModalHide();
    after, visible := w.selections, w.isVisible;
  }
}
