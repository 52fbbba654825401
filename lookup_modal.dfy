/** The lookup widget's overlay controller: visibility, the search text, the
    displayed results and the dispatch of the selected item. Every state
    update takes effect at once, in program order. */
module LookupModalWidget {
  import opened SearchFilter

  datatype Option<T> = None | Some(value: T)

  /** A caller-supplied filter: `(text, data) -> results`. It is taken to
      return an array of items and never to raise. */
  type SearchFunction = (string, seq<Item>) -> seq<Item>

  /** The filter in force after construction: the caller's function, or the
      built-in substring filter when the caller gave none. */
  datatype Strategy = DefaultStrategy | CallerStrategy(f: SearchFunction)

  /** Runs the filter in force. The built-in filter reads the display field
      of every item, so that field must be present. */
  function Apply(strategy: Strategy, text: string, data: seq<Item>, displayKey: string): (r: seq<Item>)
    requires strategy.DefaultStrategy? ==> AllHaveKey(data, displayKey)
    ensures strategy.DefaultStrategy? ==> IsSubsequence(r, data)
    ensures strategy.DefaultStrategy? && text == "" ==> r == data
    ensures strategy.CallerStrategy? ==> r == strategy.f(text, data)
  {
    match strategy
    case DefaultStrategy =>
      DefaultSearchIsSubsequence(text, data, displayKey);
      if text == "" then DefaultSearchEmptyText(data, displayKey); DefaultSearch(text, data, displayKey)
      else DefaultSearch(text, data, displayKey)
    case CallerStrategy(f) => f(text, data)
  }

  /** The host value handed to the visibility toggle: `null` or `undefined`,
      a boolean, or any other value, of which only its truthiness matters. */
  datatype JsValue = Nullish | Boolean(b: bool) | Other(truthy: bool)

  /** `!!v`. */
  function Truthy(v: JsValue): (t: bool)
    requires !v.Nullish?
  {
    match v
    case Boolean(b) => b
    case Other(truthy) => truthy
  }

  class LookupModal {
    // configuration, fixed after construction
    const data: seq<Item>
    const displayKey: string
    const searchFunc: Strategy

    // widget state
    var isVisible: bool
    var searchResults: seq<Item>
    /** The text field's value; `None` until the first text change or hide. */
    var search: Option<string>

    /** Every item handed to the selection callback, oldest first. */
    ghost var selections: seq<Item>

    /** The displayed results stay within the caller's data, in order. */
    ghost predicate ResultsWithinData()
      reads this
    {
      IsSubsequence(searchResults, data)
    }

    /** Configuration falls back to the defaults: no data, display field
        "title", and the built-in filter when no function is supplied. The
        results start as all of the data and the overlay starts closed. */
    constructor (data: Option<seq<Item>>, displayKey: Option<string>, searchFunc: Option<SearchFunction>)
      ensures this.data == (if data.Some? then data.value else [])
      ensures this.displayKey == (if displayKey.Some? then displayKey.value else DefaultDisplayKey)
      ensures this.searchFunc == (if searchFunc.Some? then CallerStrategy(searchFunc.value) else DefaultStrategy)
      ensures !isVisible && searchResults == this.data && search == None
      ensures selections == []
      ensures ResultsWithinData()
    {
      this.data := if data.Some? then data.value else [];
      this.displayKey := if displayKey.Some? then displayKey.value else DefaultDisplayKey;
      this.searchFunc := if searchFunc.Some? then CallerStrategy(searchFunc.value) else DefaultStrategy;
      isVisible := false;
      searchResults := [];
      search := None;
      selections := [];
      new;
      if |searchResults| == 0 {
        searchResults := this.data;
      }
      SubsequenceReflexive(this.data);
    }

    /** `toggleModal(visible)`: a nullish argument flips the overlay, any
        other sets it to the argument's truthiness. Only a literal `false`
        resets the results, and only when their length differs from the
        data's. */
    method ToggleModal(visible: JsValue)
      modifies this`isVisible, this`searchResults
      ensures isVisible == (if visible.Nullish? then !old(isVisible) else Truthy(visible))
      ensures searchResults ==
        if visible == Boolean(false) && |old(searchResults)| != |data| then data else old(searchResults)
      ensures old(ResultsWithinData()) ==> ResultsWithinData()
      ensures visible == Boolean(false) && old(ResultsWithinData()) ==> searchResults == data
    {
      if visible.Nullish? {
        isVisible := !isVisible;
      } else {
        isVisible := Truthy(visible);
      }
      if visible == Boolean(false) && |searchResults| != |data| {
        searchResults := data;
        SubsequenceReflexive(data);
      } else if visible == Boolean(false) && ResultsWithinData() {
        SubsequenceOfSameLength(searchResults, data);
      }
    }

    /** `search(text)`: the results become exactly what the filter in force
        returns, with no further filtering. The host passes
        `this.state.data`, a state entry that no code ever sets; the model
        takes that argument as the parameter `searchData`. */
    method Search(text: string, searchData: seq<Item>)
      requires searchFunc.DefaultStrategy? ==> AllHaveKey(searchData, displayKey)
      modifies this`searchResults
      ensures searchResults == Apply(searchFunc, text, searchData, displayKey)
      ensures searchFunc.DefaultStrategy? && searchData == data ==> ResultsWithinData()
    {
      searchResults := Apply(searchFunc, text, searchData, displayKey);
    }

    /** `onSelect(item)`: close the overlay as `toggleModal(false)` does,
        then hand `item` to the selection callback, once. */
    method OnSelect(item: Item)
      modifies this`isVisible, this`searchResults, this`selections
      ensures !isVisible
      ensures searchResults == if |old(searchResults)| != |data| then data else old(searchResults)
      ensures old(ResultsWithinData()) ==> searchResults == data
      ensures selections == old(selections) + [item]
    {
      ToggleModal(Boolean(false));
      selections := selections + [item];
    }

    /** Pressing the trigger button opens the overlay; the results are left
        as they are. */
    method TriggerPress()
      modifies this`isVisible, this`searchResults
      ensures isVisible && searchResults == old(searchResults)
    {
      ToggleModal(Boolean(true));
    }

    /** Pressing the backdrop only closes the overlay: unlike the other ways
        of closing it, this leaves the results as they were. */
    method BackdropPress()
      modifies this`isVisible
      ensures !isVisible
    {
      isVisible := false;
    }

    /** When the overlay has finished hiding, the text field is cleared. */
    method ModalHide()
      modifies this`search
      ensures search == Some("")
    {
      search := Some("");
    }

    /** The back button closes the overlay as `toggleModal(false)` does. */
    method BackButtonPress()
      modifies this`isVisible, this`searchResults
      ensures !isVisible
      ensures searchResults == if |old(searchResults)| != |data| then data else old(searchResults)
      ensures old(ResultsWithinData()) ==> searchResults == data
    {
      ToggleModal(Boolean(false));
    }

    /** The close button closes the overlay as `toggleModal(false)` does. */
    method CloseButtonPress()
      modifies this`isVisible, this`searchResults
      ensures !isVisible
      ensures searchResults == if |old(searchResults)| != |data| then data else old(searchResults)
      ensures old(ResultsWithinData()) ==> searchResults == data
    {
      ToggleModal(Boolean(false));
    }

    /** Typing stores the text and refilters with it. */
    method TextChange(text: string, searchData: seq<Item>)
      requires searchFunc.DefaultStrategy? ==> AllHaveKey(searchData, displayKey)
      modifies this`search, this`searchResults
      ensures search == Some(text)
      ensures searchResults == Apply(searchFunc, text, searchData, displayKey)
      ensures searchFunc.DefaultStrategy? && searchData == data ==> ResultsWithinData()
    {
      search := Some(text);
      Search(text, searchData);
    }
  }
}
