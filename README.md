# LookupModal in Dafny

A model of `LookupModal`, a React Native "pick one item from a searchable
list" widget. A trigger button opens an overlay. The overlay holds a text
field and a list of results. Typing refilters the list. Tapping an entry
closes the overlay and hands the item to the caller's `onSelect` callback.

The model has three modules:

- `SearchFilter` (`search_filter.dfy`) holds the built-in filter
  `defaultSearchFunc`. It keeps the items whose display field (`displayKey`,
  default `"title"`) contains the query as a contiguous, case-sensitive
  substring. `Includes` models the host's `String.prototype.includes` as a
  left-to-right scan. `ContainsSubstring` is an independent reference
  definition, and a lemma shows the two agree. The filter's result is proved
  to be exactly the matching items of `data`, in the order of `data`, and a
  subsequence of it.
- `LookupModalWidget` (`lookup_modal.dfy`) holds the class `LookupModal`.
  - Its fixed configuration is `data`, `displayKey` and `searchFunc`.
  - Its mutable state is `isVisible`, `searchResults` and `search`.
  - The ghost log `selections` records every item handed to the selection
    callback.
  - Each `setState` is an immediate field assignment, in program order.
  - Each inline handler of `render` is a method.
  - The invariant `ResultsWithinData` says the displayed results are a
    subsequence of `data`. It holds after construction. Every close
    preserves it. A text change with the built-in filter over the widget's
    data re-establishes it. Under it, the length-only reset in
    `toggleModal(false)` always restores `data`.
- `LookupScenarios` (`scenarios.dfy`) drives the widget through handler
  sequences. Each scenario states what a caller can conclude from the
  handlers' contracts alone.

Behaviours of the code that a reader might expect to be otherwise, and that
the model keeps as written:

- Matching is case-sensitive (`DefaultSearchIsCaseSensitive`). A
  case-insensitive filter would also keep "Apple" for the query "apple"; this
  one does not.
- An item without the display field makes the filter raise; it is not
  skipped. The model states this as the precondition `AllHaveKey`.
- The results are reset when the overlay is closed with a literal `false`,
  and only when the lengths differ. They are not reset when it opens.
- Closing by the backdrop does not reset them at all. So a list filtered in
  one session is still shown, under an empty text field, in the next session
  (`StaleResultsAfterBackdrop`).
- There is no cancellation callback, no direct submission of typed text, and
  no option to hide the trigger.

## Model

| member | source | states |
|---|---|---|
| `SearchFilter.IncludesIffContains` | src/LookupModal.js:67 | the `includes` scan used by the filter is true exactly when the query occurs at some position of the display string (both directions) |
| `SearchFilter.DefaultSearch` | src/LookupModal.js:67 | the result is never longer than `data`, and an item is in it iff it is in `data` and its display field contains the query (`Matches`, the arrow predicate, applying `Includes`, the model of `String.prototype.includes`) |
| `SearchFilter.DefaultSearchIsSubsequence` | src/LookupModal.js:67 | the result is a subsequence of `data`: items are only dropped, never reordered or added |
| `SearchFilter.MatchingPositions` | src/LookupModal.js:67 | the positions of `data` whose item passes the filter's test, strictly increasing, and containing a position iff its item matches |
| `SearchFilter.DefaultSearchSelectsMatchingPositions` | src/LookupModal.js:67 | the k-th result is the item at the k-th matching position of `data`, and there are as many results as matching positions: exactly the matching items, each occurrence once, in original order |
| `SearchFilter.DefaultSearchEmptyText` | src/LookupModal.js:67 | filtering with the empty query returns `data` unchanged |
| `SearchFilter.DefaultSearchFullLength` | src/LookupModal.js:67 | a result as long as `data` is `data` itself |
| `SearchFilter.SubsequenceOfSameLength` | src/LookupModal.js:50-51 | a subsequence of `data` with the length of `data` equals `data`, so the length comparison before the reset loses nothing for such results |
| `SearchFilter.DefaultSearchIsCaseSensitive` | src/LookupModal.js:67 | on the title "Apple", the query "apple" finds nothing and "Apple" matches, so matching is not case-insensitive |
| `LookupModalWidget.Apply` | src/LookupModal.js:55-58 | the filter in force: the built-in one returns a subsequence of its data, and all of it for the empty query; a caller's function is used verbatim |
| `LookupModalWidget.LookupModal.constructor` | src/LookupModal.js:19-42 | the defaults are no data, display field "title" and the built-in filter when no function is supplied; the overlay starts closed, the results start as all of `data`, nothing has been selected, and the invariant holds |
| `LookupModalWidget.LookupModal.ToggleModal` | src/LookupModal.js:44-53 | a nullish argument flips `isVisible`, any other sets it to the argument's truthiness (`Truthy`, the model of `!!visible`); results are replaced by `data` only for a literal `false` with differing lengths, otherwise untouched; the invariant is preserved, and under it `false` leaves the results equal to `data`; nothing else changes |
| `LookupModalWidget.LookupModal.Search` | src/LookupModal.js:55-60 | the results become exactly the filter's return value, with no further filtering; only the results change |
| `LookupModalWidget.LookupModal.OnSelect` | src/LookupModal.js:62-65 | the overlay is closed, the results are reset as for `toggleModal(false)`, and the selection log grows by exactly the given item |
| `LookupModalWidget.LookupModal.TriggerPress` | src/LookupModal.js:72 | the overlay opens and the results are left as they were |
| `LookupModalWidget.LookupModal.BackdropPress` | src/LookupModal.js:77 | only `isVisible` changes, to false; results, text and selection log are untouched |
| `LookupModalWidget.LookupModal.ModalHide` | src/LookupModal.js:78 | only the text field changes, to the empty string |
| `LookupModalWidget.LookupModal.BackButtonPress` | src/LookupModal.js:79 | closes as `toggleModal(false)` does and never touches the selection log |
| `LookupModalWidget.LookupModal.CloseButtonPress` | src/LookupModal.js:92-95 | closes as `toggleModal(false)` does and never touches the selection log |
| `LookupModalWidget.LookupModal.TextChange` | src/LookupModal.js:86-89 | stores the text and sets the results to exactly the filter's return value; with the built-in filter over the widget's data the invariant holds afterwards; visibility and the selection log are untouched |
| `LookupScenarios.FruitsMatchingAn` | src/LookupModal.js:67 | over Apple, Banana and Grape the query "an" keeps only Banana |
| `LookupScenarios.TypeThenClear` | src/LookupModal.js:86-89 | typing "an" shows only Banana; clearing the field shows all three fruits in their original order |
| `LookupScenarios.StaleResultsAfterBackdrop` | src/LookupModal.js:72-78 | after a backdrop close, hide and reopen, the field is empty but the list is still the previous session's filtered one |
| `LookupScenarios.ReorderedResultsSurviveClose` | src/LookupModal.js:50-51 | a caller's filter that returns the data reordered keeps its order after a close, because the reset compares lengths only |
| `LookupScenarios.SelectFromFilteredList` | src/LookupModal.js:104-107 | tapping a filtered entry dispatches exactly that item, once, closes the overlay and restores the full list |
| `LookupScenarios.CancelDispatchesNothing` | src/LookupModal.js:77-79 | backdrop, back button and close button close the overlay without dispatching anything |

## Left out

- Rendering is not modelled: the JSX tree, `FlatList`, `TextInput` and `TouchableOpacity` wiring, `keyExtractor`, `maxToRenderPerBatch` and the `StyleSheet` constants. They are presentation only.
- The `react-native-modal` animation and the PropTypes declarations are not modelled. They are foreign library behaviour. The model's `ModalHide` is the moment the library reports the overlay as hidden.
- React's asynchronous, batched `setState` is not modelled. Each update is an immediate assignment.
- React replacing `this.props` on a parent re-render is not modelled. Configuration is fixed at construction. This includes losing the built-in filter that the constructor writes into the props object. React's development-mode freezing of props, which makes that write raise, is also left out.
- `Utils.isFunction` and `Utils.isEmpty` are not modelled, because `src/Utils.js` is not part of this model. A supplied `searchFunc` is `Some(f)` exactly when `isFunction` holds. The initial `[]` results count as empty.
- After construction the `isFunction` guard in `search` always holds, so the model has no branch for it.
- `LookupModalWidget.LookupModal.Search`: the source passes `this.state.data`. No code ever sets that entry, so the built-in filter would raise on it and a caller's function would receive `undefined`. The model takes this argument as the parameter `searchData`, and the scenarios pass the widget's own `data`, which is evidently what was meant.
- A caller's `searchFunc` is assumed to return an array of items without throwing. In the source its return value is stored unchecked, and the next `toggleModal(false)` reads its `.length`, which raises on `undefined` or `null` and compares a string's length for a string.
- An explicit `data: null` is not modelled. Default props apply only to an omitted (`undefined`) prop, so `null` would make the length read in `toggleModal` raise. The constructor's `None` stands for an omitted prop only.
- Item values other than strings are not modelled. An item is a map from field name to string. `includes` on a non-string display value (a number, an array) is outside the model.
- The `onSelect` callback's effects are not modelled. The callback is the ghost log `selections`, and the default no-op callback is the same log.
- `apiRoute` and `placeholder` are not modelled. `apiRoute` is declared but never read. `placeholder` is display text only.
