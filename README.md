# BaroHub course catalog: a Dafny model of its state logic

BaroHub is a mobile-styled course catalog. Users browse and search courses by
category, open a course's detail sheet, and step through a simulated checkout
with a choice of payment gateway. An admin switch enables creating, editing and
deleting courses. The catalog and the switch are kept in local storage. The
app is a single React component, `App`. This project models that component's
state logic as Dafny:

- `seqs.dfy`, module `Seqs`: the two list combinators the component is written
  with, an element-wise `Map` and an order-preserving `Filter`, with their
  characterisations. `Filter` keeps exactly the elements satisfying the
  predicate, with their multiplicities, as a subsequence.
- `text.dfy`, module `Text`: lower- and upper-casing, `includes` as substring
  occurrence, and the decimal numeral used in new course ids, with a proved
  round trip.
- `types.dfy`, module `Types`: the records `Category`, `Topic` and `Course`,
  and the admin form's draft `Form`.
- `constants.dfy`, module `Constants`: the category table and the seed catalog.
- `catalog.dfy`, module `Catalog`: the category lookup and label, and the pure
  list updates of delete (filter out by id) and save (prepend, or replace by
  id). It also has the class `Store`, which holds the admin flag, the course
  list, the form state and the two local-storage copies. Each `Store` method
  is specified by those functions and keeps the stored copies equal to the
  in-memory values.
- `search.dfy`, module `Search`: `filteredCourses`, the course list filtered by
  the search query and the selected category.
- `screen.dfy`, module `Screen`: the view state (tab, detail sheet, payment
  sheet, payment status, gateway) as a pure transition function `Step` over
  events, an invariant kept by every enabled event, and the class `View`.
  Each `View` handler has the effect `Step` gives its event. The two delays of
  the checkout are the events `TimerProcessingDone` and `TimerSuccessDone`.
  The payment status tells which timer is pending: processing means the first
  wait is running, success means the second callback is pending. The gateway
  buttons are only rendered in the idle status, so no other timer can be
  pending.

Where the code's behaviour may surprise a reader, the model follows the code as written:

- Save checks only that the title text and the price text are non-empty. It
  does not check that the price is a finite, non-negative number.
- Delete removes every course carrying the id, not just one.
- Editing replaces the record, so the course's optional trailer `videoUrl` is
  dropped. `Course.videoUrl` is never displayed.
- Closing the detail sheet does not touch the payment state.
- Closing the form keeps the course being edited and the draft.
- The status `'error'` is declared but never entered.
- A new course's id is built from the clock reading only. It is not checked
  against the ids already in the catalog. `NewIdInjective` shows that different
  readings give different ids.
- A selected category id of `''` is falsy, so it filters nothing. Stored
  catalog text `''` is also falsy, so the seed catalog is used.

## Model

| member | source | states |
|---|---|---|
| Seqs.Filter | App.tsx:143-149 | The result is a subsequence of the input. Every kept element satisfies the predicate. Each element satisfying it keeps its multiplicity, and every other element is gone. |
| Seqs.Map | App.tsx:108 | The length is kept and each position holds the function applied to the input's element at that position. |
| Seqs.FilterKeepsAll | App.tsx:143-149 | Filtering with a predicate every element satisfies returns the input unchanged. |
| Seqs.FilterDrops | App.tsx:74 | If some element fails the predicate, the filtered sequence is strictly shorter. |
| Seqs.FilterAgree | App.tsx:145 | Two predicates that agree on every element give the same filtered sequence. |
| Seqs.FilterMembership | App.tsx:143-149 | An element is kept if and only if it occurs in the input and satisfies the predicate. |
| Text.Lower | App.tsx:145 | Same length; each ASCII upper-case letter becomes its lower-case letter (code point plus 32), and every other character is unchanged. |
| Text.LowerIdempotent | App.tsx:145 | Lower-casing an already lower-cased string changes nothing. |
| Text.Upper | App.tsx:94 | Same length; each ASCII lower-case letter becomes its upper-case letter (code point minus 32), and every other character is unchanged. |
| Text.Contains | App.tsx:145 | `includes` as an occurrence at some position. A string includes itself, an equally long pattern is included only when it equals the text, and a pattern longer than the text is never included. |
| Text.ContainsEmpty | App.tsx:145 | Every string includes the empty string. |
| Text.Decimal | App.tsx:92 | The numeral of a clock reading is non-empty and all digits, with no leading zero unless the reading is 0. |
| Text.DecimalRoundTrip | App.tsx:92 | Reading back the numeral of n gives n. |
| Text.DecimalInjective | App.tsx:92 | Different readings have different numerals. |
| Constants.CategoryIdsDistinct | constants.tsx:16-25 | No two entries of the category table share an id. |
| Constants.SeedIdsDistinct | constants.tsx:27-69 | The seed courses c1, c2 and c3 have pairwise different ids. |
| Constants.SeedPricesAndRatingsInRange | constants.tsx:27-69 | Every seed price is non-negative and every seed rating lies in 0..5. |
| Catalog.FindCategory | App.tsx:89 | An answer is an entry of the table carrying the id. There is no answer exactly when no entry carries the id. |
| Catalog.FindCategoryUnique | App.tsx:89 | In a table with distinct ids, the lookup returns the one entry carrying the id. |
| Catalog.CategoryLabel | App.tsx:94 | For a known category id, the label is that category's upper-cased name. For an unknown id it is GENERAL. |
| Catalog.CategoryLabelOf | App.tsx:94 | The label of the k-th table entry's id is that entry's upper-cased name. |
| Catalog.SeedCategoriesKnown | constants.tsx:27-69 | Every seed course's category id is found in the category table. |
| Catalog.SeedLabelsMatch | constants.tsx:27-69 | Every seed course's category label is the one save would compute from its category id. |
| Catalog.DefaultCategoryKnown | App.tsx:40-45 | The form's default category id cat_biz is in the table, and its label is GANACSIGA. |
| Catalog.RemoveById | App.tsx:74 | No remaining course carries the id. Every other course is kept with its multiplicity, in the original order. |
| Catalog.RemoveAbsentId | App.tsx:74 | Deleting an id that no course carries leaves the list as it was. |
| Catalog.RemovePresentId | App.tsx:74 | Deleting an id that some course carries makes the list strictly shorter. |
| Catalog.NewId | App.tsx:92 | A new id is the letter c followed by at least one decimal digit. |
| Catalog.NewIdInjective | App.tsx:92 | Different clock readings give different new ids. |
| Catalog.ReplaceById | App.tsx:108 | The length is kept. Courses with another id are untouched, and every course with the id becomes the new record. |
| Catalog.BuildRecord | App.tsx:89-105 | The record always has the form's title, category id and image, the category's label, the parsed price and no trailer. Editing keeps the edited course's id, rating, duration and topics. Creating gives id c plus the clock reading, rating 5.0, duration 12h 00m and the three placeholder topics. |
| Catalog.SaveCourses | App.tsx:78-111 | Admin mode off means refused, and only then. With admin on, an empty title or price text means refused for missing fields, and only then. A saved record has the form's title and category id. |
| Catalog.SaveCreates | App.tsx:89-110 | Creating puts the new record first, followed by the old list, so the list grows by one. The record has id c plus the clock reading, the form's title, category id, image and the parsed price, the category's label, rating 5.0, duration 12h 00m, the placeholder topics t1, t2, t3 (each with an empty video URL) and no trailer `videoUrl`. |
| Catalog.SaveEdits | App.tsx:89-108 | Editing keeps the length and leaves courses with another id untouched. Each course with the edited id gets the edited course's id, rating, duration and topics, and the form's title, category id, label, image and price. Its trailer `videoUrl` is dropped. |
| Catalog.SaveEditOfMissingCourse | App.tsx:107-108 | Editing a course whose id is no longer in the list leaves the list unchanged. |
| Catalog.LoadAdmin | App.tsx:18-20 | Admin mode is on only when the stored flag is exactly the text true. A missing flag and the text false leave it off. |
| Catalog.AdminText | App.tsx:48-50 | The stored text of the admin flag reads back as the same flag. |
| Catalog.LoadCatalog | App.tsx:25-28 | A missing or empty stored catalog text gives the seed catalog. Any other stored text gives the parsed list. |
| Catalog.Store.constructor | App.tsx:18-55 | Admin mode is on exactly when the stored flag is the text true. The list is the parsed stored catalog when its text is present and non-empty, otherwise the seed catalog. The form is closed on the default draft, and storage holds the loaded values. |
| Catalog.Store.ToggleAdmin | App.tsx:316 | The flag is negated and written to storage. The list and the form are unchanged. |
| Catalog.Store.OpenEdit | App.tsx:57-66 | The form opens on the course: its title, price text, category id and image, with the course as the one being edited. The flag and the list are unchanged. |
| Catalog.Store.OpenNew | App.tsx:226 | The form opens on the default draft with no course being edited. The flag and the list are unchanged. |
| Catalog.Store.EditForm | App.tsx:431-461 | The draft becomes the typed fields and nothing else changes. |
| Catalog.Store.CloseForm | App.tsx:419-423 | The form closes, keeping the draft and the edited course. The flag and the list are unchanged. |
| Catalog.Store.Delete | App.tsx:68-76 | Admin mode off means refused with the list unchanged. A declined confirmation leaves the list unchanged. Otherwise the list becomes RemoveById of the old list, and storage follows. |
| Catalog.Store.Save | App.tsx:78-116 | The outcome is SaveCourses of the old state. On success the list becomes the saved list, storage follows, and the form is closed and reset. On a refusal nothing changes. |
| Search.MatchesSearch | App.tsx:145 | The empty query matches every course. A query longer than the title matches none. |
| Search.MatchesCategory | App.tsx:146 | No selected category, or the falsy empty id, lets every course through. Otherwise a course passes exactly when its category id is the selected one. |
| Search.Matches | App.tsx:145-147 | With no query and no category every course matches. A course of another category than the selected one, or with a title shorter than the query, never matches. |
| Search.FilteredCourses | App.tsx:143-149 | The result is a subsequence of the catalog. Every shown course's lower-cased title contains the lower-cased query, and, when a category is selected, has that category id. Each matching course keeps its multiplicity. |
| Search.ShownIff | App.tsx:143-149 | A course is shown if and only if it is in the catalog and matches both the query and the category. |
| Search.NoFilterShowsAll | App.tsx:145-146 | With an empty query and no selected category, the whole catalog is shown unchanged. |
| Search.QueryCaseInsensitive | App.tsx:145 | Searching for the lower-cased query shows the same list as the query itself. |
| Search.SearchExample | App.tsx:145 | Of courses titled CourseA and CourseB, the query coursea shows only the first. |
| Screen.Step | App.tsx:125-141 | Only the navigation events change the tab, and only buying changes the course paid for. Only the gateway and the two timers change the status, and no event enters the error status. The payment backdrop does nothing while a payment is processing. |
| Screen.Enabled | App.tsx:483-487 | Every user event except choosing a gateway is always accepted. In a state satisfying the invariant, a timer can fire only while a checkout is under way with a gateway and a course, and a gateway can be chosen only when none is recorded. |
| Screen.InitInv | App.tsx:33-37 | The start state satisfies the invariant. |
| Screen.StepInv | App.tsx:125-141 | Every enabled event keeps the invariant. Error is never entered, and a gateway is recorded exactly while a checkout runs. Processing keeps the sheet open. An open sheet or a started checkout has a course to pay for. |
| Screen.RunInv | App.tsx:125-141 | Any sequence of enabled events keeps the invariant. |
| Screen.NeverError | App.tsx:36 | No sequence of enabled events from the start reaches the error status. |
| Screen.BackdropBlockedWhileProcessing | App.tsx:485 | While processing, the backdrop changes nothing. |
| Screen.BackdropClosesOtherwise | App.tsx:485 | Outside processing, the backdrop closes the payment sheet and changes nothing else. |
| Screen.CloseDetailKeepsPayment | App.tsx:358-362 | Closing the detail sheet leaves the sheet flag, the course paid for, the status and the gateway unchanged. |
| Screen.PurchaseKeepsDetail | App.tsx:125-128 | Buying shows the payment sheet for the course, keeps the detail sheet and leaves the status alone. |
| Screen.Checkout | App.tsx:125-141 | Buying from the detail sheet, choosing a gateway and the two waits form an enabled run. The status goes processing, then success, with the gateway recorded. The run ends idle, with no gateway and both sheets closed. |
| Screen.View.constructor | App.tsx:15-37 | The view starts on Home, with no sheet open, status idle and no gateway. |
| Screen.View.SelectTab | App.tsx:340-351 | Only the tab changes, and the invariant is kept. |
| Screen.View.ShowDetail | App.tsx:248 | The detail sheet opens on the course, and the invariant is kept. |
| Screen.View.ShowDetailFromHome | App.tsx:198 | The tab becomes Explore and the detail sheet opens on the course. |
| Screen.View.CloseDetail | App.tsx:358-362 | The detail sheet closes and nothing else changes. |
| Screen.View.Purchase | App.tsx:125-128 | The payment sheet opens for the course. |
| Screen.View.ChooseGateway | App.tsx:130-132 | On a shown, idle sheet, the gateway is recorded and the status becomes processing. |
| Screen.View.TimerProcessingDone | App.tsx:133-134 | After the first wait, processing becomes success. |
| Screen.View.TimerSuccessDone | App.tsx:135-140 | After the second wait, the payment sheet closes, the status returns to idle, the gateway is cleared and the detail sheet closes. |
| Screen.View.CloseBackdrop | App.tsx:485 | The payment sheet closes unless a payment is processing. |

## Left out

- Rendering: layout, animation, icons, `NavItem`, the WhatsApp link and the
  fallback topic list shown for a course without topics. These are
  presentation.
- The icon of a category. It is a rendered element, not data the logic uses.
- `MENTORS` and `Mentor`: data the app never reads.
- Local storage and JSON: `getItem`/`setItem`, `JSON.stringify` and
  `JSON.parse` are not modelled. The store keeps the two stored values as
  fields, and `Valid` says they equal the in-memory flag and list after every
  handler. The start-up state takes the stored texts and the parsed catalog as
  parameters. A failed write, and a stored text that does not parse, are not
  modelled.
- `alert`, `confirm` and the success toast are browser I/O. The answer to
  `confirm` is a `bool` parameter of `Store.Delete`, and the alerts become the
  refusal outcomes.
- `setTimeout` and `await`: the two delays of the checkout and the toast's
  removal are not timed. The delays are the events `TimerProcessingDone` and
  `TimerSuccessDone`.
- `parseFloat` and floating-point numbers: prices and ratings are reals. The
  parsed price is a parameter of `Store.Save`, so a price text that parses to
  NaN is not represented.
- `Date.now()`: the clock reading is a `nat` parameter of `Store.Save`.
- `course.price.toString()` in the edit form: the rendered price text is a
  parameter of `Store.OpenEdit`.
- The search box and the category selector are not fields of the model.
  `FilteredCourses` takes the query and the selected category as parameters.
  The only setter of the selected category sets it back to none.
- Which events the screen accepts: only choosing a gateway and the two
  timers have enabling conditions. Buying, opening and closing the detail
  sheet are accepted in every state, although in the app the buy button
  exists only inside the detail sheet and is covered by the payment backdrop
  while a payment runs. The model therefore admits more event orders than the
  app, for example pointing a running checkout at another course. The
  invariants are proved for all these orders, so they hold for the app's.
- The form modal is only rendered while admin mode is on. The model does not
  gate `Store.EditForm` or `Store.CloseForm` on it, and `Store.Save` re-checks
  the flag as the code does.
- Text.Lower: covers the ASCII letters only. Full Unicode case mapping of
  `toLowerCase` is not modelled.
- Text.Upper: covers the ASCII letters only. Full Unicode case mapping of
  `toUpperCase` is not modelled. All category names are ASCII.
- Catalog.FindCategory: states that an answer carries the id, not that it is
  the first such entry. `FindCategoryUnique` gives the exact answer for a table
  with distinct ids, which the category table is.
