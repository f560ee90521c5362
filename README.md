# Candle order form: a Dafny model

This project models the order-entry form of a monday.com board app for a candle maker.
A user types a customer's first and last name and a quantity. They pick up to three
fragrances from a catalog that a local service supplies. Starting the order sends a
GraphQL `create_item` mutation that adds an item to the "Production Orders" board.
A toast reports how the order went.

The model has three modules:

- `Values` (values.dfy): the order draft, the dropdown's fragrance options, the toast,
  and the fixed texts the page shows.
- `OrderText` (order_text.dfy): the pure text builders. These are the fragrance list
  joined by `", "`, the quantity as decimal text, the date cut from an ISO timestamp,
  the item name, the column-values payload and the mutation text. Each builder has an
  inverse (`Split`, `ReadInteger`) or an independent characterisation, and lemmas
  connect the two.
- `OrderForm` (order_form.dfy): the controller. `Form` is a class with one field per
  `useState` slot of the page and one method per event: a field edit, a dropdown
  change, validation, submission, closing the toast and loading the catalog.
  `Form.Valid()` is the invariant that every method preserves: at most three
  fragrances are selected, and a shown toast always has a message and a type. The
  catalog loader mutates the fetched records in place, so records are objects
  (`FragranceRecord`) that a loop updates one at a time.

The network's answers are parameters. `LoadCatalog` takes either the parsed records or
`Unavailable`. `CreateOrder` takes `Created` or `Failed`, plus the ISO timestamp that
the page reads from the clock. `CreateOrder` returns the query text it would send, or
`None` when validation stops it.

Two behaviours of the program are easy to misread:

- `fetch` does not throw on an HTTP error status, and the code only catches
  exceptions. So a response whose body parses as JSON shows the success toast and
  clears the draft, whatever its status. `SubmitOutcome.Created` stands for any such
  response.
- A failed catalog fetch leaves the catalog unchanged. It is empty only because the
  fetch runs once, on mount. `LoadCatalog` states the unchanged catalog. `Mount`
  states the empty one.

## Model

| member | source | states |
|---|---|---|
| OrderForm.Form.constructor | src/App.js:12-22 | The page starts with an empty catalog, the draft `""`, `""`, `0`, `[]`, and a closed toast with empty message and type. The invariant holds. |
| OrderForm.Mount | src/App.js:124-126 | On mount the catalog is loaded once into a fresh form with the initial draft and toast. Delivered records become the catalog in order, each with its name kept and `value` and `label` equal to it. If the fetch fails, the catalog stays empty and the dropdown is never shown. |
| OrderForm.AdaptRecords | src/App.js:31-34 | Every record gets `value` and `label` equal to its `name`. Names, count and order do not change. |
| OrderForm.Form.LoadCatalog | src/App.js:24-40 | Received records become the catalog, in order, each adapted with its name unchanged. A failed fetch leaves the catalog as it was. The draft and the toast never change. |
| OrderForm.Form.SetFirstName | src/App.js:137 | Only `firstName` changes, to the typed value. The toast and the catalog are unchanged. |
| OrderForm.Form.SetLastName | src/App.js:145 | Only `lastName` changes, to the typed value. The toast and the catalog are unchanged. |
| OrderForm.Form.SetQuantity | src/App.js:154 | Only `quantity` changes, to the entered value. The toast and the catalog are unchanged. |
| OrderForm.Form.ChangeSelection | src/App.js:169-177 | A new selection of more than 3 fragrances is refused: the old selection stays and a negative toast "You can only select up to 3 fragrances." opens. Otherwise the new selection replaces the old one and nothing else changes. So at most 3 fragrances are ever selected. |
| OrderForm.ValidationMessage | src/App.js:42-58 | The result is no message exactly when the fields are complete and a fragrance is selected. It is "Please fill out all fields." exactly when a name is empty or the quantity is 0, whatever the selection. It is "Please select a fragrance." exactly when the fields are complete and the selection is empty. |
| OrderForm.Form.ValidateFields | src/App.js:42-58 | The result is true exactly when the draft is submittable. On false, a negative toast with the first failing check's message opens. The draft is never changed. |
| OrderForm.Form.CreateOrder | src/App.js:60-122 | An invalid draft returns early: no query is built, the draft is unchanged, and the validation toast is shown. A valid draft yields exactly the mutation for that draft and date. A `Created` outcome shows the success toast and resets the draft to `""`, `""`, `0`, `[]`. A `Failed` outcome shows the error toast and leaves the draft exactly as it was. |
| OrderForm.Form.CloseToast | src/App.js:192 | Only `open` becomes false. The message, the type, the draft and the catalog are kept. |
| OrderText.SplitJoin | src/App.js:68-70 | Cutting the joined text at `", "` gives back the parts, in order, whenever there is at least one part and no part contains `", "`. |
| OrderText.JoinLength | src/App.js:68-70 | n joined parts are as long as the parts together plus one two-character separator for each of the n-1 gaps. |
| OrderText.FormatOne | src/App.js:68-70 | The fragrance text of a single selection is that selection's `value` alone. |
| OrderText.FormatLength | src/App.js:68-70 | The fragrance text of n selections holds their values plus n-1 separators. |
| OrderText.FormatDecodes | src/App.js:68-70 | The fragrance text cuts back into exactly the selected `value`s, in selection order, one piece per selection. |
| OrderText.NatToDecimal | src/App.js:90 | The quantity text is non-empty and all digits, with no leading zero unless the number is 0. |
| OrderText.QuantityRoundTrip | src/App.js:90 | The quantity written into the column values reads back as the same integer, negative ones included. |
| OrderText.DatePart | src/App.js:91 | `split("T")[0]` is a prefix of the timestamp with no `T` in it. It is the whole timestamp, or it is followed by a `T`. |
| OrderText.DateOfTimestamp | src/App.js:91 | A timestamp `<date>T<time>` whose date has no `T` gives exactly `<date>`. |
| OrderText.ColumnValuesCarry | src/App.js:90-92 | The column values contain the escaped `numbers` entry with the quantity text, the `dropdown` entry with the fragrance text, and the `date_1` entry with the date. |
| OrderText.OrderMutationCarriesDraft | src/App.js:84-96 | The query for a draft contains `item_name: "New Order for <first> <last>"` and the quantity, fragrance and date entries. |
| OrderText.JaneDoeOrder | src/App.js:68-91 | Jane Doe, quantity 5, Vanilla then Rose: the item name is "New Order for Jane Doe", the quantity text is "5", the fragrance text is "Vanilla, Rose", and the timestamp 2024-05-17T09:30:00.000Z gives the date 2024-05-17. |

## Left out

- The two `fetch` calls, `response.json()`, the request headers, the API key and the
  `JSON.stringify` of the request body (src/App.js:26-27, 74-100) are network I/O. Their
  outcomes are parameters, and `CreateOrder` returns the query text instead of posting it.
- `new Date().toISOString()` (src/App.js:91) reads the clock. The timestamp is a
  parameter of `CreateOrder`, and only the `split("T")[0]` applied to it is modelled.
- React rendering, the monday UI components and the toast's 3000 ms auto-hide are
  left out because they are UI and timing. The only rendering fact modelled is
  `SelectorShown`: the dropdown exists only while the catalog has records.
- `console.log` and `console.error` (src/App.js:38, 101, 120) are logging only.
- GraphQL parsing of the mutation and the escaping of user input are left out. Names or
  fragrance values that contain quotes or backslashes are copied into the query as
  typed, as the source does, and the model says nothing about how the API reads them.
- OrderForm.Form.SetQuantity: the quantity is an integer. The number field may hand
  the page a string, and the strict `=== 0` check then never rejects it. That string
  case is not modelled.
- OrderText.NatToDecimal: the quantity is an unbounded integer, while the program holds
  a JavaScript number, which is a double. Up to 2^53 in magnitude the two write the same
  digits. Above 2^53 JavaScript writes the shortest digits that round-trip the double,
  padded with zeros: `${2**60}` is "1152921504606847000", where the model writes
  "1152921504606846976". From 10^21 on, JavaScript uses exponent form. Integers that no
  double represents exactly, and non-integer quantities, are not modelled.
- OrderForm.Form.ChangeSelection: the `null` selection that the optional chain guards
  against is not modelled. Selected options are not required to come from the catalog.
  The method requires a non-empty catalog, because the dropdown whose change it handles
  is rendered only then (src/App.js:159).
- OrderForm.Form.CreateOrder: events are modelled one after another. React's
  asynchronous state updates, stale closures and overlapping submissions (a double
  click) are not modelled.
- OrderForm.Form.LoadCatalog: a response body that is not an array makes `forEach`
  throw. That case is one more way of reaching `Unavailable`. Record fields other than
  `name`, `value` and `label` are not modelled.
