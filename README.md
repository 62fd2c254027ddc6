# Currency converter widget, modelled in Dafny

A browser custom element, `<currency-converter>`, lets a user type an amount,
pick a base and a target currency among CAD, USD and EUR, and see the converted
amount. This project models its two pieces of deterministic logic and proves
what they promise:

- **The rate table** (`src/services/GetConversionRates.js`, module
  `ConversionRates` in `conversion_rates.dfy`). `getConversionData` fetches the
  rates of one base currency, writes the self-rate `rates[base] = 1` into the
  parsed body and wraps the result as `{[base]: rates}`. `getAllConversionData`
  chains three such requests, CAD then USD then EUR, each against the other two
  currencies, merging each one-row result into an accumulator; the first
  failure rejects the whole chain. The outcome of `fetch` and `response.json()`
  is an input (`Fetch`); the model states what the code does with it: which
  requests go out and in what order, what the table holds, and which error
  comes back.
- **The widget** (`src/Components/CurrencyConverter/CurrencyConverter.js`,
  module `Widget` in `widget.dfy`, amount syntax in `amount_pattern.dfy`). A
  class `CurrencyConverter` holds `state` (input text, converted text, base,
  target, disclaimer flag), the cached `conversionValues` table, the text of
  the input box (`field`) and of the output box (`output`). Both the state and
  the table change only through `Object.assign` merges. A keystroke is checked
  against `/^\d{1,}(\.\d{0,6})?$/` (or is empty): accepted text is stored,
  rejected text is undone by writing the stored value back into the box.
  Accepted keystrokes and currency changes recompute the output from the
  cached table.

The class invariant `Valid()` says the stored input is always empty or a
well-formed amount; the constructor establishes it and every handler keeps it.

Some behaviours of the code that the model follows exactly:

- In `updateConversion` only a missing row for the base currency throws (a
  `TypeError`, nothing changes). A row without the target gives a rate of
  `undefined`, and `(value * undefined).toFixed(2)` is the text `"NaN"`, which
  is stored and shown.
- `updateBaseType` and `updateTargetType` store the new currency before
  recomputing, so the new currency stays even when the recomputation throws.
- A response body without a `rates` member makes `rates[base] = 1` throw; the
  chain rejects with that error (`NoRatesMember`).
- Nothing checks that the targets exclude the base or that the service
  returns exactly the requested targets. The proved row shape is therefore
  "the rates the service sent, plus the base at 1".

## Model

| member | source | states |
|---|---|---|
| `AmountPattern.LeadingDigits` | src/Components/CurrencyConverter/CurrencyConverter.js:100 | the greedy `\d{1,}` run: every character before the returned length is a digit and the next one, if any, is not |
| `AmountPattern.MatchesAmountCorrect` | src/Components/CurrencyConverter/CurrencyConverter.js:100 | the recogniser accepts a string exactly when it splits into one or more digits, then either nothing or a point and at most six digits |
| `AmountPattern.AcceptsIff` | src/Components/CurrencyConverter/CurrencyConverter.js:100 | the keystroke test (empty, or a match) accepts exactly the empty string and the matches of the pattern |
| `AmountPattern.AcceptedShape` | src/Components/CurrencyConverter/CurrencyConverter.js:100 | an accepted non-empty text starts with a digit, holds only digits and points, at most one point, and at most six digits after it |
| `AmountPattern.AcceptsExamples` | src/Components/CurrencyConverter/CurrencyConverter.js:100 | "", "100", "12." and "12.345678" are accepted |
| `AmountPattern.RejectsExamples` | src/Components/CurrencyConverter/CurrencyConverter.js:100 | ".5", "1.2.3", "-1", "1e5", "1.1234567" and "12.3456789" are rejected |
| `Widget.CurrencyConverter.constructor` | src/Components/CurrencyConverter/CurrencyConverter.js:8-17 | the initial state (empty input and converted text, CAD to USD, disclaimer hidden) and an empty rate table; the invariant holds |
| `Widget.CurrencyConverter.SetState` | src/Components/CurrencyConverter/CurrencyConverter.js:78-80 | the new state is the old one merged with the patch |
| `Widget.MergeOnlyGivenKeys` | src/Components/CurrencyConverter/CurrencyConverter.js:78-80 | a merge overwrites exactly the keys the patch carries and keeps every other key |
| `Widget.CurrencyConverter.SetConversionValues` | src/Components/CurrencyConverter/CurrencyConverter.js:86-88 | the table's keys become the old keys plus the given ones; given rows replace, every other row is kept |
| `Widget.CurrencyConverter.ValidateInput` | src/Components/CurrencyConverter/CurrencyConverter.js:94-111 | accepted text is stored as the input, stays in the box and is returned; rejected text is an 'Invalid input' error, the box is reset to the stored input, and the state is unchanged; the invariant is kept |
| `Widget.Recompute` | src/Components/CurrencyConverter/CurrencyConverter.js:116-124 | only `converted` can change; empty input clears the output and keeps `converted`; a non-empty input fails exactly when the base row is missing, changing nothing; otherwise the rate `table[base][target]` (or "NaN" when the target is missing) gives the text shown and stored |
| `Widget.CurrencyConverter.UpdateConversion` | src/Components/CurrencyConverter/CurrencyConverter.js:116-124 | the outcome, new state and output box are those of `Recompute` on the old state and the cached table |
| `Widget.CurrencyConverter.SetConversionAmount` | src/Components/CurrencyConverter/CurrencyConverter.js:130-137 | a rejected keystroke changes neither state nor output and resets the box; an accepted one stores the text and then recomputes |
| `Widget.CurrencyConverter.UpdateBaseType` | src/Components/CurrencyConverter/CurrencyConverter.js:151-154 | only the base changes in the state, then the output is recomputed from the cached table; the table is not fetched again |
| `Widget.CurrencyConverter.UpdateTargetType` | src/Components/CurrencyConverter/CurrencyConverter.js:160-163 | only the target changes in the state, then the output is recomputed from the cached table; the table is not fetched again |
| `Widget.CurrencyConverter.LoadConversionValues` | src/Components/CurrencyConverter/CurrencyConverter.js:48-51 | on success the assembled table is merged into the cached one; on failure the cached table is unchanged |
| `Widget.RecomputeAfterLoad` | src/Components/CurrencyConverter/CurrencyConverter.js:116-124 | once a successful load has been merged into whatever table the widget held, recomputing never throws for a base among CAD, USD and EUR, and converting a currency to itself uses the rate 1 |
| `ConversionRates.ConversionData` | src/services/GetConversionRates.js:29-38 | on a parsed body the result has exactly one key, the base; its row holds the sent rates plus the base at 1, other rates unchanged; a fetch error, or a body without `rates`, is the result's error |
| `ConversionRates.GetConversionData` | src/services/GetConversionRates.js:29-38 | the method resolves or rejects as `ConversionData` of the fetched outcome |
| `ConversionRates.BuildTableAllOrNothing` | src/services/GetConversionRates.js:9-21 | a chain succeeds exactly when every one of its requests succeeds |
| `ConversionRates.BuildTableKeys` | src/services/GetConversionRates.js:11-17 | the table of a chain that succeeded has exactly one row per base of its plan |
| `ConversionRates.BuildTableRows` | src/services/GetConversionRates.js:11-17 | with distinct bases, each row of the table is the one its own request produced: no merge overwrites an earlier one |
| `ConversionRates.ChainStep` | src/services/GetConversionRates.js:9-21 | one more step of a chain: after a failure it is skipped and sends nothing; otherwise its request is sent and its row is merged or its error becomes the chain's |
| `ConversionRates.ChainStopsAtFailure` | src/services/GetConversionRates.js:9-21 | once a step has failed, no later request is sent and the chain's result is that failure |
| `ConversionRates.IssuedOnSuccess` | src/services/GetConversionRates.js:9-18 | a chain that succeeded sent every request of its plan |
| `ConversionRates.IssuedOnFailure` | src/services/GetConversionRates.js:9-21 | a chain that failed stopped at its first failing request: every earlier request sent succeeded, and the last one sent carries the chain's error |
| `ConversionRates.PlanBases` | src/services/GetConversionRates.js:9-15 | the three bases of the chain are distinct and are exactly CAD, USD and EUR, and each request asks for the other two currencies and not its own base |
| `ConversionRates.AllConversionDataSelfRates` | src/services/GetConversionRates.js:7-23 | on success the table's keys are exactly CAD, USD and EUR, and each is worth 1 against itself |
| `ConversionRates.AllConversionDataRows` | src/services/GetConversionRates.js:7-23 | on success the table's keys are exactly CAD, USD and EUR, each base is worth 1 against itself, and every other rate is the one the service sent |
| `ConversionRates.GetAllConversionData` | src/services/GetConversionRates.js:7-23 | the result is the three-step chain CAD, USD, EUR with first-failure propagation and no partial table; the requests sent are the plan's first `SentCount` requests, in plan order; on success the keys are the three bases with self-rates 1 |

## Left out

- `calculateConvertedAmount` (src/utils/utils.js) and the `parseFloat` before it: the product of two doubles rendered by `toFixed(2)` depends on IEEE-754 arithmetic and rounding, so the widget is given this as a function (`Calculator`) about which nothing is assumed.
- `fetch` and `response.json()`: network and JSON parsing are an input (`Fetch`), mapping a request to a parsed body or an error. The request URL is not modelled beyond the base and targets it carries.
- Promises: every `.then`/`.catch` chain is a sequential call returning a `Result` or `Outcome`. There is no concurrency; the only reordering a browser could add is between separate events, which the model treats as separate method calls.
- Error reporting: `setConversionAmount` logs its error with `console.log`, a throw from `updateBaseType`/`updateTargetType` escapes the event listener, and a rejection of the load is unhandled; the model returns these as `Outcome`/`Result` values, and no logging is modelled.
- DOM glue in `connectedCallback`: shadow root, template cloning, `querySelector` and listener wiring; `e.path[0]` is the `field` string and `#output-currency` the `output` string. The HTML template is not part of this model, so both boxes are taken to start empty.
- `toggleDisclaimer`: it flips a CSS `display` property of a DOM node. `state.showDisclaimer` is never read or written after the constructor, so the model only carries it.
- `customElements.define`, the commented-out listeners and every `console.log`.
- Widget.Recompute, Widget.CurrencyConverter.UpdateBaseType, Widget.CurrencyConverter.UpdateTargetType: JavaScript objects are modelled as maps of their own keys only. A currency code is taken to be one of the selectors' own codes; a name inherited from `Object.prototype` (such as "constructor" or "toString") counts as absent, so the model reports the missing-row error where the code would read an inherited member, get a rate of `undefined` and show "NaN".
- ConversionRates.ConversionData: a parsed body's `rates` is taken to be an object of numbers, or missing. A `rates` that is a number or string (where the sloppy-mode write of the self-rate is silently dropped) and non-numeric rate values are not modelled.
- ConversionRates.GetAllConversionData: the requests it sends are a ghost out-parameter, a record of the network side effect that the code itself never returns.
