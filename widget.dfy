/**
 * The currency-converter custom element: its state record, its cached rate
 * table and the two text boxes it reads and writes.
 *
 * The state and the rate table change only through `Object.assign` merges
 * (setState, setConversionValues).  A keystroke validates the text in the
 * input box: accepted text becomes `state.inputValue`, rejected text is undone
 * by putting the last accepted value back into the box.  After an accepted
 * keystroke or a change of either currency the output is recomputed from the
 * cached table, never fetched again.
 */
module Widget {
  import opened Wrappers
  import opened AmountPattern
  import opened ConversionRates

  /** `this.state`. */
  datatype WidgetState = WidgetState(
    inputValue: string,
    converted: string,
    baseCurrency: Currency,
    targetCurrency: Currency,
    showDisclaimer: bool)

  /** The state the constructor sets. */
  const INITIAL_STATE := WidgetState("", "", "CAD", "USD", false)

  /** An object handed to setState: the keys it carries, each with its new value. */
  datatype StatePatch = StatePatch(
    inputValue: Option<string>,
    converted: Option<string>,
    baseCurrency: Option<Currency>,
    targetCurrency: Option<Currency>,
    showDisclaimer: Option<bool>)

  const EMPTY_PATCH := StatePatch(None, None, None, None, None)

  /** What the text of a rate of `undefined` comes to: `(value * undefined).toFixed(2)`. */
  const NOT_A_NUMBER := "NaN"

  /**
   * `calculateConvertedAmount(parseFloat(text), rate)`: a product of doubles
   * rendered by `toFixed(2)`.  Floating point is not modelled, so the widget is
   * given this function and nothing is assumed about it.
   */
  type Calculator = (string, Rate) -> string

  /** Why a handler stopped. */
  datatype HandlerError =
    | InvalidInput     // validateInput's rejection 'Invalid input'
    | MissingBaseRow   // the TypeError of indexing an absent `conversionValues[baseCurrency]`

  function Pick<T>(given: Option<T>, current: T): T {
    if given.Some? then given.value else current
  }

  /** `Object.assign(state, patch)`. */
  function Merge(s: WidgetState, patch: StatePatch): WidgetState {
    WidgetState(
      Pick(patch.inputValue, s.inputValue),
      Pick(patch.converted, s.converted),
      Pick(patch.baseCurrency, s.baseCurrency),
      Pick(patch.targetCurrency, s.targetCurrency),
      Pick(patch.showDisclaimer, s.showDisclaimer))
  }

  /** A merge overwrites exactly the keys the patch carries and keeps every other one. */
  lemma MergeOnlyGivenKeys(s: WidgetState, patch: StatePatch)
    ensures patch.inputValue.Some? ==> Merge(s, patch).inputValue == patch.inputValue.value
    ensures patch.inputValue.None? ==> Merge(s, patch).inputValue == s.inputValue
    ensures patch.converted.Some? ==> Merge(s, patch).converted == patch.converted.value
    ensures patch.converted.None? ==> Merge(s, patch).converted == s.converted
    ensures patch.baseCurrency.Some? ==> Merge(s, patch).baseCurrency == patch.baseCurrency.value
    ensures patch.baseCurrency.None? ==> Merge(s, patch).baseCurrency == s.baseCurrency
    ensures patch.targetCurrency.Some? ==> Merge(s, patch).targetCurrency == patch.targetCurrency.value
    ensures patch.targetCurrency.None? ==> Merge(s, patch).targetCurrency == s.targetCurrency
    ensures patch.showDisclaimer.Some? ==> Merge(s, patch).showDisclaimer == patch.showDisclaimer.value
    ensures patch.showDisclaimer.None? ==> Merge(s, patch).showDisclaimer == s.showDisclaimer
  {
  }

  /** What one run of updateConversion leaves: its outcome, the state and the output box. */
  datatype Recomputed = Recomputed(outcome: Outcome<HandlerError>, state: WidgetState, output: string)

  /**
   * updateConversion run on state `st` with the output box showing `outputBefore`:
   * the outcome, the state after and the output box after.
   */
  function Recompute(st: WidgetState, table: RateTable, calculate: Calculator, outputBefore: string)
    : (r: Recomputed)
    // only `converted` can change, and only to the text shown
    ensures r.state == st.(converted := r.state.converted)
    ensures r.state.converted != st.converted ==> r.state.converted == r.output
    // an empty input clears the output box and keeps the last converted value
    ensures st.inputValue == "" ==> r == Recomputed(Pass, st, "")
    // a non-empty input needs the row of the base currency; without it nothing changes
    ensures r.outcome.Fail? <==> st.inputValue != "" && st.baseCurrency !in table
    ensures r.outcome.Fail? ==> r.outcome.error == MissingBaseRow && r.state == st && r.output == outputBefore
    // otherwise the rate comes from the cached row, `undefined` when the row lacks the target
    ensures r.outcome.Pass? && st.inputValue != "" ==>
      var row := table[st.baseCurrency];
      && r.state.converted == r.output
      && r.output == (if st.targetCurrency in row then calculate(st.inputValue, row[st.targetCurrency]) else NOT_A_NUMBER)
  {
    if st.inputValue == "" then Recomputed(Pass, st, "")
    else if st.baseCurrency !in table then Recomputed(Fail(MissingBaseRow), st, outputBefore)
    else
      var row := table[st.baseCurrency];
      var text := if st.targetCurrency in row then calculate(st.inputValue, row[st.targetCurrency]) else NOT_A_NUMBER;
      Recomputed(Pass, Merge(st, EMPTY_PATCH.(converted := Some(text))), text)
  }

  /**
   * Once getAllConversionData has resolved and its table was merged into the
   * cached one, every base of the chain has a row: recomputing never throws
   * for CAD, USD or EUR, and converting a currency to itself uses the rate 1.
   */
  lemma RecomputeAfterLoad(st: WidgetState, prev: RateTable, fetch: Fetch, calculate: Calculator, outputBefore: string)
    requires BuildTable(PLAN, fetch).Success?
    requires st.baseCurrency in BASES
    ensures Recompute(st, prev + BuildTable(PLAN, fetch).value, calculate, outputBefore).outcome == Pass
    ensures st.inputValue != "" && st.targetCurrency == st.baseCurrency ==>
      Recompute(st, prev + BuildTable(PLAN, fetch).value, calculate, outputBefore).output == calculate(st.inputValue, 1.0)
  {
    AllConversionDataSelfRates(fetch);
    var table := BuildTable(PLAN, fetch).value;
    assert (prev + table)[st.baseCurrency] == table[st.baseCurrency];
  }

  class CurrencyConverter {
    var state: WidgetState
    /** `this.conversionValues`: base currency to its rates. */
    var conversionValues: RateTable
    /** The text in the `#input-currency` box. */
    var field: string
    /** The text in the `#output-currency` box. */
    var output: string
    const calculate: Calculator

    /** The stored input is always empty or a well-formed amount. */
    ghost predicate Valid()
      reads this
    {
      Accepts(state.inputValue)
    }

    /** Both boxes start empty; the template that holds them is not part of this model. */
    constructor (calculate: Calculator)
      ensures Valid()
      ensures state == INITIAL_STATE && conversionValues == map[]
      ensures field == "" && output == ""
      ensures this.calculate == calculate
    {
      state := INITIAL_STATE;
      conversionValues := map[];
      field := "";
      output := "";
      this.calculate := calculate;
    }

    method SetState(patch: StatePatch)
      modifies this`state
      ensures state == Merge(old(state), patch)
    {
      state := Merge(state, patch);
    }

    method SetConversionValues(rows: RateTable)
      modifies this`conversionValues
      ensures conversionValues == old(conversionValues) + rows
      ensures conversionValues.Keys == old(conversionValues).Keys + rows.Keys
      ensures forall base :: base in rows ==> conversionValues[base] == rows[base]
      ensures forall base :: base in old(conversionValues) && base !in rows ==>
        conversionValues[base] == old(conversionValues)[base]
    {
      conversionValues := conversionValues + rows;
    }

    /** The chain of connectedCallback: fetch the table, then merge it in when it resolves. */
    method LoadConversionValues(fetch: Fetch) returns (r: Result<RateTable, FetchError>)
      requires Valid()
      modifies this`conversionValues
      ensures Valid()
      ensures r == BuildTable(PLAN, fetch)
      ensures r.Success? ==> conversionValues == old(conversionValues) + r.value
      ensures r.Failure? ==> conversionValues == old(conversionValues)
    {
      ghost var issued;
      r, issued := GetAllConversionData(fetch);
      if r.Success? {
        SetConversionValues(r.value);
      }
    }

    /**
     * validateInput on the text in the input box: accepted text is stored and
     * stays in the box; rejected text is replaced by the stored value and
     * nothing else changes.
     */
    method ValidateInput() returns (r: Result<string, HandlerError>)
      requires Valid()
      modifies this`state, this`field
      ensures Valid()
      ensures Accepts(old(field)) ==>
        r == Success(old(field)) && state == old(state).(inputValue := old(field)) && field == old(field)
      ensures !Accepts(old(field)) ==>
        r == Failure(InvalidInput) && state == old(state) && field == old(state).inputValue
    {
      var inputValue := field;
      if Accepts(inputValue) {
        SetState(EMPTY_PATCH.(inputValue := Some(inputValue)));
        field := state.inputValue;
        r := Success(inputValue);
      } else {
        field := state.inputValue;
        r := Failure(InvalidInput);
      }
    }

    /** updateConversion: recompute the converted amount from the cached table. */
    method UpdateConversion() returns (o: Outcome<HandlerError>)
      requires Valid()
      modifies this`state, this`output
      ensures Valid()
      ensures Recomputed(o, state, output) == Recompute(old(state), conversionValues, calculate, old(output))
    {
      var converted := state.inputValue;
      if converted != "" {
        if state.baseCurrency !in conversionValues {
          return Fail(MissingBaseRow);
        }
        var row := conversionValues[state.baseCurrency];
        converted := if state.targetCurrency in row then calculate(state.inputValue, row[state.targetCurrency]) else NOT_A_NUMBER;
        SetState(EMPTY_PATCH.(converted := Some(converted)));
      }
      output := converted;
      o := Pass;
    }

    /**
     * setConversionAmount on a keyup that left `typed` in the input box:
     * validate, and recompute only when the text was accepted.
     */
    method SetConversionAmount(typed: string) returns (o: Outcome<HandlerError>)
      requires Valid()
      modifies this`state, this`field, this`output
      ensures Valid()
      ensures !Accepts(typed) ==>
        && o == Fail(InvalidInput)
        && state == old(state) && output == old(output)
        && field == old(state).inputValue
      ensures Accepts(typed) ==>
        && field == typed
        && Recomputed(o, state, output) == Recompute(old(state).(inputValue := typed), conversionValues, calculate, old(output))
    {
      field := typed;
      var validated := ValidateInput();
      if validated.Failure? {
        return Fail(validated.error);
      }
      o := UpdateConversion();
    }

    /** updateBaseType: the new base is stored even when the recomputation then throws. */
    method UpdateBaseType(baseCurrency: Currency) returns (o: Outcome<HandlerError>)
      requires Valid()
      modifies this`state, this`output
      ensures Valid()
      ensures Recomputed(o, state, output) ==
        Recompute(old(state).(baseCurrency := baseCurrency), conversionValues, calculate, old(output))
      ensures conversionValues == old(conversionValues) && field == old(field)
    {
      SetState(EMPTY_PATCH.(baseCurrency := Some(baseCurrency)));
      o := UpdateConversion();
    }

    /** updateTargetType: the new target is stored even when the recomputation then throws. */
    method UpdateTargetType(targetCurrency: Currency) returns (o: Outcome<HandlerError>)
      requires Valid()
      modifies this`state, this`output
      ensures Valid()
      ensures Recomputed(o, state, output) ==
        Recompute(old(state).(targetCurrency := targetCurrency), conversionValues, calculate, old(output))
      ensures conversionValues == old(conversionValues) && field == old(field)
    {
      SetState(EMPTY_PATCH.(targetCurrency := Some(targetCurrency)));
      o := UpdateConversion();
    }
  }
}
