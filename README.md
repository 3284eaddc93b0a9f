# FX markup calculator — a verified model

The calculator page lets a user enter what they paid in one currency and
what they received in another. It looks up the interbank mid rate for the
pair and shows three numbers:

- the user's effective rate (received / paid);
- the markup, in percent of the interbank rate;
- the hidden cost, in the received currency (paid × rate − received).

This project models that logic in Dafny and proves what it promises.

- `markup.dfy`, module `Markup`: the three formulas as functions over
  mathematical reals, with their defining relations, the sign law, the two
  algebraic identities for the hidden cost, and two worked examples.
- `calculator.dfy`, module `Calculator`: the selectable currency codes and
  the click handler. The handler is modelled three ways:
  - `Effects`: the sequence of state writes and the rate request, in the
    order the handler performs them;
  - `Evaluate` and `Settle`: the outcome of a run (a verdict) and the page
    state that verdict leaves;
  - class `Home`: the page's `error`, `results` and `loading` state, plus a
    ghost log of every write and request. Its method `CalculateMarkup`
    performs the writes one at a time, through setters that mirror the
    page's state setters. The `try` block, from the rate request to the final
    loading write, is its own method, `AwaitRate`.

  `EffectsMatchVerdict` proves that performing `Effects` leaves exactly the
  `Settle` state. `CalculateMarkup` is proved to log exactly `Effects` and
  to leave exactly the `Settle` state.

The handler's inputs are:

- the form, where each amount field is its text plus the number parsed
  from that text;
- the outcome of the rate lookup: a number was found for the target
  currency, there was no entry for it, or the request threw. A decoded
  JSON body cannot hold NaN, so a NaN rate cannot actually come out of the
  lookup; the model still admits it, because the handler's rate check
  (pages/index.js:44) rejects it, and proves that it is rejected.

The model follows the code where it is more permissive than its purpose
suggests:

- A negative rate passes the handler's check, which only rejects a missing,
  NaN or zero rate. `NegativeRatePublished` shows such a rate yields a
  published result, and `NegativeRateBreaksSignLaw` that the sign law then
  fails.
- The handler does not check the currency codes against the list of codes.
  Only the drop-downs limit them.
- The hidden cost is an amount of the received currency, since the rate is
  quoted as received-currency units per paid-currency unit
  (pages/index.js:40-42). The page labels it with the paid currency's code
  (pages/index.js:100); that label is display code and is not modelled.
- There is no separate "computation error" outcome. With real numbers and
  a rate that is not zero, the computation cannot fail.

## Model

| member | source | states |
|---|---|---|
| `Markup.UserRate` | pages/index.js:50 | the user's rate times the amount paid gives back the amount received |
| `Markup.MarkupPercent` | pages/index.js:51 | the markup times the interbank rate is 100 times (rate − user rate) |
| `Markup.HiddenCost` | pages/index.js:52 | paid × (rate − user rate); its meaning is stated by the two identities and the sign lemma below |
| `Markup.Compute` | pages/index.js:50-52 | the result carries the rate it was given; user rate × paid = received; markup × rate = 100 × (rate − user rate); hidden cost = paid × rate − received |
| `Markup.HiddenCostIsShortfall` | pages/index.js:50-52 | the hidden cost equals paid × interbank rate − received |
| `Markup.HiddenCostFromMarkup` | pages/index.js:51-52 | the hidden cost equals paid × interbank rate × markup / 100 |
| `Markup.MarkupSign` | pages/index.js:51 | for a positive rate, the markup is positive iff the user's rate is below it, negative iff above, zero iff equal |
| `Markup.MarkupZeroIffRatesAgree` | pages/index.js:51 | for any non-zero rate, the markup is zero exactly when the user's rate equals it |
| `Markup.HiddenCostSign` | pages/index.js:52 | for a positive amount paid, the hidden cost is positive iff the user's rate is below the rate, negative iff above, zero iff equal |
| `Markup.SignLaw` | pages/index.js:50-52 | with positive paid and rate, markup and hidden cost are both positive, both negative or both zero as the user's rate is below, above or equal to the rate |
| `Markup.NegativeRateBreaksSignLaw` | pages/index.js:44-52 | a negative rate, which the rate check lets through, yields a positive markup and a negative hidden cost for a user who beat the rate |
| `Markup.ExampleMarkedUp` | pages/index.js:50-52 | 1000 paid, 1250 received, rate 1.30: user rate 1.25, markup 50/13 %, hidden cost 50 |
| `Markup.ExampleBetterThanMarket` | pages/index.js:50-52 | 200 paid, 190 received, rate 0.90: user rate 0.95, markup −50/9 %, hidden cost −10 |
| `Calculator.CurrenciesWellFormed` | pages/index.js:6-20 | the offered codes are pairwise distinct three-letter codes, and the first two are the defaults GBP and USD |
| `Calculator.AllFilled` | pages/index.js:26 | no field is the empty string (the fill-in guard) |
| `Calculator.ValidAmount` | pages/index.js:33 | a parsed amount is a number and positive (the numeric guard, applied to paid and received) |
| `Calculator.AmountsValid` | pages/index.js:31-33 | both parsed amounts pass the numeric guard: the whole test that rejects a NaN or non-positive paid or received amount |
| `Calculator.RateUsable` | pages/index.js:44 | the rate is present, a number and not zero: the `!interbankRate` test; a negative rate passes |
| `Calculator.Effects` | pages/index.js:22-59 | the writes and rate request of one click, in order: always first the clears of error and result; when both guards pass, loading on as the third write and loading off as the last; otherwise exactly one more write, an error |
| `Calculator.RateEffects` | pages/index.js:39-59 | the two writes after the rate request: an error or the result, then loading off |
| `Calculator.Evaluate` | pages/index.js:22-59 | the outcome of one click; it is a computed result exactly when both guards pass and the rate is usable, and then carries that rate and a user rate with user rate × paid = received |
| `Calculator.Settle` | pages/index.js:22-59 | the page state an outcome leaves: an empty error exactly when there is a result; loading on only when it was on and a guard rejected the click |
| `Calculator.EffectsMatchVerdict` | pages/index.js:22-59 | performing the handler's writes in order leaves exactly the state its verdict describes |
| `Calculator.MissingFieldRejected` | pages/index.js:23-29 | an empty field gives the fill-in message and no result; loading is never written and no rate is requested |
| `Calculator.InvalidAmountRejected` | pages/index.js:31-36 | filled fields with a NaN or non-positive amount give the numeric-values message and no result; loading is never written and no rate is requested |
| `Calculator.ZeroPaidIsInvalidNotMissing` | pages/index.js:26-35 | a paid amount typed as "0" passes the fill-in check and is rejected as an invalid amount, whatever the currencies |
| `Calculator.ZeroReceivedIsInvalidNotMissing` | pages/index.js:26-35 | a received amount typed as "0" passes the fill-in check and is rejected as an invalid amount, whatever the currencies |
| `Calculator.RateRejected` | pages/index.js:38-48 | a missing, NaN or zero rate gives the rate message and no result, loading ends off, and the rate was requested |
| `Calculator.FetchFailureReported` | pages/index.js:38-59 | a lookup that throws gives the generic message and no result, loading ends off, and the rate was requested |
| `Calculator.SuccessPublishesResult` | pages/index.js:23-59 | a usable rate gives an empty error, loading off, and a result holding the rate, received/paid, the markup against the rate and paid × rate − received |
| `Calculator.NegativeRatePublished` | pages/index.js:44-54 | a negative quoted rate passes the rate check: a filled, valid form gets an empty error and a result computed against that rate |
| `Calculator.LoadingAlwaysReleased` | pages/index.js:38-59 | loading is switched on exactly when both guards pass, and then switched off as the last write; otherwise loading is never written and keeps its value |
| `Calculator.RateConsultedOnlyAfterGuards` | pages/index.js:26-40 | the rate is requested exactly when both guards pass; when a guard fails, the rate outcome makes no difference |
| `Calculator.EarlierOutcomeForgotten` | pages/index.js:23-24 | every run first clears the error and the result, so its outcome does not depend on an earlier run's error or result |
| `Calculator.ErrorOrResult` | pages/index.js:23-59 | a run ends with an empty error exactly when it has a result |
| `Calculator.RerunIsIdempotent` | pages/index.js:22-60 | running the handler twice on the same inputs and rate outcome leaves the same state as running it once |
| `Calculator.Home.constructor` | pages/index.js:11-13 | the page starts with no result, not loading and an empty error |
| `Calculator.Home.SetError` | pages/index.js:13 | writes the error only, and logs the write |
| `Calculator.Home.SetResults` | pages/index.js:11 | writes the result only, and logs the write |
| `Calculator.Home.SetLoading` | pages/index.js:12 | writes the loading flag only, and logs the write |
| `Calculator.Home.CalculateMarkup` | pages/index.js:22-60 | performs exactly the writes and rate request of `Effects`, in order, and leaves the state `Settle` gives for the run's verdict |
| `Calculator.Home.AwaitRate` | pages/index.js:39-59 | after the guards passed and the clears: logs the rate request and then exactly `RateEffects`, and leaves the state `Settle` gives for the run's verdict |
| `Calculator.InitialForm` | pages/index.js:4-10 | the form as first shown: its codes are offered codes, and it does not pass the fill-in guard |
| `Calculator.ClickOnFreshPage` | pages/index.js:4-29 | clicking on a fresh page with `InitialForm` shows the fill-in message and requests no rate |

## Left out

- Rendering, input widgets, styling and the fixed-decimal formatting of the results (pages/index.js:62-106). These are presentation only.
- The network request and the decoding of its JSON body (pages/index.js:40-42). This is foreign I/O. Its outcome is an input value (`RateOutcome`), and the request itself is a `RequestRate` entry in the ghost log.
- Parsing numbers from text (pages/index.js:31-32). Each amount field carries the number parsed from its text as an input; the model does not relate the two.
- Floating-point behaviour. Amounts and rates are reals: no rounding, no infinities. NaN appears only as a possible parsed value or rate, where the handler's guards test for it. An input such as "Infinity", which JavaScript's number type would accept, is not modelled.
- A rate entry of a type other than number (a string, say) is not modelled; the response's entry is either a number or absent.
- The asynchronous suspension at the rate request and the disabled button that prevents a second click while loading (pages/index.js:38, 88). Each click is one sequential step.
- The error logging to the console (pages/index.js:56). It has no effect on page state.
- The email, annual volume and date/time fields are checked only for being non-empty. They are otherwise unused, in the code as in the model.
