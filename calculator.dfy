/** The calculator page: the selectable currency codes and the
    "calculate markup" handler, which validates the form, consults the
    interbank rate for the chosen pair and publishes either a markup result
    or an error message through three pieces of page state
    (error, results, loading).

    The handler is modelled twice: operationally, as the sequence of state
    writes and the rate request it performs (Effects), and declaratively, as
    a verdict on its inputs (Evaluate) and the state that verdict leaves
    (Settle). EffectsMatchVerdict proves the two agree, and the class Home
    performs the writes one by one and is proved against both.
 */
module Calculator {
  import opened Markup

  datatype Option<T> = None | Some(value: T)

  /** The currency codes the page offers for both sides of the conversion. */
  const Currencies: seq<string> := [
    "GBP", "USD", "EUR", "JPY", "CHF", "CNY", "NZD", "SGD",
    "INR", "AUD", "CAD", "HKD", "MYR", "NOK", "ZAR", "SEK",
    "AED", "CZK", "DKK", "HRK", "HUF", "KES", "MXN", "PLN",
    "RON", "SAR", "TRY"
  ]

  /** Each code is offered once (the page keys its options by code) and is a
      three-letter code; the page's defaults, GBP and USD, are the first two. */
  lemma CurrenciesWellFormed()
    ensures forall i, j | 0 <= i < j < |Currencies| :: Currencies[i] != Currencies[j]
    ensures forall i | 0 <= i < |Currencies| :: |Currencies[i]| == 3
    ensures Currencies[0] == "GBP" && Currencies[1] == "USD"
  {
  }

  /** A number as the page's number parser yields it: not-a-number, or a value. */
  datatype Number = NaN | Num(value: real)

  /** A numeric form field: the text typed and the number parsed from it. */
  datatype AmountField = AmountField(text: string, parsed: Number)

  /** What the handler reads from the form. The currency codes only choose
      which rate is requested; email, volume and date/time are only checked
      for being non-empty. */
  datatype Form = Form(
    paid: AmountField,
    received: AmountField,
    fromCurrency: string,
    toCurrency: string,
    email: string,
    fxVolume: string,
    datetime: string)

  /** How the rate lookup ended: a number was found for the target currency,
      the response had no entry for it, or the request or its decoding threw. */
  datatype RateOutcome = Quoted(rate: Number) | Unquoted | Threw

  const FillAllFields := "Please fill in all fields."
  const InvalidAmounts := "Please enter valid numeric values for Paid and Received."
  const RateNotFetched := "Could not fetch exchange rate. Please try again."
  const SomethingWentWrong := "Something went wrong. Please try again."

  /** No field is the empty string. */
  predicate AllFilled(f: Form)
  {
    f.paid.text != "" && f.received.text != "" && f.email != "" && f.fxVolume != "" && f.datetime != ""
  }

  /** A parsed amount the handler accepts: a number, and positive. */
  predicate ValidAmount(n: Number)
  {
    n.Num? && n.value > 0.0
  }

  /** Both parsed amounts pass the numeric guard. */
  predicate AmountsValid(f: Form)
  {
    ValidAmount(f.paid.parsed) && ValidAmount(f.received.parsed)
  }

  /** The rate passes the handler's truthiness test: it is present, a number
      and not zero. A negative rate passes. */
  predicate RateUsable(o: RateOutcome)
  {
    o.Quoted? && o.rate.Num? && o.rate.value != 0.0
  }

  /** The page state the handler writes. */
  datatype View = View(error: string, results: Option<MarkupResult>, loading: bool)

  /** One observable step of the handler: a write of one piece of state, or
      the request for the rate of a currency pair. */
  datatype Effect =
    | WriteError(msg: string)
    | WriteResults(results: Option<MarkupResult>)
    | WriteLoading(loading: bool)
    | RequestRate(base: string, symbol: string)

  function Step(s: View, e: Effect): View
  {
    match e
    case WriteError(msg) => s.(error := msg)
    case WriteResults(r) => s.(results := r)
    case WriteLoading(b) => s.(loading := b)
    case RequestRate(_, _) => s
  }

  /** The state after performing the effects in order. */
  function Apply(s: View, es: seq<Effect>): View
    decreases |es|
  {
    if es == [] then s else Apply(Step(s, es[0]), es[1..])
  }

  predicate RequestsRate(es: seq<Effect>)
  {
    exists e :: e in es && e.RequestRate?
  }

  /** The effects of one run of the handler, in the order it performs them. */
  function Effects(f: Form, o: RateOutcome): (es: seq<Effect>)
    ensures 3 <= |es| && es[0] == WriteError("") && es[1] == WriteResults(None)
    ensures AllFilled(f) && AmountsValid(f) ==>
      es[2] == WriteLoading(true) && es[|es| - 1] == WriteLoading(false)
    ensures !(AllFilled(f) && AmountsValid(f)) ==> |es| == 3 && es[2].WriteError?
  {
    [WriteError(""), WriteResults(None)] +
    if !AllFilled(f) then [WriteError(FillAllFields)]
    else if !AmountsValid(f) then [WriteError(InvalidAmounts)]
    else [WriteLoading(true), RequestRate(f.fromCurrency, f.toCurrency)] + RateEffects(f, o)
  }

  /** The effects after the rate request has settled. */
  function RateEffects(f: Form, o: RateOutcome): (es: seq<Effect>)
    requires AmountsValid(f)
    ensures |es| == 2 && (es[0].WriteError? || es[0].WriteResults?) && es[1] == WriteLoading(false)
  {
    if o.Threw? then [WriteError(SomethingWentWrong), WriteLoading(false)]
    else if !RateUsable(o) then [WriteError(RateNotFetched), WriteLoading(false)]
    else [WriteResults(Some(Compute(f.paid.parsed.value, f.received.parsed.value, o.rate.value))),
          WriteLoading(false)]
  }

  /** How a run of the handler ends. */
  datatype Verdict =
    | MissingField
    | InvalidAmount
    | RateUnavailable
    | FetchFailed
    | Computed(result: MarkupResult)

  function Evaluate(f: Form, o: RateOutcome): (v: Verdict)
    ensures v.Computed? <==> AllFilled(f) && AmountsValid(f) && RateUsable(o)
    ensures v.Computed? ==>
      v.result.interbankRate == o.rate.value &&
      v.result.userRate * f.paid.parsed.value == f.received.parsed.value
  {
    if !AllFilled(f) then MissingField
    else if !AmountsValid(f) then InvalidAmount
    else if o.Threw? then FetchFailed
    else if !RateUsable(o) then RateUnavailable
    else Computed(Compute(f.paid.parsed.value, f.received.parsed.value, o.rate.value))
  }

  /** The page state a verdict leaves: exactly one of an error message and a
      result; loading untouched by the two early rejections, off otherwise. */
  function Settle(s: View, v: Verdict): (r: View)
    ensures (r.error == "") <==> r.results.Some?
    ensures r.loading <==> s.loading && (v.MissingField? || v.InvalidAmount?)
  {
    match v
    case MissingField => View(FillAllFields, None, s.loading)
    case InvalidAmount => View(InvalidAmounts, None, s.loading)
    case RateUnavailable => View(RateNotFetched, None, false)
    case FetchFailed => View(SomethingWentWrong, None, false)
    case Computed(r) => View("", Some(r), false)
  }

  lemma {:induction false} ApplyConcat(s: View, a: seq<Effect>, b: seq<Effect>)
    ensures Apply(s, a + b) == Apply(Apply(s, a), b)
    decreases |a|
  {
    if a == [] {
      assert a + b == b;
    } else {
      assert (a + b)[1..] == a[1..] + b;
      ApplyConcat(Step(s, a[0]), a[1..], b);
    }
  }

  lemma ApplyPair(s: View, e1: Effect, e2: Effect)
    ensures Apply(s, [e1, e2]) == Step(Step(s, e1), e2)
  {
    assert [e1, e2][1..] == [e2];
    ApplyOne(Step(s, e1), e2);
  }

  lemma ApplyOne(s: View, e: Effect)
    ensures Apply(s, [e]) == Step(s, e)
  {
  }

  /** Performing the handler's effects leaves exactly the state its verdict
      describes. */
  lemma EffectsMatchVerdict(s: View, f: Form, o: RateOutcome)
    ensures Apply(s, Effects(f, o)) == Settle(s, Evaluate(f, o))
  {
    var reset := [WriteError(""), WriteResults(None)];
    var rest := Effects(f, o)[2..];
    assert Effects(f, o) == reset + rest;
    ApplyConcat(s, reset, rest);
    ApplyPair(s, WriteError(""), WriteResults(None));
    var cleared := View("", None, s.loading);
    if !AllFilled(f) || !AmountsValid(f) {
      ApplyOne(cleared, rest[0]);
    } else {
      var start := [WriteLoading(true), RequestRate(f.fromCurrency, f.toCurrency)];
      var tail := RateEffects(f, o);
      assert rest == start + tail;
      ApplyConcat(cleared, start, tail);
      ApplyPair(cleared, start[0], start[1]);
      ApplyPair(cleared.(loading := true), tail[0], tail[1]);
    }
  }

  /** Any empty field: the fill-in message, no result, loading never
      written, no rate requested; the rate outcome plays no part. */
  lemma MissingFieldRejected(s: View, f: Form, o: RateOutcome)
    requires !AllFilled(f)
    ensures Apply(s, Effects(f, o)) == View(FillAllFields, None, s.loading)
    ensures WriteLoading(true) !in Effects(f, o) && WriteLoading(false) !in Effects(f, o)
    ensures !RequestsRate(Effects(f, o))
  {
    EffectsMatchVerdict(s, f, o);
  }

  /** All fields filled but an amount that is not a number or not positive:
      the numeric-values message, no result, loading never written, no rate
      requested. */
  lemma InvalidAmountRejected(s: View, f: Form, o: RateOutcome)
    requires AllFilled(f) && !AmountsValid(f)
    ensures Apply(s, Effects(f, o)) == View(InvalidAmounts, None, s.loading)
    ensures WriteLoading(true) !in Effects(f, o) && WriteLoading(false) !in Effects(f, o)
    ensures !RequestsRate(Effects(f, o))
  {
    EffectsMatchVerdict(s, f, o);
  }

  /** A paid amount typed as "0" is not empty, so it passes the fill-in check
      and is rejected as a non-positive amount instead. */
  lemma ZeroPaidIsInvalidNotMissing(received: AmountField, fromCurrency: string, toCurrency: string,
                                     email: string, fxVolume: string, datetime: string, o: RateOutcome)
    requires received.text != "" && email != "" && fxVolume != "" && datetime != ""
    ensures var f := Form(AmountField("0", Num(0.0)), received, fromCurrency, toCurrency, email, fxVolume, datetime);
      AllFilled(f) && Evaluate(f, o) == InvalidAmount
  {
  }

  /** The same for a received amount typed as "0". */
  lemma ZeroReceivedIsInvalidNotMissing(paid: AmountField, fromCurrency: string, toCurrency: string,
                                        email: string, fxVolume: string, datetime: string, o: RateOutcome)
    requires paid.text != "" && email != "" && fxVolume != "" && datetime != ""
    ensures var f := Form(paid, AmountField("0", Num(0.0)), fromCurrency, toCurrency, email, fxVolume, datetime);
      AllFilled(f) && Evaluate(f, o) == InvalidAmount
  {
  }

  /** Valid amounts but no usable rate (missing, not a number, or zero): the
      rate message, no result, loading back off. */
  lemma RateRejected(s: View, f: Form, o: RateOutcome)
    requires AllFilled(f) && AmountsValid(f) && !o.Threw? && !RateUsable(o)
    ensures Apply(s, Effects(f, o)) == View(RateNotFetched, None, false)
    ensures RequestsRate(Effects(f, o))
  {
    EffectsMatchVerdict(s, f, o);
    assert Effects(f, o)[3].RequestRate?;
  }

  /** Valid amounts and the rate request threw: the generic message, no
      result, loading back off, and the rate was requested. */
  lemma FetchFailureReported(s: View, f: Form)
    requires AllFilled(f) && AmountsValid(f)
    ensures Apply(s, Effects(f, Threw)) == View(SomethingWentWrong, None, false)
    ensures RequestsRate(Effects(f, Threw))
  {
    EffectsMatchVerdict(s, f, Threw);
    assert Effects(f, Threw)[3].RequestRate?;
  }

  /** Valid amounts and a usable rate: the error stays the empty string it was
      cleared to, loading ends off, and the result holds that rate, the
      user's rate received / paid, and markup and hidden cost measured
      against the rate. */
  lemma SuccessPublishesResult(s: View, f: Form, o: RateOutcome)
    requires AllFilled(f) && AmountsValid(f) && RateUsable(o)
    ensures var v := Apply(s, Effects(f, o));
      var paid, received, rate := f.paid.parsed.value, f.received.parsed.value, o.rate.value;
      v.error == "" && !v.loading && v.results.Some? &&
      v.results.value.interbankRate == rate &&
      v.results.value.userRate == received / paid &&
      v.results.value.markup == (rate - received / paid) / rate * 100.0 &&
      v.results.value.hiddenCost == paid * rate - received
  {
    EffectsMatchVerdict(s, f, o);
  }

  /** A negative quoted rate passes the rate check: a filled form with valid
      amounts publishes a result computed against that rate. */
  lemma NegativeRatePublished(s: View, f: Form)
    requires AllFilled(f) && AmountsValid(f)
    ensures var v := Apply(s, Effects(f, Quoted(Num(-1.3))));
      v.error == "" && v.results.Some? && v.results.value.interbankRate == -1.3
  {
    SuccessPublishesResult(s, f, Quoted(Num(-1.3)));
  }

  /** Every run that switches loading on switches it off as its last step,
      and it does so exactly when the inputs pass both guards; a run that
      stops at a guard leaves loading as it found it. */
  lemma LoadingAlwaysReleased(s: View, f: Form, o: RateOutcome)
    ensures WriteLoading(true) in Effects(f, o) <==> AllFilled(f) && AmountsValid(f)
    ensures WriteLoading(true) in Effects(f, o) ==>
      Effects(f, o)[|Effects(f, o)| - 1] == WriteLoading(false) && !Apply(s, Effects(f, o)).loading
    ensures WriteLoading(true) !in Effects(f, o) ==>
      WriteLoading(false) !in Effects(f, o) && Apply(s, Effects(f, o)).loading == s.loading
  {
    EffectsMatchVerdict(s, f, o);
  }

  /** The rate is requested exactly when both guards pass, and before that
      the outcome of the request cannot make a difference. */
  lemma RateConsultedOnlyAfterGuards(f: Form, o1: RateOutcome, o2: RateOutcome)
    ensures RequestsRate(Effects(f, o1)) <==> AllFilled(f) && AmountsValid(f)
    ensures !(AllFilled(f) && AmountsValid(f)) ==> Effects(f, o1) == Effects(f, o2)
  {
    if AllFilled(f) && AmountsValid(f) {
      assert Effects(f, o1)[3].RequestRate?;
    }
  }

  /** Every run starts by clearing the error and the result, so what it
      leaves does not depend on the error or result of an earlier run. */
  lemma EarlierOutcomeForgotten(s1: View, s2: View, f: Form, o: RateOutcome)
    requires s1.loading == s2.loading
    ensures Apply(s1, Effects(f, o)) == Apply(s2, Effects(f, o))
  {
    EffectsMatchVerdict(s1, f, o);
    EffectsMatchVerdict(s2, f, o);
  }

  /** A run ends with exactly one of an error message and a result. */
  lemma ErrorOrResult(s: View, f: Form, o: RateOutcome)
    ensures (Apply(s, Effects(f, o)).error == "") <==> Apply(s, Effects(f, o)).results.Some?
  {
    EffectsMatchVerdict(s, f, o);
  }

  /** Running the handler again on the same inputs and the same rate outcome
      changes nothing. */
  lemma RerunIsIdempotent(s: View, f: Form, o: RateOutcome)
    ensures Apply(Apply(s, Effects(f, o)), Effects(f, o)) == Apply(s, Effects(f, o))
  {
    EffectsMatchVerdict(s, f, o);
    EffectsMatchVerdict(Apply(s, Effects(f, o)), f, o);
  }

  /** The page: the state the handler writes, and a ghost record of every
      write and rate request in the order they happen. */
  class Home {
    var error: string
    var results: Option<MarkupResult>
    var loading: bool
    ghost var log: seq<Effect>

    /** The page starts with no error, no result and not loading. */
    constructor ()
      ensures error == "" && results == None && !loading && log == []
    {
      error := "";
      results := None;
      loading := false;
      log := [];
    }

    function State(): View
      reads this
    {
      View(error, results, loading)
    }

    method SetError(msg: string)
      modifies this`error, this`log
      ensures error == msg && results == old(results) && loading == old(loading)
      ensures log == old(log) + [WriteError(msg)]
    {
      error := msg;
      log := log + [WriteError(msg)];
    }

    method SetResults(r: Option<MarkupResult>)
      modifies this`results, this`log
      ensures error == old(error) && results == r && loading == old(loading)
      ensures log == old(log) + [WriteResults(r)]
    {
      results := r;
      log := log + [WriteResults(r)];
    }

    method SetLoading(b: bool)
      modifies this`loading, this`log
      ensures error == old(error) && results == old(results) && loading == b
      ensures log == old(log) + [WriteLoading(b)]
    {
      loading := b;
      log := log + [WriteLoading(b)];
    }

    /** One click on "Calculate FX Markup", with the rate lookup's outcome
        given as an input. It performs exactly the effects Effects describes
        and leaves the state its verdict describes (which, by
        EffectsMatchVerdict, is the state those effects produce). */
    method CalculateMarkup(form: Form, outcome: RateOutcome)
      modifies this
      ensures log == old(log) + Effects(form, outcome)
      ensures State() == Settle(old(State()), Evaluate(form, outcome))
    {
      ghost var reset := [WriteError(""), WriteResults(None)];
      SetError("");
      SetResults(None);
      assert log == old(log) + reset;

      if !AllFilled(form) {
        SetError(FillAllFields);
        assert Effects(form, outcome) == reset + [WriteError(FillAllFields)];
        assert Evaluate(form, outcome) == MissingField;
        return;
      }

      var paidVal := form.paid.parsed;
      var receivedVal := form.received.parsed;
      if !ValidAmount(paidVal) || !ValidAmount(receivedVal) {
        SetError(InvalidAmounts);
        assert Effects(form, outcome) == reset + [WriteError(InvalidAmounts)];
        assert Evaluate(form, outcome) == InvalidAmount;
        return;
      }

      SetLoading(true);
      AwaitRate(form, outcome);
      assert Effects(form, outcome)
          == reset + [WriteLoading(true)] + ([RequestRate(form.fromCurrency, form.toCurrency)] + RateEffects(form, outcome));
    }

    /** The part of a click after both guards passed and loading was switched
        on: request the rate, then publish the result or an error, and switch
        loading off. */
    method AwaitRate(form: Form, outcome: RateOutcome)
      requires AllFilled(form) && AmountsValid(form)
      requires error == "" && results == None
      modifies this
      ensures log == old(log) + [RequestRate(form.fromCurrency, form.toCurrency)] + RateEffects(form, outcome)
      ensures State() == Settle(old(State()), Evaluate(form, outcome))
    {
      log := log + [RequestRate(form.fromCurrency, form.toCurrency)];
      if outcome.Threw? {
        SetError(SomethingWentWrong);
        assert Evaluate(form, outcome) == FetchFailed;
      } else {
        if !RateUsable(outcome) {
          SetError(RateNotFetched);
          SetLoading(false);
          assert RateEffects(form, outcome) == [WriteError(RateNotFetched), WriteLoading(false)];
          assert Evaluate(form, outcome) == RateUnavailable;
          return;
        }
        var interbankRate := outcome.rate.value;
        SetResults(Some(Compute(form.paid.parsed.value, form.received.parsed.value, interbankRate)));
        assert Evaluate(form, outcome) == Computed(results.value);
      }
      SetLoading(false);
    }
  }

  /** The form as the page first shows it: every field empty, and the first
      two offered codes (GBP and USD) selected. */
  function InitialForm(): (f: Form)
    ensures f.fromCurrency in Currencies && f.toCurrency in Currencies
    ensures !AllFilled(f)
  {
    var empty := AmountField("", NaN);
    Form(empty, empty, Currencies[0], Currencies[1], "", "", "")
  }

  /** A fresh page clicked with its initial, empty form reports the fill-in
      message and never requests a rate. */
  method ClickOnFreshPage(o: RateOutcome) returns (error: string, ghost requested: bool)
    ensures error == FillAllFields && !requested
  {
    var page := new Home();
    page.CalculateMarkup(InitialForm(), o);
    error := page.error;
    MissingFieldRejected(View("", None, false), InitialForm(), o);
    requested := RequestsRate(page.log);
  }
}
