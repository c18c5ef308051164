/** The option descriptors of `C_Vanilla_V1/Option.py`: the shared terms
    every option validates (dates, then strike) and the product families
    built on them. Dates are day numbers; `round(., 5)` is the caller's
    `round5`. The option type, strike method and basket method are stored
    as given: this version does not check them. */
module Vanilla {
  import opened Wrappers
  import Underlyings

  /** `rounding_precision`: the decimals `round5` keeps. This mirrors the
      source value only: rounding is the `round5` parameter, so no member
      reads it. */
  const RoundingPrecision: nat := 5

  datatype Terms = Terms(
    start: int,
    end: int,
    maturityDays: int,
    strike: real,
    valueMethod: string,
    optionType: string,
    underlyings: seq<Underlyings.Underlying>,
    basketMethod: string)

  /** What each class adds to the shared terms. */
  datatype Product =
    | PlainOption
    | CallOption(rebate: real, levier: real)
    | PutOption(rebate: real, levier: real)
    | DigitalOption(payout: real, rebate: real)
    | DigitalCall(payout: real, rebate: real)
    | DigitalPut(payout: real, rebate: real)

  datatype OptionContract = OptionContract(terms: Terms, product: Product)

  /** `Option.__init__`: the start must come strictly before the end, then
      the strike must be positive; the strike is rounded only after it has
      passed the check. */
  function NewTerms(start: int, end: int, optionType: string, strike: real, valueMethod: string,
                    underlyings: seq<Underlyings.Underlying>, basketMethod: string, round5: real -> real)
    : (r: Result<Terms>)
    ensures start >= end ==> r == Err(ValueError(StartNotBeforeEnd))
    ensures start < end && strike <= 0.0 ==> r == Err(ValueError(NonPositiveStrike))
    ensures r.Ok? <==> start < end && strike > 0.0
    ensures r.Ok? ==>
      && r.value.start == start && r.value.end == end
      && r.value.maturityDays == end - start > 0
      && r.value.strike == round5(strike)
      && r.value.valueMethod == valueMethod
      && r.value.optionType == optionType
      && r.value.underlyings == underlyings
      && r.value.basketMethod == basketMethod
  {
    if start >= end then Err(ValueError(StartNotBeforeEnd))
    else if strike <= 0.0 then Err(ValueError(NonPositiveStrike))
    else Ok(Terms(start, end, end - start, round5(strike), valueMethod, optionType, underlyings, basketMethod))
  }

  /** The validation looks at the strike before rounding: whether an option
      is accepted does not depend on the rounding, so a positive strike that
      rounds to zero is accepted and a non-positive one is refused whatever
      it rounds to. */
  lemma StrikeCheckedBeforeRounding(start: int, end: int, optionType: string, strike: real, valueMethod: string,
                                    underlyings: seq<Underlyings.Underlying>, basketMethod: string,
                                    roundA: real -> real, roundB: real -> real)
    ensures NewTerms(start, end, optionType, strike, valueMethod, underlyings, basketMethod, roundA).Ok?
        == NewTerms(start, end, optionType, strike, valueMethod, underlyings, basketMethod, roundB).Ok?
    ensures start < end && strike > 0.0 && roundA(strike) == 0.0 ==>
      NewTerms(start, end, optionType, strike, valueMethod, underlyings, basketMethod, roundA).value.strike == 0.0
  {
  }

  /** `Option(...)` itself. */
  function NewOption(start: int, end: int, optionType: string, strike: real, valueMethod: string,
                     underlyings: seq<Underlyings.Underlying>, basketMethod: string, round5: real -> real)
    : (r: Result<OptionContract>)
    ensures r.Ok? <==> start < end && strike > 0.0
    ensures r.Err? ==> r.error == NewTerms(start, end, optionType, strike, valueMethod, underlyings, basketMethod, round5).error
    ensures r.Ok? ==>
      && Ok(r.value.terms) == NewTerms(start, end, optionType, strike, valueMethod, underlyings, basketMethod, round5)
      && r.value.product == PlainOption
  {
    var terms :- NewTerms(start, end, optionType, strike, valueMethod, underlyings, basketMethod, round5);
    Ok(OptionContract(terms, PlainOption))
  }

  /** `Option_Call.__init__`: the shared terms, then the rebate (default 0)
      and leverage (default 1) as given. */
  function NewCall(start: int, end: int, optionType: string, strike: real, valueMethod: string,
                   underlyings: seq<Underlyings.Underlying>, basketMethod: string, round5: real -> real,
                   rebate: Option<real>, levier: Option<real>)
    : (r: Result<OptionContract>)
    ensures r.Ok? <==> start < end && strike > 0.0
    ensures r.Err? ==> r.error == NewTerms(start, end, optionType, strike, valueMethod, underlyings, basketMethod, round5).error
    ensures r.Ok? ==>
      && Ok(r.value.terms) == NewTerms(start, end, optionType, strike, valueMethod, underlyings, basketMethod, round5)
      && r.value.product.CallOption?
      && r.value.product.rebate == (if rebate.Some? then rebate.value else 0.0)
      && r.value.product.levier == (if levier.Some? then levier.value else 1.0)
  {
    var terms :- NewTerms(start, end, optionType, strike, valueMethod, underlyings, basketMethod, round5);
    Ok(OptionContract(terms, CallOption(
      if rebate.Some? then rebate.value else 0.0,
      if levier.Some? then levier.value else 1.0)))
  }

  /** `Option_Put.__init__`: as the call, with the same defaults. */
  function NewPut(start: int, end: int, optionType: string, strike: real, valueMethod: string,
                  underlyings: seq<Underlyings.Underlying>, basketMethod: string, round5: real -> real,
                  rebate: Option<real>, levier: Option<real>)
    : (r: Result<OptionContract>)
    ensures r.Ok? <==> start < end && strike > 0.0
    ensures r.Err? ==> r.error == NewTerms(start, end, optionType, strike, valueMethod, underlyings, basketMethod, round5).error
    ensures r.Ok? ==>
      && Ok(r.value.terms) == NewTerms(start, end, optionType, strike, valueMethod, underlyings, basketMethod, round5)
      && r.value.product.PutOption?
      && r.value.product.rebate == (if rebate.Some? then rebate.value else 0.0)
      && r.value.product.levier == (if levier.Some? then levier.value else 1.0)
  {
    var terms :- NewTerms(start, end, optionType, strike, valueMethod, underlyings, basketMethod, round5);
    Ok(OptionContract(terms, PutOption(
      if rebate.Some? then rebate.value else 0.0,
      if levier.Some? then levier.value else 1.0)))
  }

  /** `Digital_Option.__init__`: the shared terms, then the payout and the
      rebate, both defaulting to 0. */
  function NewDigital(start: int, end: int, optionType: string, strike: real, valueMethod: string,
                      underlyings: seq<Underlyings.Underlying>, basketMethod: string, round5: real -> real,
                      payout: Option<real>, rebate: Option<real>)
    : (r: Result<OptionContract>)
    ensures r.Ok? <==> start < end && strike > 0.0
    ensures r.Err? ==> r.error == NewTerms(start, end, optionType, strike, valueMethod, underlyings, basketMethod, round5).error
    ensures r.Ok? ==>
      && Ok(r.value.terms) == NewTerms(start, end, optionType, strike, valueMethod, underlyings, basketMethod, round5)
      && r.value.product.DigitalOption?
      && r.value.product.payout == (if payout.Some? then payout.value else 0.0)
      && r.value.product.rebate == (if rebate.Some? then rebate.value else 0.0)
  {
    var terms :- NewTerms(start, end, optionType, strike, valueMethod, underlyings, basketMethod, round5);
    Ok(OptionContract(terms, DigitalOption(
      if payout.Some? then payout.value else 0.0,
      if rebate.Some? then rebate.value else 0.0)))
  }

  /** Re-labels a digital option as its call or put subclass. */
  function AsSide(o: OptionContract, call: bool): OptionContract
    requires o.product.DigitalOption?
  {
    var p := o.product;
    OptionContract(o.terms, if call then DigitalCall(p.payout, p.rebate) else DigitalPut(p.payout, p.rebate))
  }

  /** `Digital_Call.__init__`: forwards every argument, defaults included,
      to `Digital_Option`. */
  function NewDigitalCall(start: int, end: int, optionType: string, strike: real, valueMethod: string,
                          underlyings: seq<Underlyings.Underlying>, basketMethod: string, round5: real -> real,
                          payout: Option<real>, rebate: Option<real>)
    : (r: Result<OptionContract>)
    ensures r.Ok? <==> start < end && strike > 0.0
    ensures r.Ok? ==> r.value.product.DigitalCall?
  {
    var o :- NewDigital(start, end, optionType, strike, valueMethod, underlyings, basketMethod, round5, payout, rebate);
    Ok(AsSide(o, true))
  }

  /** `Digital_Put.__init__`: forwards every argument to `Digital_Option`. */
  function NewDigitalPut(start: int, end: int, optionType: string, strike: real, valueMethod: string,
                         underlyings: seq<Underlyings.Underlying>, basketMethod: string, round5: real -> real,
                         payout: Option<real>, rebate: Option<real>)
    : (r: Result<OptionContract>)
    ensures r.Ok? <==> start < end && strike > 0.0
    ensures r.Ok? ==> r.value.product.DigitalPut?
  {
    var o :- NewDigital(start, end, optionType, strike, valueMethod, underlyings, basketMethod, round5, payout, rebate);
    Ok(AsSide(o, false))
  }

  /** The digital call and put carry exactly the terms, payout and rebate
      of the `Digital_Option` built from the same arguments, and fail with
      its error. */
  lemma DigitalSidesForward(start: int, end: int, optionType: string, strike: real, valueMethod: string,
                            underlyings: seq<Underlyings.Underlying>, basketMethod: string, round5: real -> real,
                            payout: Option<real>, rebate: Option<real>)
    ensures var d := NewDigital(start, end, optionType, strike, valueMethod, underlyings, basketMethod, round5, payout, rebate);
      var c := NewDigitalCall(start, end, optionType, strike, valueMethod, underlyings, basketMethod, round5, payout, rebate);
      var p := NewDigitalPut(start, end, optionType, strike, valueMethod, underlyings, basketMethod, round5, payout, rebate);
      && (d.Err? ==> c == Err(d.error) && p == Err(d.error))
      && (d.Ok? ==>
            && c.Ok? && p.Ok?
            && c.value.terms == d.value.terms && p.value.terms == d.value.terms
            && c.value.product.payout == d.value.product.payout == p.value.product.payout
            && c.value.product.rebate == d.value.product.rebate == p.value.product.rebate)
  {
  }

  /** Every product family accepts exactly the same inputs and agrees on
      the shared terms. */
  lemma FamiliesShareValidation(start: int, end: int, optionType: string, strike: real, valueMethod: string,
                                underlyings: seq<Underlyings.Underlying>, basketMethod: string, round5: real -> real,
                                x: Option<real>, y: Option<real>)
    ensures var o := NewOption(start, end, optionType, strike, valueMethod, underlyings, basketMethod, round5);
      var c := NewCall(start, end, optionType, strike, valueMethod, underlyings, basketMethod, round5, x, y);
      var p := NewPut(start, end, optionType, strike, valueMethod, underlyings, basketMethod, round5, x, y);
      var d := NewDigital(start, end, optionType, strike, valueMethod, underlyings, basketMethod, round5, x, y);
      && o.Ok? == c.Ok? == p.Ok? == d.Ok?
      && (o.Ok? ==> o.value.terms == c.value.terms == p.value.terms == d.value.terms)
      && (o.Err? ==> o == Err(c.error) == Err(p.error) == Err(d.error))
  {
  }
}
