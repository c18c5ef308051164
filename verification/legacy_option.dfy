/** The earlier option descriptors of `Vanilla_V1/Option.py`. Unlike the
    later version, these check the option type and the strike method
    against fixed lists; the call and put add the basket and the rebate. */
module LegacyOptions {
  import opened Wrappers
  import Underlyings
  import Vanilla

  const OptionTypes: seq<string> := ["EU", "US"]
  const StrikeMethods: seq<string> := ["absolute", "relative"]

  datatype Terms = Terms(
    start: int,
    end: int,
    maturityDays: int,
    strike: real,
    strikeMethod: string,
    optionType: string)

  datatype Side = Call | Put

  datatype LegacyOption = LegacyOption(
    terms: Terms,
    side: Side,
    basketMethod: string,
    underlyings: seq<Underlyings.Underlying>,
    rebate: real)

  /** `Option.__init__`: option type, dates, strike, then strike method; the
      first failing check raises. */
  function NewTerms(start: int, end: int, optionType: string, strike: real, strikeMethod: string,
                    round5: real -> real)
    : (r: Result<Terms>)
    ensures optionType !in OptionTypes ==> r == Err(ValueError(UnknownOptionType))
    ensures optionType in OptionTypes && start >= end ==> r == Err(ValueError(StartNotBeforeEnd))
    ensures optionType in OptionTypes && start < end && strike <= 0.0 ==> r == Err(ValueError(NonPositiveStrike))
    ensures optionType in OptionTypes && start < end && strike > 0.0 && strikeMethod !in StrikeMethods ==>
      r == Err(ValueError(UnknownStrikeMethod))
    ensures r.Ok? <==>
      optionType in OptionTypes && start < end && strike > 0.0 && strikeMethod in StrikeMethods
    ensures r.Ok? ==>
      && r.value.start == start && r.value.end == end
      && r.value.maturityDays == end - start > 0
      && r.value.strike == round5(strike)
      && r.value.strikeMethod == strikeMethod
      && r.value.optionType == optionType
  {
    if optionType !in OptionTypes then Err(ValueError(UnknownOptionType))
    else if start >= end then Err(ValueError(StartNotBeforeEnd))
    else if strike <= 0.0 then Err(ValueError(NonPositiveStrike))
    else if strikeMethod !in StrikeMethods then Err(ValueError(UnknownStrikeMethod))
    else Ok(Terms(start, end, end - start, round5(strike), strikeMethod, optionType))
  }

  /** The earlier version accepts exactly what the later one accepts, with
      the option type and strike method restricted to their lists; where
      both accept they store the same dates, maturity, strike and type. */
  lemma RefinesLaterTerms(start: int, end: int, optionType: string, strike: real, strikeMethod: string,
                          underlyings: seq<Underlyings.Underlying>, basketMethod: string, round5: real -> real)
    ensures var earlier := NewTerms(start, end, optionType, strike, strikeMethod, round5);
      var later := Vanilla.NewTerms(start, end, optionType, strike, strikeMethod, underlyings, basketMethod, round5);
      && (earlier.Ok? <==> later.Ok? && optionType in OptionTypes && strikeMethod in StrikeMethods)
      && (earlier.Ok? ==>
            && earlier.value.start == later.value.start && earlier.value.end == later.value.end
            && earlier.value.maturityDays == later.value.maturityDays
            && earlier.value.strike == later.value.strike
            && earlier.value.optionType == later.value.optionType
            && earlier.value.strikeMethod == later.value.valueMethod)
  {
  }

  /** `Option_Call.__init__` and `Option_Put.__init__`: the shared terms,
      then the basket method and underlyings unchanged and the rebate,
      defaulting to 0. */
  function NewLegacyOption(side: Side, start: int, end: int, optionType: string, strike: real, strikeMethod: string,
                           underlyings: seq<Underlyings.Underlying>, basketMethod: string, round5: real -> real,
                           rebate: Option<real>)
    : (r: Result<LegacyOption>)
    ensures r.Err? <==> NewTerms(start, end, optionType, strike, strikeMethod, round5).Err?
    ensures r.Err? ==> r.error == NewTerms(start, end, optionType, strike, strikeMethod, round5).error
    ensures r.Ok? ==>
      && Ok(r.value.terms) == NewTerms(start, end, optionType, strike, strikeMethod, round5)
      && r.value.side == side
      && r.value.basketMethod == basketMethod
      && r.value.underlyings == underlyings
      && r.value.rebate == (if rebate.Some? then rebate.value else 0.0)
  {
    var terms :- NewTerms(start, end, optionType, strike, strikeMethod, round5);
    Ok(LegacyOption(terms, side, basketMethod, underlyings, if rebate.Some? then rebate.value else 0.0))
  }

  /** A call and a put built from the same arguments differ only in their
      side. */
  lemma CallPutSymmetric(start: int, end: int, optionType: string, strike: real, strikeMethod: string,
                         underlyings: seq<Underlyings.Underlying>, basketMethod: string, round5: real -> real,
                         rebate: Option<real>)
    ensures var c := NewLegacyOption(Call, start, end, optionType, strike, strikeMethod, underlyings, basketMethod, round5, rebate);
      var p := NewLegacyOption(Put, start, end, optionType, strike, strikeMethod, underlyings, basketMethod, round5, rebate);
      && c.Ok? == p.Ok?
      && (c.Err? ==> c == p)
      && (c.Ok? ==> p.value == c.value.(side := Put))
  {
  }
}
