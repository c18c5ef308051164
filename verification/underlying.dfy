/** The underlying-instrument record of `A_Underlying_V1/underlying_class.py`:
    its length and membership checks, the upper-casing of stored fields and
    the one-line summary. The market-data lookup that fills a missing
    description and the random identifier are oracles the caller supplies. */
module Underlyings {
  import opened Wrappers

  /** `type_list`: the accepted instrument types. */
  const TypeList: seq<string> := ["EQUITY", "BOND", "FUND", "ETF", "COMMODITY", "CURRENCY"]

  /** `ISIN_length`: an ISIN (ISO 6166) has exactly twelve characters. */
  const IsinLength: nat := 12

  /** `symbol_max_length`. */
  const SymbolMaxLength: nat := 10

  /** `exchange_dict`: ISO 10383 market identifier codes and the venue names. */
  const Exchanges: map<string, string> := map[
    "XNYS" := "New York Stock Exchange",
    "XNAS" := "Nasdaq US",
    "XSHG" := "Shanghai Stock Exchange",
    "XJPX" := "Japan Exchange Group",
    "XHKG" := "Hong Kong Stock Exchange",
    "XAMS" := "Euronext Amsterdam",
    "XBRU" := "Euronext Brussels",
    "XMSM" := "Euronext Dublin",
    "XLIS" := "Euronext Lisbon",
    "XMIL" := "Euronext Milan",
    "XOSL" := "Euronext Oslo",
    "XPAR" := "Euronext Paris"]

  predicate IsLower(c: char) {
    'a' <= c <= 'z'
  }

  /** `str.upper` on one character, for the ASCII letters. */
  function UpperChar(c: char): (u: char)
    ensures !IsLower(u)
    ensures IsLower(c) ==> u as int == c as int - 32
    ensures !IsLower(c) ==> u == c
  {
    if IsLower(c) then (c as int - 32) as char else c
  }

  /** `str.upper`, for the ASCII letters. */
  function Upper(s: string): (u: string)
    ensures |u| == |s|
    ensures forall i :: 0 <= i < |s| ==> u[i] == UpperChar(s[i])
  {
    seq(|s|, i requires 0 <= i < |s| => UpperChar(s[i]))
  }

  predicate HasNoLower(s: string) {
    forall i :: 0 <= i < |s| ==> !IsLower(s[i])
  }

  /** Upper-casing leaves a string unchanged exactly when it has no
      lower-case letter, and its result never has one; so it is idempotent. */
  lemma UpperFixedPoints(s: string)
    ensures Upper(s) == s <==> HasNoLower(s)
    ensures HasNoLower(Upper(s))
    ensures Upper(Upper(s)) == Upper(s)
  {
    if Upper(s) == s {
      forall i | 0 <= i < |s|
        ensures !IsLower(s[i])
      {
        assert s[i] == Upper(s)[i];
      }
    }
  }

  /** Every accepted type and exchange code is already upper case. */
  lemma TablesAreUpperCase()
    ensures forall t :: t in TypeList ==> HasNoLower(t)
    ensures forall x :: x in Exchanges ==> HasNoLower(x)
  {
  }

  datatype Underlying = Underlying(
    name: string,
    symbol: string,
    exchange: string,
    isin: string,
    instrumentType: string,
    description: string,
    id: string)

  /** `Underlying.__init__`: symbol length, ISIN length, type, then
      exchange; the first failing check raises. The membership checks run on
      the raw inputs, so they are case-sensitive. A missing description is
      looked up by the upper-cased ISIN, a missing id is freshly generated. */
  function NewUnderlying(name: string, symbol: string, exchange: string, isin: string, instrumentType: string,
                         description: Option<string>, id: Option<string>,
                         summaryOf: string -> string, freshId: string)
    : (r: Result<Underlying>)
    ensures |symbol| > SymbolMaxLength ==> r == Err(ValueError(SymbolTooLong))
    ensures |symbol| <= SymbolMaxLength && |isin| != IsinLength ==> r == Err(ValueError(WrongIsinLength))
    ensures |symbol| <= SymbolMaxLength && |isin| == IsinLength && instrumentType !in TypeList ==>
      r == Err(ValueError(UnknownInstrumentType))
    ensures |symbol| <= SymbolMaxLength && |isin| == IsinLength && instrumentType in TypeList
            && exchange !in Exchanges ==>
      r == Err(ValueError(UnknownExchange))
    ensures r.Ok? <==>
      |symbol| <= SymbolMaxLength && |isin| == IsinLength && instrumentType in TypeList && exchange in Exchanges
    ensures r.Ok? ==>
      && r.value.name == Upper(name)
      && r.value.symbol == Upper(symbol)
      && r.value.isin == Upper(isin)
      && r.value.instrumentType == instrumentType
      && r.value.exchange == exchange
      && r.value.description == (if description.Some? then description.value else summaryOf(Upper(isin)))
      && r.value.id == (if id.Some? then id.value else freshId)
      && |r.value.symbol| <= SymbolMaxLength
      && |r.value.isin| == IsinLength
  {
    if |symbol| > SymbolMaxLength then Err(ValueError(SymbolTooLong))
    else if |isin| != IsinLength then Err(ValueError(WrongIsinLength))
    else if instrumentType !in TypeList then Err(ValueError(UnknownInstrumentType))
    else if exchange !in Exchanges then Err(ValueError(UnknownExchange))
    else
      TablesAreUpperCase();
      UpperFixedPoints(instrumentType);
      UpperFixedPoints(exchange);
      var upperIsin := Upper(isin);
      Ok(Underlying(
        Upper(name), Upper(symbol), Upper(exchange), upperIsin, Upper(instrumentType),
        if description.Some? then description.value else summaryOf(upperIsin),
        if id.Some? then id.value else freshId))
  }

  /** `get_info`: `"{name} ({symbol}) listed on {exchange} in the {type}
      market with ISIN {isin}."`. The summary is 41 characters longer than
      its fields, opens with the name and closes with the ISIN and a full
      stop, so the ISIN can be read back from it. */
  function GetInfo(u: Underlying): (info: string)
    ensures |info| == |u.name| + |u.symbol| + |u.exchange| + |u.instrumentType| + |u.isin| + 41
    ensures info[..|u.name|] == u.name
    ensures info[|info| - 1 - |u.isin| .. |info| - 1] == u.isin
    ensures info[|info| - 1] == '.'
  {
    var head := u.name + " (" + u.symbol + ") listed on " + u.exchange + " in the " + u.instrumentType
      + " market with ISIN ";
    var info := head + u.isin + ".";
    assert info == u.name + info[|u.name|..];
    assert info[|head| .. |head| + |u.isin|] == u.isin;
    info
  }

  /** Reading the ISIN back from the summary of a built instrument. */
  lemma InfoEndsWithIsin(name: string, symbol: string, exchange: string, isin: string, instrumentType: string,
                         description: Option<string>, id: Option<string>,
                         summaryOf: string -> string, freshId: string)
    requires NewUnderlying(name, symbol, exchange, isin, instrumentType, description, id, summaryOf, freshId).Ok?
    ensures var info := GetInfo(NewUnderlying(name, symbol, exchange, isin, instrumentType,
                                              description, id, summaryOf, freshId).value);
      info[|info| - 1 - IsinLength .. |info| - 1] == Upper(isin)
  {
  }
}
