/**
 * A Bloomberg contract identifier: a contract code (the ticker prefix) and a
 * market sector (the yellow key), from which future and option tickers for a
 * given month and year are built.
 */
module BloombergContract {
  import opened Common

  /** The scheme of Bloomberg ticker identifiers. */
  const BLOOMBERG_TICKER: string := "BLOOMBERG_TICKER"

  datatype ExternalId = ExternalId(scheme: string, value: string)

  datatype OptionType = PUT | CALL

  /** The enum constant's name. */
  function OptionTypeName(optionType: OptionType): (name: string)
    ensures |name| > 0
  {
    match optionType
    case PUT => "PUT"
    case CALL => "CALL"
  }

  // ---------------------------------------------------------------------------
  // Text helpers

  function DigitChar(d: nat): char
    requires d < 10
  {
    (48 + d) as char
  }

  /** The decimal digits of a natural number, most significant first. */
  function DecimalDigits(n: nat): (s: string)
    ensures |s| > 0
    decreases n
  {
    if n < 10 then [DigitChar(n)] else DecimalDigits(n / 10) + [DigitChar(n % 10)]
  }

  /** Java's decimal rendering of an integer. */
  function DecimalString(n: int): (s: string)
    ensures |s| > 0
  {
    if n < 0 then "-" + DecimalDigits(-n) else DecimalDigits(n)
  }

  function Abs(n: int): nat {
    if n < 0 then -n else n
  }

  /** The year as written into a ticker: the last character of its decimal string. */
  function YearCode(year: int): (code: string)
    ensures code == [DigitChar(Abs(year) % 10)]
  {
    var yearStr := DecimalString(year);
    if |yearStr| > 1 then [yearStr[|yearStr| - 1]] else yearStr
  }

  function UpperChar(c: char): char {
    if 'a' <= c <= 'z' then (c as int - 32) as char else c
  }

  /** Upper-casing, letter by letter. */
  function ToUpper(s: string): (r: string)
    ensures |r| == |s|
    ensures forall i :: 0 <= i < |s| ==> r[i] == UpperChar(s[i])
  {
    seq(|s|, i requires 0 <= i < |s| => UpperChar(s[i]))
  }

  predicate NoLowerCase(s: string) {
    forall i :: 0 <= i < |s| ==> !('a' <= s[i] <= 'z')
  }

  lemma ToUpperAppend(a: string, b: string)
    ensures ToUpper(a + b) == ToUpper(a) + ToUpper(b)
  {
  }

  /** An upper-cased string has no lower-case letter left, so upper-casing it again changes nothing. */
  lemma ToUpperNormalises(s: string)
    ensures NoLowerCase(ToUpper(s))
    ensures ToUpper(ToUpper(s)) == ToUpper(s)
  {
  }

  // ---------------------------------------------------------------------------
  // Tickers

  /**
   * A future ticker: contract code, month code and year code run together,
   * a space, then the market sector, all upper-cased; a null code or sector
   * is written as "null".
   */
  function FutureTicker(contractCode: Option<string>, monthCode: string, yearCode: string,
                        marketSector: Option<string>): (ticker: string)
    ensures ticker == ToUpper(Show(contractCode)) + ToUpper(monthCode) + ToUpper(yearCode) + " "
                      + ToUpper(Show(marketSector))
    ensures NoLowerCase(ticker)
  {
    ToUpperNormalises(Show(contractCode) + monthCode + yearCode + " " + Show(marketSector));
    ToUpper(Show(contractCode) + monthCode + yearCode + " " + Show(marketSector))
  }

  /**
   * An option ticker: contract code, month code, year code and the initial
   * of the option type run together, a space, the rounded strike, a space,
   * then the market sector, all upper-cased.
   */
  function OptionTicker(contractCode: Option<string>, monthCode: string, yearCode: string,
                        optionType: OptionType, roundedStrike: string, marketSector: Option<string>): (ticker: string)
    ensures ticker == ToUpper(Show(contractCode)) + ToUpper(monthCode) + ToUpper(yearCode)
                      + [if optionType == PUT then 'P' else 'C'] + " " + ToUpper(roundedStrike) + " "
                      + ToUpper(Show(marketSector))
    ensures NoLowerCase(ticker)
  {
    var head := Show(contractCode) + monthCode + yearCode + [OptionTypeName(optionType)[0]];
    var ticker := head + " " + roundedStrike + " " + Show(marketSector);
    ToUpperAppend(Show(contractCode) + monthCode + yearCode, [OptionTypeName(optionType)[0]]);
    ToUpperAppend(Show(contractCode) + monthCode, yearCode);
    ToUpperAppend(Show(contractCode), monthCode);
    ToUpperAppend(head + " " + roundedStrike + " ", Show(marketSector));
    ToUpperAppend(head + " " + roundedStrike, " ");
    ToUpperAppend(head + " ", roundedStrike);
    ToUpperAppend(head, " ");
    ToUpperNormalises(ticker);
    ToUpper(ticker)
  }

  /**
   * The future ticker is the upper-cased contract code, month code and last
   * year digit, a space, and the upper-cased market sector.
   */
  lemma FutureTickerShape(contractCode: Option<string>, monthCode: string, year: int, marketSector: Option<string>)
    ensures FutureTicker(contractCode, monthCode, YearCode(year), marketSector)
         == ToUpper(Show(contractCode)) + ToUpper(monthCode) + [DigitChar(Abs(year) % 10)] + " "
            + ToUpper(Show(marketSector))
    ensures NoLowerCase(FutureTicker(contractCode, monthCode, YearCode(year), marketSector))
  {
  }

  /**
   * The option ticker is the upper-cased contract code, month code, last year
   * digit and option-type initial, a space, the rounded strike, a space, and
   * the market sector, all upper-cased.
   */
  lemma OptionTickerShape(contractCode: Option<string>, monthCode: string, year: int, optionType: OptionType,
                          roundedStrike: string, marketSector: Option<string>)
    ensures OptionTicker(contractCode, monthCode, YearCode(year), optionType, roundedStrike, marketSector)
         == ToUpper(Show(contractCode)) + ToUpper(monthCode) + [DigitChar(Abs(year) % 10)]
            + [if optionType == PUT then 'P' else 'C'] + " " + ToUpper(roundedStrike) + " "
            + ToUpper(Show(marketSector))
  {
  }

  class BloombergContractID {
    var contractCode: Option<string>
    var marketSector: Option<string>

    constructor ()
      ensures contractCode == None && marketSector == None
    {
      contractCode := None;
      marketSector := None;
    }

    constructor WithCodes(contractCode: string, marketSector: string)
      ensures this.contractCode == Some(contractCode) && this.marketSector == Some(marketSector)
    {
      this.contractCode := Some(contractCode);
      this.marketSector := Some(marketSector);
    }

    /** The two-argument constructor: both arguments are required. */
    static method Create(contractCode: Option<string>, marketSector: Option<string>)
      returns (r: Result<BloombergContractID>)
      ensures r.Success? <==> contractCode.Some? && marketSector.Some?
      ensures contractCode.None? ==> r == Failure(NullArgument("contractCode"))
      ensures contractCode.Some? && marketSector.None? ==> r == Failure(NullArgument("marketSector"))
      ensures r.Success? ==>
        fresh(r.value) && r.value.contractCode == contractCode && r.value.marketSector == marketSector
    {
      if contractCode.None? {
        return Failure(NullArgument("contractCode"));
      }
      if marketSector.None? {
        return Failure(NullArgument("marketSector"));
      }
      var id := new BloombergContractID.WithCodes(contractCode.value, marketSector.value);
      r := Success(id);
    }

    method SetContractCode(contractCode: Option<string>)
      modifies this
      ensures this.contractCode == contractCode && marketSector == old(marketSector)
    {
      this.contractCode := contractCode;
    }

    method SetMarketSector(marketSector: Option<string>)
      modifies this
      ensures this.marketSector == marketSector && contractCode == old(contractCode)
    {
      this.marketSector := marketSector;
    }

    /**
     * The future's ticker identifier for a month (1 to 12) and a year, or
     * none when the month has no future month code. `futureMonthCode` is the
     * month-code table.
     */
    function ToFutureExternalId(futureMonthCode: int -> Option<string>, month: Option<Int32>, year: Option<Int32>)
      : (r: Result<Option<ExternalId>>)
      reads this
      ensures month.None? ==> r == Failure(NullArgument("month"))
      ensures month.Some? && year.None? ==> r == Failure(NullArgument("year"))
      ensures month.Some? && year.Some? && !(1 <= month.value <= 12) ==> r.Failure? && r.error.DateTime?
      ensures month.Some? && year.Some? && 1 <= month.value <= 12 ==>
        match futureMonthCode(month.value)
        case None => r == Success(None)
        case Some(code) =>
          r == Success(Some(ExternalId(BLOOMBERG_TICKER,
            ToUpper(Show(contractCode)) + ToUpper(code) + [DigitChar(Abs(year.value) % 10)] + " "
            + ToUpper(Show(marketSector)))))
    {
      if month.None? then Failure(NullArgument("month"))
      else if year.None? then Failure(NullArgument("year"))
      else if !(1 <= month.value <= 12) then Failure(DateTime("Invalid value for MonthOfYear"))
      else
        match futureMonthCode(month.value)
        case None => Success(None)
        case Some(code) =>
          FutureTickerShape(contractCode, code, year.value, marketSector);
          Success(Some(ExternalId(BLOOMBERG_TICKER, FutureTicker(contractCode, code, YearCode(year.value), marketSector))))
    }

    /**
     * The option's ticker identifier, or none when the month has no future
     * month code. `roundedPrice` renders the strike rounded half-up to three
     * decimals.
     */
    function ToOptionExternalId(futureMonthCode: int -> Option<string>, roundedPrice: real -> string,
                                month: Option<Int32>, year: Option<Int32>, strike: Option<real>,
                                optionType: Option<OptionType>)
      : (r: Result<Option<ExternalId>>)
      reads this
      ensures month.None? ==> r == Failure(NullArgument("month"))
      ensures month.Some? && year.None? ==> r == Failure(NullArgument("year"))
      ensures month.Some? && year.Some? && strike.None? ==> r == Failure(NullArgument("strike"))
      ensures month.Some? && year.Some? && strike.Some? && optionType.None? ==>
        r == Failure(NullArgument("optionType"))
      ensures month.Some? && year.Some? && strike.Some? && optionType.Some? && !(1 <= month.value <= 12) ==>
        r.Failure? && r.error.DateTime?
      ensures month.Some? && year.Some? && strike.Some? && optionType.Some? && 1 <= month.value <= 12 ==>
        match futureMonthCode(month.value)
        case None => r == Success(None)
        case Some(code) =>
          r == Success(Some(ExternalId(BLOOMBERG_TICKER,
            ToUpper(Show(contractCode)) + ToUpper(code) + [DigitChar(Abs(year.value) % 10)]
            + [if optionType.value == PUT then 'P' else 'C'] + " " + ToUpper(roundedPrice(strike.value)) + " "
            + ToUpper(Show(marketSector)))))
    {
      if month.None? then Failure(NullArgument("month"))
      else if year.None? then Failure(NullArgument("year"))
      else if strike.None? then Failure(NullArgument("strike"))
      else if optionType.None? then Failure(NullArgument("optionType"))
      else if !(1 <= month.value <= 12) then Failure(DateTime("Invalid value for MonthOfYear"))
      else
        match futureMonthCode(month.value)
        case None => Success(None)
        case Some(code) =>
          OptionTickerShape(contractCode, code, year.value, optionType.value, roundedPrice(strike.value), marketSector);
          Success(Some(ExternalId(BLOOMBERG_TICKER,
            OptionTicker(contractCode, code, YearCode(year.value), optionType.value, roundedPrice(strike.value),
                         marketSector))))
    }

    /** Equal to another contract id exactly when both fields are equal. */
    function Equals(other: BloombergContractID?): (r: bool)
      reads this, other
      ensures r <==> other != null && contractCode == other.contractCode && marketSector == other.marketSector
    {
      if other == this then true
      else other != null && contractCode == other.contractCode && marketSector == other.marketSector
    }
  }

  /** Contract-id equality is symmetric and transitive. */
  lemma EqualsIsEquivalence(a: BloombergContractID, b: BloombergContractID, c: BloombergContractID)
    ensures a.Equals(a)
    ensures a.Equals(b) ==> b.Equals(a)
    ensures a.Equals(b) && b.Equals(c) ==> a.Equals(c)
  {
  }
}
