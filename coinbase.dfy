/** The Coinbase row handlers: `parse_coinbase_v1` to `parse_coinbase_v4`, which read the fiat
    columns of their schema and hand over to `_do_parse_coinbase`, and the handlers of the
    older "Transfers" and "Transactions" reports.

    A handler's effect on its data row is returned as a value: the timestamp it assigns, the
    transaction-destination position it records, the warning it writes, and the record it
    builds or the exception it raises. Evaluation follows Python's order, so when several
    cells are at fault the error is the one Python meets first. */
module Coinbase {
  import opened Wrappers
  import opened Text
  import opened Decimals
  import opened Records
  import opened Headers
  import opened Notes
  import opened Rows

  /** `config.ccy` and `config.coinbase_zero_fees_are_gifts`. */
  datatype Config = Config(ccy: string, coinbaseZeroFeesAreGifts: bool)

  /** `DataParser.parse_timestamp` and `DataParser.convert_currency(value, from_currency,
      timestamp)`, which are outside this model; `None` from the first stands for its raising. */
  datatype Env = Env(
    parseTimestamp: string -> Option<Timestamp>,
    convertCurrency: (string, string, Timestamp) -> Option<Decimal>)

  /** What a handler reads from the parser: `in_header`, the header captures `args` and
      `in_header_row_num`. */
  datatype Parser = Parser(inHeader: seq<string>, args: seq<string>, inHeaderRowNum: Option<int>)

  /** What a handler reads from the data row: its cells, `row_dict` and `line_num`. */
  datatype Row = Row(cells: seq<string>, dict: map<string, string>, lineNum: int)

  /** The row of a file with header `header`. */
  function MakeRow(header: seq<string>, cells: seq<string>, lineNum: int): Row {
    Row(cells, RowDict(header, cells), lineNum)
  }

  /** The warning that the quote currency's amounts are not available, with the file row it
      names. */
  datatype Warning = QuoteMismatch(rowNum: int, quote: string, currency: string)

  /** What `_do_parse_coinbase` leaves behind: the `tx_raw` destination position, the warning
      and the record or the exception. */
  datatype Outcome = Outcome(txDestPos: Option<nat>, warning: Option<Warning>,
                             result: Result<Record, ParseError>)

  /** What a handler leaves behind, with the timestamp it assigned before anything else. */
  datatype Effects = Effects(timestamp: Option<Timestamp>, txDestPos: Option<nat>,
                             warning: Option<Warning>, result: Result<Record, ParseError>)

  /** The fiat values a schema version hands to `_do_parse_coinbase`: spot price, subtotal,
      total and fees, converted, and the file's currency. */
  datatype FiatValues = FiatValues(spotPrice: Option<Decimal>, subtotal: Option<Decimal>,
                                   total: Option<Decimal>, fees: Option<Decimal>, currency: string)

  const QuantityColumn: string := "Quantity Transacted"

  const ProDepositTypes: set<string> := {"Exchange Deposit", "Pro Deposit"}
  const ProWithdrawalTypes: set<string> := {"Exchange Withdrawal", "Pro Withdrawal"}
  const IncomeTypes: set<string> := {"Coinbase Earn", "Learning Reward"}
  const StakingTypes: set<string> :=
    {"Rewards Income", "Reward Income", "Inflation Reward", "Staking Income"}
  const FeeRebateType: string := "Subscription Rebates (24 Hours)"
  const BuyTypes: set<string> := {"Buy", "Advanced Trade Buy", "Advance Trade Buy"}
  const SellTypes: set<string> := {"Sell", "Advanced Trade Sell", "Advance Trade Sell"}

  /** Every transaction type `_do_parse_coinbase` has a branch for. */
  const KnownTypes: set<string> :=
    {"Deposit", "Withdrawal", "Receive", "Send", "Convert", FeeRebateType}
    + ProDepositTypes + ProWithdrawalTypes + IncomeTypes + StakingTypes + BuyTypes + SellTypes

  /** The errors the record builders can raise: a missing column or a number `Decimal` does not
      accept. */
  predicate IsCellError(e: ParseError) {
    e.KeyError? || e.InvalidDecimal?
  }

  function Only(result: Result<Record, ParseError>): Outcome {
    Outcome(None, None, result)
  }

  /** A record, when one is built, carries the row's timestamp and the Coinbase wallet. */
  predicate Stamps(r: Result<Record, ParseError>, ts: Timestamp) {
    r.Success? ==> r.value.timestamp == ts && r.value.wallet == Wallet
  }

  /** `abs` applied to a fee that may be absent. */
  function AbsFee(fee: Option<Decimal>): (r: Option<Decimal>)
    ensures r.Some? <==> fee.Some?
    ensures r.Some? ==> r.value >= 0.0 && (r.value == fee.value || r.value == -fee.value)
  {
    if fee.Some? then Some(Abs(fee.value)) else None
  }

  // Branches of `_do_parse_coinbase`.

  /** A fiat deposit: the fee, when there is a non-zero one, is added back to the quantity. */
  function FiatDeposit(d: map<string, string>, ts: Timestamp, fees: Option<Decimal>): (r: Result<Record, ParseError>)
    ensures Stamps(r, ts)
    ensures r.Failure? ==> IsCellError(r.error)
  {
    var quantity :- DecimalField(d, QuantityColumn);
    var asset :- Lookup(d, "Asset");
    Success(Record(Deposit, ts,
      buyQuantity := Some(if Truthy(fees) then quantity + Abs(fees.value) else quantity),
      buyAsset := asset, feeQuantity := fees, feeAsset := asset, wallet := Wallet))
  }

  /** A fiat withdrawal: the fee, when there is a non-zero one, is taken off the quantity. */
  function FiatWithdrawal(d: map<string, string>, ts: Timestamp, fees: Option<Decimal>): (r: Result<Record, ParseError>)
    ensures Stamps(r, ts)
    ensures r.Failure? ==> IsCellError(r.error)
  {
    var quantity :- DecimalField(d, QuantityColumn);
    var asset :- Lookup(d, "Asset");
    Success(Record(Withdrawal, ts,
      sellQuantity := Some(if Truthy(fees) then quantity - Abs(fees.value) else quantity),
      sellAsset := asset, feeQuantity := AbsFee(fees), feeAsset := asset, wallet := Wallet))
  }

  /** A record of `kind` that buys the row's quantity of its asset, valued at `value`. */
  function BuyRecord(d: map<string, string>, ts: Timestamp, kind: TrType, value: Option<Decimal>): (r: Result<Record, ParseError>)
    ensures Stamps(r, ts)
    ensures r.Failure? ==> IsCellError(r.error)
  {
    var quantity :- DecimalField(d, QuantityColumn);
    var asset :- Lookup(d, "Asset");
    Success(Record(kind, ts, buyQuantity := Some(quantity), buyAsset := asset, buyValue := value,
      wallet := Wallet))
  }

  /** A withdrawal of the row's quantity of its asset. */
  function SellRecord(d: map<string, string>, ts: Timestamp): (r: Result<Record, ParseError>)
    ensures Stamps(r, ts)
    ensures r.Failure? ==> IsCellError(r.error)
  {
    var quantity :- DecimalField(d, QuantityColumn);
    var asset :- Lookup(d, "Asset");
    Success(Record(Withdrawal, ts, sellQuantity := Some(quantity), sellAsset := asset,
      wallet := Wallet))
  }

  /** A "Receive": a referral or an income when the notes say so (valued at the spot price when
      there is one), otherwise a crypto deposit. */
  function Receive(d: map<string, string>, ts: Timestamp, spotPrice: Option<Decimal>): (r: Result<Record, ParseError>)
    ensures Stamps(r, ts)
    ensures r.Failure? ==> IsCellError(r.error)
  {
    var buyValue :- ReceiveValue(d, spotPrice);
    var notes :- Lookup(d, "Notes");
    if Contains(notes, "Coinbase Referral") then BuyRecord(d, ts, Referral, buyValue)
    else if Contains(notes, "Coinbase Earn") || Contains(notes, "Coinbase Rewards") then
      BuyRecord(d, ts, Income, buyValue)
    else BuyRecord(d, ts, Deposit, None)
  }

  /** The spot price times the quantity, when the spot price is present and non-zero. */
  function ReceiveValue(d: map<string, string>, spotPrice: Option<Decimal>): (r: Result<Option<Decimal>, ParseError>)
    ensures r.Success? ==> (r.value.Some? <==> Truthy(spotPrice))
    ensures r.Failure? ==> IsCellError(r.error) && Truthy(spotPrice)
    ensures r.Success? && Truthy(spotPrice) ==>
      DecimalField(d, QuantityColumn).Success?
      && r.value == Some(Times(spotPrice.value, DecimalField(d, QuantityColumn).value))
  {
    if Truthy(spotPrice) then
      var quantity :- DecimalField(d, QuantityColumn);
      Success(Some(Times(spotPrice.value, quantity)))
    else Success(None)
  }

  /** The error for notes that do not parse, naming the Notes column's position. */
  function UnexpectedNotes(p: Parser, notes: string): (r: Result<Record, ParseError>)
    ensures r.Failure? && (r.error.UnexpectedContent? || r.error == NotInHeader("Notes"))
  {
    match IndexOf(p.inHeader, "Notes")
    case None => Failure(NotInHeader("Notes"))
    case Some(i) => Failure(UnexpectedContent(i, "Notes", notes))
  }

  /** The warning for a quote currency other than the file's, which needs the header's row
      number. */
  function QuoteWarning(p: Parser, row: Row, quote: string, currency: string): (r: Result<Option<Warning>, ParseError>)
    ensures r.Success? ==> (r.value.Some? <==> quote != currency)
    ensures r.Failure? <==> quote != currency && p.inHeaderRowNum.None?
    ensures r.Failure? ==> r.error == MissingHeaderRowNum
  {
    if quote == currency then Success(None)
    else if p.inHeaderRowNum.None? then Failure(MissingHeaderRowNum)
    else Success(Some(QuoteMismatch(p.inHeaderRowNum.value + row.lineNum, quote, currency)))
  }

  /** A buy: normally a trade selling the subtotal in the configured currency; with the gifts
      option, a plain "Buy" without fees is a referral instead. */
  function BuyTrade(d: map<string, string>, ts: Timestamp, fv: FiatValues, cfg: Config, txType: string): (r: Result<Record, ParseError>)
    ensures Stamps(r, ts)
    ensures r.Failure? ==> IsCellError(r.error)
  {
    if cfg.coinbaseZeroFeesAreGifts && txType == "Buy" && fv.fees == Some(0.0) then
      BuyRecord(d, ts, Referral,
        if fv.total.Some? && fv.total.value > 0.0 then fv.total else None)
    else
      var quantity :- DecimalField(d, QuantityColumn);
      var asset :- Lookup(d, "Asset");
      Success(Record(Trade, ts, buyQuantity := Some(quantity), buyAsset := asset,
        sellQuantity := fv.subtotal, sellAsset := cfg.ccy, feeQuantity := AbsFee(fv.fees),
        feeAsset := cfg.ccy, wallet := Wallet))
  }

  /** A sell: a trade buying the subtotal in the configured currency. */
  function SellTrade(d: map<string, string>, ts: Timestamp, fv: FiatValues, cfg: Config): (r: Result<Record, ParseError>)
    ensures Stamps(r, ts)
    ensures r.Failure? ==> IsCellError(r.error)
  {
    var quantity :- DecimalField(d, QuantityColumn);
    var asset :- Lookup(d, "Asset");
    Success(Record(Trade, ts, buyQuantity := fv.subtotal, buyAsset := cfg.ccy,
      sellQuantity := Some(quantity), sellAsset := asset, feeQuantity := AbsFee(fv.fees),
      feeAsset := cfg.ccy, wallet := Wallet))
  }

  /** The "Buy" and "Sell" branches: the notes must name a currency; a quote currency other
      than the file's only adds a warning. */
  function BuyOrSell(p: Parser, row: Row, ts: Timestamp, fv: FiatValues, cfg: Config, txType: string): (o: Outcome)
    ensures Stamps(o.result, ts)
    ensures o.txDestPos.None?
    ensures o.result.Failure? ==> !o.result.error.UnexpectedType?
  {
    match Lookup(row.dict, "Notes")
    case Failure(e) => Only(Failure(e))
    case Success(notes) => NotedTrade(p, row, ts, fv, cfg, txType, notes, GetNoteCurrency(notes))
  }

  /** The "Buy" and "Sell" branches once `_get_note_currency` has read the notes. */
  function NotedTrade(p: Parser, row: Row, ts: Timestamp, fv: FiatValues, cfg: Config, txType: string,
                      notes: string, noteCurrency: (Option<string>, string)): (o: Outcome)
    ensures Stamps(o.result, ts)
    ensures o.txDestPos.None?
    ensures o.result.Failure? ==> !o.result.error.UnexpectedType?
  {
    var (currency, quote) := noteCurrency;
    if currency.None? then Only(UnexpectedNotes(p, notes))
    else
      match QuoteWarning(p, row, quote, fv.currency)
      case Failure(e) => Only(Failure(e))
      case Success(warning) =>
        Outcome(None, warning,
          if txType in BuyTypes then BuyTrade(row.dict, ts, fv, cfg, txType)
          else SellTrade(row.dict, ts, fv, cfg))
  }

  /** `.replace(",", "")`. */
  predicate IsNotComma(c: char) { c != ',' }

  /** A "Convert": a trade of the row's quantity of its asset for the amount and asset in the
      notes, both valued at the total. */
  function Convert(p: Parser, d: map<string, string>, ts: Timestamp, total: Option<Decimal>): (r: Result<Record, ParseError>)
    ensures Stamps(r, ts)
    ensures r.Failure? ==> !r.error.UnexpectedType?
  {
    var notes :- Lookup(d, "Notes");
    match GetConvertInfo(notes)
    case None => UnexpectedNotes(p, notes)
    case Some(info) =>
      var buyQuantity :- DecimalOf(Filter(info.buyAmount, IsNotComma));
      var sellQuantity :- DecimalField(d, QuantityColumn);
      var sellAsset :- Lookup(d, "Asset");
      Success(Record(Trade, ts, buyQuantity := Some(buyQuantity), buyAsset := info.buyAsset,
        buyValue := total, sellQuantity := Some(sellQuantity), sellAsset := sellAsset,
        sellValue := total, wallet := Wallet))
  }

  /** The error for a transaction type without a branch, naming its column's position. */
  function UnexpectedTypeOf(p: Parser, column: string, value: string): (r: Result<Record, ParseError>)
    ensures r.Failure?
  {
    match IndexOf(p.inHeader, column)
    case None => Failure(NotInHeader(column))
    case Some(i) => Failure(UnexpectedType(i, column, value))
  }

  /** `_do_parse_coinbase`: classifies a row of the "Coinbase" report by its transaction type. */
  function DoParseCoinbase(p: Parser, row: Row, ts: Timestamp, fv: FiatValues, cfg: Config): (o: Outcome)
    ensures Stamps(o.result, ts)
    ensures o.warning.Some? ==> Lookup(row.dict, "Transaction Type").Success?
    ensures o.txDestPos.Some? ==> Lookup(row.dict, "Transaction Type") == Success("Send")
    ensures o.result.Failure? && o.result.error.UnexpectedType? ==>
      "Transaction Type" in row.dict && row.dict["Transaction Type"] !in KnownTypes
  {
    var d := row.dict;
    match Lookup(d, "Transaction Type")
    case Failure(e) => Only(Failure(e))
    case Success(t) =>
      if t == "Deposit" then Only(FiatDeposit(d, ts, fv.fees))
      else if t == "Withdrawal" then Only(FiatWithdrawal(d, ts, fv.fees))
      else if t in ProDepositTypes then Only(SellRecord(d, ts))
      else if t in ProWithdrawalTypes then Only(BuyRecord(d, ts, Deposit, None))
      else if t == "Receive" then Only(Receive(d, ts, fv.spotPrice))
      else if t in IncomeTypes then Only(BuyRecord(d, ts, Income, fv.total))
      else if t in StakingTypes then Only(BuyRecord(d, ts, Staking, fv.total))
      else if t == FeeRebateType then Only(BuyRecord(d, ts, FeeRebate, fv.total))
      else if t == "Send" then
        match IndexOf(p.inHeader, "Notes")
        case None => Only(Failure(NotInHeader("Notes")))
        case Some(i) => Outcome(Some(i), None, SellRecord(d, ts))
      else if t in BuyTypes || t in SellTypes then BuyOrSell(p, row, ts, fv, cfg, t)
      else if t == "Convert" then Only(Convert(p, d, ts, fv.total))
      else Only(UnexpectedTypeOf(p, "Transaction Type", t))
  }

  // The schema versions: which columns hold the fiat values.

  /** `convert_currency` of a cell. */
  function Converted(env: Env, text: string, currency: string, ts: Timestamp): Option<Decimal> {
    env.convertCurrency(text, currency, ts)
  }

  /** `.strip("£€$").replace(",", "")`: a v4 cell without its currency symbol and grouping. */
  function PlainAmount(text: string): string {
    Filter(Strip(text, IsCurrencySymbol), IsNotComma)
  }

  /** `re.sub(r"[^-\d.]+", "", text)`: only minus signs, digits and points kept. */
  predicate IsFeeChar(c: char) { c == '-' || IsDigit(c) || c == '.' }

  /** `parse_coinbase_v4`: the currency is in "Price Currency", amounts carry symbols and
      grouping commas, and only the fee's digits, signs and points are kept. */
  function FiatV4(d: map<string, string>, ts: Timestamp, env: Env): (r: Result<FiatValues, ParseError>)
    ensures r.Failure? ==> r.error.KeyError?
  {
    var currency :- Lookup(d, "Price Currency");
    var spot :- Lookup(d, "Price at Transaction");
    var subtotal :- Lookup(d, "Subtotal");
    var total :- Lookup(d, "Total (inclusive of fees and/or spread)");
    var fees :- Lookup(d, "Fees and/or Spread");
    Success(FiatValues(
      Converted(env, PlainAmount(spot), currency, ts),
      Converted(env, PlainAmount(subtotal), currency, ts),
      Converted(env, PlainAmount(total), currency, ts),
      Converted(env, Filter(fees, IsFeeChar), currency, ts),
      currency))
  }

  /** The v3 and v2 layout: the currency is in "Spot Price Currency", and the amounts are read
      from the spot price, subtotal, total and fee columns as they are. */
  function SpotPriceFiat(d: map<string, string>, ts: Timestamp, env: Env, totalColumn: string, feesColumn: string)
    : (r: Result<FiatValues, ParseError>)
    ensures r.Success? <==>
      "Spot Price Currency" in d && "Spot Price at Transaction" in d && "Subtotal" in d
      && totalColumn in d && feesColumn in d
    ensures r.Failure? ==> r.error.KeyError?
    ensures r.Success? ==> r.value.currency == d["Spot Price Currency"]
  {
    var currency :- Lookup(d, "Spot Price Currency");
    var spot :- Lookup(d, "Spot Price at Transaction");
    var subtotal :- Lookup(d, "Subtotal");
    var total :- Lookup(d, totalColumn);
    var fees :- Lookup(d, feesColumn);
    Success(FiatValues(
      Converted(env, spot, currency, ts), Converted(env, subtotal, currency, ts),
      Converted(env, total, currency, ts), Converted(env, fees, currency, ts), currency))
  }

  /** `parse_coinbase_v3`: the total and fee columns mention the spread. */
  function FiatV3(d: map<string, string>, ts: Timestamp, env: Env): (r: Result<FiatValues, ParseError>)
    ensures r.Failure? ==> r.error.KeyError?
  {
    SpotPriceFiat(d, ts, env, "Total (inclusive of fees and/or spread)", "Fees and/or Spread")
  }

  /** `parse_coinbase_v2`: the older total and fee column names. */
  function FiatV2(d: map<string, string>, ts: Timestamp, env: Env): (r: Result<FiatValues, ParseError>)
    ensures r.Failure? ==> r.error.KeyError?
  {
    SpotPriceFiat(d, ts, env, "Total (inclusive of fees)", "Fees")
  }

  /** `parse_coinbase_v1`: the currency is the code captured from the first pattern column, and
      the amount columns are named after it. */
  function FiatV1(p: Parser, d: map<string, string>, ts: Timestamp, env: Env): (r: Result<FiatValues, ParseError>)
    ensures r.Failure? ==> r.error.KeyError? || r.error == IndexError(0)
  {
    var currency :- At(p.args, 0);
    var spot :- Lookup(d, currency + " Spot Price at Transaction");
    var subtotal :- Lookup(d, currency + " Subtotal");
    var total :- Lookup(d, currency + " Total (inclusive of fees)");
    var fees :- Lookup(d, currency + " Fees");
    Success(FiatValues(
      Converted(env, spot, currency, ts), Converted(env, subtotal, currency, ts),
      Converted(env, total, currency, ts), Converted(env, fees, currency, ts), currency))
  }

  /** `data_row.timestamp = DataParser.parse_timestamp(row_dict["Timestamp"])`. */
  function ReadTimestamp(d: map<string, string>, env: Env): (r: Result<Timestamp, ParseError>)
    ensures r.Success? ==> "Timestamp" in d && env.parseTimestamp(d["Timestamp"]) == Some(r.value)
  {
    var text :- Lookup(d, "Timestamp");
    match env.parseTimestamp(text)
    case None => Failure(InvalidTimestamp(text))
    case Some(ts) => Success(ts)
  }

  /** A handler that builds a record has assigned the timestamp the record carries. */
  predicate Settled(e: Effects) {
    e.result.Success? ==> e.timestamp.Some? && Stamps(e.result, e.timestamp.value)
  }

  function Failed(e: ParseError): Effects {
    Effects(None, None, None, Failure(e))
  }

  function Stamped(ts: Timestamp, o: Outcome): Effects {
    Effects(Some(ts), o.txDestPos, o.warning, o.result)
  }

  /** A "Coinbase" report handler: the timestamp, then the version's fiat values, then
      `_do_parse_coinbase`. */
  function ParseCoinbase(version: Handler, p: Parser, row: Row, env: Env, cfg: Config): (e: Effects)
    requires version in {CoinbaseV1, CoinbaseV2, CoinbaseV3, CoinbaseV4}
    ensures Settled(e)
    ensures e.timestamp.Some? <==> ReadTimestamp(row.dict, env).Success?
    ensures e.timestamp.Some? ==> e.timestamp == Some(ReadTimestamp(row.dict, env).value)
  {
    match ReadTimestamp(row.dict, env)
    case Failure(err) => Failed(err)
    case Success(ts) =>
      var fiat :=
        match version
        case CoinbaseV4 => FiatV4(row.dict, ts, env)
        case CoinbaseV3 => FiatV3(row.dict, ts, env)
        case CoinbaseV2 => FiatV2(row.dict, ts, env)
        case _ => FiatV1(p, row.dict, ts, env);
      match fiat
      case Failure(err) => Effects(Some(ts), None, None, Failure(err))
      case Success(fv) => Stamped(ts, DoParseCoinbase(p, row, ts, fv, cfg))
  }

  // The "Coinbase Transfers" report.

  /** `parse_coinbase_transfers`: deposits and withdrawals of the fiat currency, and trades
      whose crypto asset is the name of the header's third column. */
  function ParseTransfers(p: Parser, row: Row, env: Env): (e: Effects)
    ensures Settled(e)
    ensures e.txDestPos.None? && e.warning.None?
    ensures e.timestamp.Some? <==> ReadTimestamp(row.dict, env).Success?
  {
    match ReadTimestamp(row.dict, env)
    case Failure(err) => Failed(err)
    case Success(ts) => Effects(Some(ts), None, None, TransferRecord(p, row.dict, ts))
  }

  function TransferRecord(p: Parser, d: map<string, string>, ts: Timestamp): (r: Result<Record, ParseError>)
    ensures Stamps(r, ts)
    ensures r.Failure? && r.error.UnexpectedType? ==>
      "Type" in d && d["Type"] != "Deposit" && d["Type"] != "Withdrawal" && d["Type"] != "Buy"
      && d["Type"] != "Sell"
  {
    var t :- Lookup(d, "Type");
    if t == "Deposit" then
      var total :- DecimalField(d, "Total");
      var currency :- Lookup(d, "Currency");
      var fee :- DecimalField(d, "Fees");
      Success(Record(Deposit, ts, buyQuantity := Some(total), buyAsset := currency,
        feeQuantity := Some(fee), feeAsset := currency, wallet := Wallet))
    else if t == "Withdrawal" then
      var total :- DecimalField(d, "Total");
      var currency :- Lookup(d, "Currency");
      var fee :- DecimalField(d, "Fees");
      Success(Record(Withdrawal, ts, sellQuantity := Some(total), sellAsset := currency,
        feeQuantity := Some(fee), feeAsset := currency, wallet := Wallet))
    else if t == "Buy" then
      var asset :- At(p.inHeader, 2);
      var quantity :- DecimalField(d, asset);
      var subtotal :- DecimalField(d, "Subtotal");
      var currency :- Lookup(d, "Currency");
      var fee :- DecimalField(d, "Fees");
      Success(Record(Trade, ts, buyQuantity := Some(quantity), buyAsset := asset,
        sellQuantity := Some(subtotal), sellAsset := currency, feeQuantity := Some(fee),
        feeAsset := currency, wallet := Wallet))
    else if t == "Sell" then
      var subtotal :- DecimalField(d, "Subtotal");
      var currency :- Lookup(d, "Currency");
      var asset :- At(p.inHeader, 2);
      var quantity :- DecimalField(d, asset);
      var fee :- DecimalField(d, "Fees");
      Success(Record(Trade, ts, buyQuantity := Some(subtotal), buyAsset := currency,
        sellQuantity := Some(quantity), sellAsset := asset, feeQuantity := Some(fee),
        feeAsset := currency, wallet := Wallet))
    else UnexpectedTypeOf(p, "Type", t)
  }

  // The "Coinbase Transactions" report.

  /** The column holding a transaction hash. */
  const HashColumn: nat := 21

  /** `parse_coinbase_transactions`: rows with a hash are crypto deposits or withdrawals, rows
      with a transfer ID trades or fiat transfers, and the rest referral bonuses, duplicates of
      trades reported elsewhere, or transfers to and from Coinbase Pro. */
  function ParseTransactions(row: Row, env: Env): (e: Effects)
    ensures Settled(e)
    ensures e.txDestPos.None? && e.warning.None?
    ensures e.timestamp.Some? <==> ReadTimestamp(row.dict, env).Success?
  {
    match ReadTimestamp(row.dict, env)
    case Failure(err) => Failed(err)
    case Success(ts) => Effects(Some(ts), None, None, TransactionRecord(row, ts))
  }

  /** A withdrawal of `-amount` when `amount` is negative, otherwise a deposit of `amount`, of
      the given kind for the deposit and for the withdrawal alike. */
  function ByDirection(amount: Decimal, currency: string, ts: Timestamp, withdrawal: TrType, deposit: TrType): (r: Record)
    ensures amount < 0.0 ==>
      r.trType == withdrawal && r.sellQuantity == Some(Abs(amount)) && r.sellAsset == currency
      && r.buyQuantity.None? && r.buyAsset == ""
    ensures amount >= 0.0 ==>
      r.trType == deposit && r.buyQuantity == Some(Abs(amount)) && r.buyAsset == currency
      && r.sellQuantity.None? && r.sellAsset == ""
    ensures r.timestamp == ts && r.wallet == Wallet
  {
    if amount < 0.0 then
      Record(withdrawal, ts, sellQuantity := Some(Abs(amount)), sellAsset := currency, wallet := Wallet)
    else Record(deposit, ts, buyQuantity := Some(amount), buyAsset := currency, wallet := Wallet)
  }

  function TransactionRecord(row: Row, ts: Timestamp): (r: Result<Record, ParseError>)
    ensures Stamps(r, ts)
  {
    var d := row.dict;
    var hash :- At(row.cells, HashColumn);
    if hash != "" then
      var amount :- DecimalField(d, "Amount");
      var currency :- Lookup(d, "Currency");
      Success(ByDirection(amount, currency, ts, Withdrawal, Deposit))
    else
      var transferId :- Lookup(d, "Transfer ID");
      if transferId != "" then TransferIdRecord(d, ts)
      else
        var notes :- Lookup(d, "Notes");
        var currency :- if notes != "" then Lookup(d, "Currency") else Success("");
        if notes != "" && currency == "BTC" then
          var amount :- DecimalField(d, "Amount");
          Success(Record(Referral, ts, buyQuantity := Some(amount), buyAsset := currency,
            wallet := Wallet))
        else if notes != "" then
          var amount :- DecimalField(d, "Amount");
          Success(ByDirection(amount, currency, ts, Duplicate, Duplicate))
        else
          var amount :- DecimalField(d, "Amount");
          var currency :- Lookup(d, "Currency");
          Success(ByDirection(amount, currency, ts, Withdrawal, Deposit))
  }

  /** A row with a transfer ID: a trade when the transfer was in another currency, otherwise a
      fiat deposit or withdrawal of the transfer total. */
  function TransferIdRecord(d: map<string, string>, ts: Timestamp): (r: Result<Record, ParseError>)
    ensures Stamps(r, ts)
  {
    var currency :- Lookup(d, "Currency");
    var totalCurrency :- Lookup(d, "Transfer Total Currency");
    var amount :- DecimalField(d, "Amount");
    var total :- DecimalField(d, "Transfer Total");
    var fee :- DecimalField(d, "Transfer Fee");
    var feeCurrency :- Lookup(d, "Transfer Fee Currency");
    if currency != totalCurrency then
      if amount < 0.0 then
        Success(Record(Trade, ts, buyQuantity := Some(total + fee), buyAsset := totalCurrency,
          sellQuantity := Some(Abs(amount)), sellAsset := currency, feeQuantity := Some(fee),
          feeAsset := feeCurrency, wallet := Wallet))
      else
        Success(Record(Trade, ts, buyQuantity := Some(amount), buyAsset := currency,
          sellQuantity := Some(total - fee), sellAsset := totalCurrency, feeQuantity := Some(fee),
          feeAsset := feeCurrency, wallet := Wallet))
    else if amount < 0.0 then
      Success(Record(Withdrawal, ts, sellQuantity := Some(total), sellAsset := currency,
        feeQuantity := Some(fee), feeAsset := feeCurrency, wallet := Wallet))
    else
      Success(Record(Deposit, ts, buyQuantity := Some(total), buyAsset := currency,
        feeQuantity := Some(fee), feeAsset := feeCurrency, wallet := Wallet))
  }

  /** The handler a format is bound to, applied to one row. */
  function Handle(h: Handler, p: Parser, row: Row, env: Env, cfg: Config): (e: Effects)
    ensures Settled(e)
    ensures e.timestamp.Some? <==> ReadTimestamp(row.dict, env).Success?
  {
    match h
    case CoinbaseTransfers => ParseTransfers(p, row, env)
    case CoinbaseTransactions => ParseTransactions(row, env)
    case _ => ParseCoinbase(h, p, row, env, cfg)
  }
}
