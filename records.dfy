/** What a Coinbase row handler produces: a `TransactionOutRecord` with its transaction type,
    or the exception the handler raises instead. */
module Records {
  import opened Wrappers
  import opened Decimals

  /** The wallet every Coinbase record is booked to. */
  const Wallet: string := "Coinbase"

  /** A parsed timestamp, as `DataParser.parse_timestamp` returns it. */
  type Timestamp = int

  /** `TrType`, the subset the Coinbase parser emits, plus `UnmappedType(name)`. */
  datatype TrType =
    | Deposit
    | Withdrawal
    | Trade
    | Income
    | Staking
    | Referral
    | FeeRebate
    | Unmapped(name: string)

  /** Rows the Coinbase parser flags as duplicates of entries in another report. */
  const Duplicate: TrType := Unmapped("Duplicate")

  /** `TransactionOutRecord(t_type, timestamp, buy_quantity=..., ...)`, with the constructor's
      keyword defaults: quantities and values absent, assets and wallet empty. */
  datatype Record = Record(
    trType: TrType,
    timestamp: Timestamp,
    buyQuantity: Option<Decimal> := None,
    buyAsset: string := "",
    buyValue: Option<Decimal> := None,
    sellQuantity: Option<Decimal> := None,
    sellAsset: string := "",
    sellValue: Option<Decimal> := None,
    feeQuantity: Option<Decimal> := None,
    feeAsset: string := "",
    wallet: string := "")

  /** The exceptions a row handler can raise. */
  datatype ParseError =
    /** `UnexpectedTypeError(col_num, col_name, value)`: an unknown transaction type. */
    | UnexpectedType(colNum: nat, colName: string, value: string)
    /** `UnexpectedContentError(col_num, col_name, value)`: notes that do not parse. */
    | UnexpectedContent(colNum: nat, colName: string, value: string)
    /** `KeyError`: a column name the row dictionary does not hold. */
    | KeyError(key: string)
    /** `ValueError` from `list.index`: a column name the header does not hold. */
    | NotInHeader(name: string)
    /** `IndexError`: a position past the end of a list. */
    | IndexError(index: nat)
    /** `decimal.InvalidOperation`: a string `Decimal` does not accept. */
    | InvalidDecimal(text: string)
    /** `RuntimeError("Missing in_header_row_num")`. */
    | MissingHeaderRowNum
    /** `parse_timestamp` raising on a timestamp it cannot read. */
    | InvalidTimestamp(text: string)
}
