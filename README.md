# Coinbase export parser of BittyTax, modelled in Dafny

BittyTax converts the CSV exports of crypto wallets and exchanges into its own transaction
records. This project models its Coinbase parser, `bittytax/conv/parsers/coinbase.py`:

- the seven header definitions registered with `DataParser`: four versions of the "Coinbase"
  report, with and without an ID column, plus the "Coinbase Transfers" and
  "Coinbase Transactions" reports;
- the four version handlers `parse_coinbase_v1` to `parse_coinbase_v4`, which read the fiat
  columns of their schema;
- `_do_parse_coinbase`, which classifies a row by its transaction type and builds a
  `TransactionOutRecord`;
- the handlers of the two older reports;
- the two regular-expression extractors over the Notes column, `_get_convert_info` and
  `_get_note_currency`.

A row handler works by assigning fields of its `DataRow` in place:

- `timestamp`, first;
- `tx_raw`, for a "Send";
- `t_record`, unless it raises first.

The model computes these assignments as a value (`Coinbase.Effects`). It then applies them to
a `DataRows.DataRow` object whose `Parse` method changes exactly those fields.

Python exceptions are values of `Records.ParseError`:

- `KeyError`;
- `decimal.InvalidOperation`;
- `ValueError` from `list.index`;
- `IndexError`;
- `RuntimeError`;
- `UnexpectedTypeError`;
- `UnexpectedContentError`.

Evaluation follows Python's left-to-right order, so when several cells are at fault, the error
is the one Python meets first. `Decimal` is modelled as an exact `real`, together with a
parser for the string syntax `Decimal` accepts.

Modules:

- `Wrappers`: `Option` and `Result`.
- `Text`: the string operations Python provides, such as `in`, `index`, `strip` and `replace`.
- `Decimals`: `Decimal(str)` and `abs`.
- `Records`: the output record and the errors.
- `Rows`: the row dictionary and the cell reads that can raise.
- `Headers`: the format table and header matching.
- `Notes`: the two Notes extractors.
- `Coinbase`: the handlers.
- `DataRows`: the in-place row object.
- `CoinbaseProperties` and `SchemaProperties`: the properties.

## Model

`coinbase.py` below stands for `BittyTax-master/src/bittytax/conv/parsers/coinbase.py`.

| member | source | states |
|---|---|---|
| Headers.MatchHeader | BittyTax-master/src/bittytax/conv/parsers/coinbase.py:661-677 | A definition matches a header row exactly when both have the same width and every column's matcher accepts the cell. The captures (`parser.args`) are one three-letter word per currency-pattern column. |
| Headers.MatchedLiteral | BittyTax-master/src/bittytax/conv/parsers/coinbase.py:584-602 | A matched header row holds each literal column's name at that column. |
| Headers.ResolveFrom | BittyTax-master/src/bittytax/conv/parsers/coinbase.py:584-728 | Trying definitions from position `i` yields the first one that matches, with its captures. It yields none exactly when none from `i` on matches. |
| Headers.Resolve | BittyTax-master/src/bittytax/conv/parsers/coinbase.py:584-728 | A header row selects the first registered Coinbase definition that matches it. It selects none exactly when none matches. |
| Headers.IncompatibleExcludes | BittyTax-master/src/bittytax/conv/parsers/coinbase.py:584-728 | Two definitions of different width, or with clashing literal names at one column, never both accept a header row. |
| Headers.RegistryPairwiseIncompatible | BittyTax-master/src/bittytax/conv/parsers/coinbase.py:584-728 | Every two of the seven registered definitions are incompatible. |
| Headers.FormatsExclusive | BittyTax-master/src/bittytax/conv/parsers/coinbase.py:584-728 | No header row matches two registered definitions, so registration order never decides the format. |
| Headers.ResolveSelectsTheMatch | BittyTax-master/src/bittytax/conv/parsers/coinbase.py:584-728 | A header row selects definition `i` if and only if definition `i` matches it. |
| SchemaProperties.LiteralColumnInRow | BittyTax-master/src/bittytax/conv/parsers/coinbase.py:584-728 | Every literal column of an accepted header row is a key of `row_dict` for a row at least as wide. |
| SchemaProperties.FiveColumnsPresent | BittyTax-master/src/bittytax/conv/parsers/coinbase.py:584-659 | Five consecutive literal columns of an accepted header row are all keys of `row_dict`. |
| SchemaProperties.FiatV4Reads | BittyTax-master/src/bittytax/conv/parsers/coinbase.py:27-57 | For a header row that a v4 definition accepts (with or without "ID"), `parse_coinbase_v4` reads all five fiat columns without `KeyError`. |
| SchemaProperties.FiatV3Reads | BittyTax-master/src/bittytax/conv/parsers/coinbase.py:60-90 | For a header row the v3 definition accepts, `parse_coinbase_v3` reads all its fiat columns. |
| SchemaProperties.FiatV2Reads | BittyTax-master/src/bittytax/conv/parsers/coinbase.py:93-123 | For a header row the v2 definition accepts, `parse_coinbase_v2` reads all its fiat columns. |
| SchemaProperties.TimestampColumnPresent | BittyTax-master/src/bittytax/conv/parsers/coinbase.py:584-728 | Every registered definition has a literal "Timestamp" column, so an accepted file's full rows always hold it. |
| SchemaProperties.FirstCapture | BittyTax-master/src/bittytax/conv/parsers/coinbase.py:132 | `parser.args[0]` is the first three characters of the first currency-pattern column. |
| SchemaProperties.V1FirstCapture | BittyTax-master/src/bittytax/conv/parsers/coinbase.py:132 | For the v1 definition, `args[0]` is the code that starts the "Spot Price at Transaction" column. |
| SchemaProperties.V1HeaderMatches | BittyTax-master/src/bittytax/conv/parsers/coinbase.py:661-677 | The v1 definition accepts the header row of a file in one currency. |
| SchemaProperties.FiatV1Reads | BittyTax-master/src/bittytax/conv/parsers/coinbase.py:126-148 | For a v1 file in one currency, the capture is that currency and `parse_coinbase_v1` finds every column it names. |
| SchemaProperties.MixedV1CurrenciesFail | BittyTax-master/src/bittytax/conv/parsers/coinbase.py:126-148 | The v1 patterns capture a code per column, but the handler looks every column up under the first code. So a header row whose subtotal column names another currency is accepted, and its rows then raise `KeyError` for the first currency's subtotal. |
| SchemaProperties.MissingSubtotalFails | BittyTax-master/src/bittytax/conv/parsers/coinbase.py:132-137 | With the spot-price column present and no subtotal column for `args[0]`, `parse_coinbase_v1` raises `KeyError` for it. |
| SchemaProperties.V4RowReachesDispatch | BittyTax-master/src/bittytax/conv/parsers/coinbase.py:27-57 | A full v4 row whose timestamp parses reaches `_do_parse_coinbase` with the fiat values its handler read. |
| Rows.DictOf | BittyTax-master/src/bittytax/conv/parsers/coinbase.py:30 | The keys of `row_dict` are exactly the header's names, and each name maps to the cell beside its last occurrence. |
| Rows.RowDictAt | BittyTax-master/src/bittytax/conv/parsers/coinbase.py:30 | A header name that occurs once, at position `i`, reads the cell at `i`. |
| Rows.DecimalField | BittyTax-master/src/bittytax/conv/parsers/coinbase.py:167 | `Decimal(row_dict[key])` succeeds exactly when the key is present and `Decimal` accepts its cell. Otherwise it fails with `KeyError` or `InvalidOperation`. |
| Text.IndexOf | BittyTax-master/src/bittytax/conv/parsers/coinbase.py:280 | `list.index` gives the first position holding the value. It raises exactly when the value is absent. |
| Text.Contains | BittyTax-master/src/bittytax/conv/parsers/coinbase.py:216 | `sub in s` holds exactly when `sub` occurs at some position of `s`. |
| Text.Strip | BittyTax-master/src/bittytax/conv/parsers/coinbase.py:35 | `strip` removes only stripped characters, from both ends, and leaves neither end strippable. |
| Text.StripUnchanged | BittyTax-master/src/bittytax/conv/parsers/coinbase.py:35 | Stripping a string with no strippable end returns the string itself. |
| Text.FilterMembers | BittyTax-master/src/bittytax/conv/parsers/coinbase.py:366 | A character survives `.replace(",", "")` or `re.sub` exactly when it occurs and is kept. |
| Text.FilterOfConcat | BittyTax-master/src/bittytax/conv/parsers/coinbase.py:50 | Filtering distributes over concatenation. |
| Text.FilterKeepsAll | BittyTax-master/src/bittytax/conv/parsers/coinbase.py:50 | Filtering a string whose every character is kept returns it unchanged. |
| Text.TakeWhileOfConcat | BittyTax-master/src/bittytax/conv/parsers/coinbase.py:389 | A regex run of one character class is unique: a run followed by a character outside the class is the split found. |
| Decimals.Abs | BittyTax-master/src/bittytax/conv/parsers/coinbase.py:167 | `abs` is non-negative and is the value or its negation. |
| Decimals.ParseInteger | BittyTax-master/src/bittytax/conv/parsers/coinbase.py:167 | `Decimal` reads a digit string as its value. |
| Decimals.ParseFixedPoint | BittyTax-master/src/bittytax/conv/parsers/coinbase.py:167 | `Decimal` reads `a.b` as the integer digits plus the fraction digits. |
| Decimals.ParseDecimalOfNegatedMantissa | BittyTax-master/src/bittytax/conv/parsers/coinbase.py:470 | A minus sign in front of a mantissa negates its value. |
| Decimals.ParseDecimalChars | BittyTax-master/src/bittytax/conv/parsers/coinbase.py:167 | Every character of a string `Decimal` accepts is whitespace, a sign, a digit, a point or an exponent marker. |
| Decimals.ParseDecimalRejectsGrouping | BittyTax-master/src/bittytax/conv/parsers/coinbase.py:366 | `Decimal` raises on any string holding a comma or a vertical bar. |
| Notes.AmountThenOf | BittyTax-master/src/bittytax/conv/parsers/coinbase.py:389 | An amount alternative of the expression, followed by a separator it cannot continue into, is matched as that amount. |
| Notes.WordThenOf | BittyTax-master/src/bittytax/conv/parsers/coinbase.py:389 | A `\w+` group followed by a non-word separator is matched as that word. |
| Notes.GetConvertInfo | BittyTax-master/src/bittytax/conv/parsers/coinbase.py:387-394 | `_get_convert_info` yields only groups that satisfy the expression's amount and word shapes. |
| Notes.ConvertInfoSound | BittyTax-master/src/bittytax/conv/parsers/coinbase.py:387-394 | Every note `_get_convert_info` accepts is "Converted A X to B Y", then spaces and possibly a final newline, of the groups it returns. |
| Notes.ConvertInfoComplete | BittyTax-master/src/bittytax/conv/parsers/coinbase.py:387-394 | Every such note built from well-formed groups yields exactly those groups (the round trip). |
| Notes.PairQuoteOf | BittyTax-master/src/bittytax/conv/parsers/coinbase.py:402-403 | After the code, " on BASE-QUOTE" makes the quote currency `QUOTE`. |
| Notes.ForClauseOf | BittyTax-master/src/bittytax/conv/parsers/coinbase.py:398 | After "for ", an amount, a space and a code match with that code as group 1. |
| Notes.LastNoteMatch | BittyTax-master/src/bittytax/conv/parsers/coinbase.py:398 | The greedy `.+` takes the last "for " position where the rest of the expression matches. No later position matches, and there is none at all exactly when no position matches. |
| Notes.GetNoteCurrency | BittyTax-master/src/bittytax/conv/parsers/coinbase.py:397-405 | The currency is `None` exactly when the quote is `""`. When present, both are `\w+` words. A currency is found exactly when the note has no inner newline and the expression matches at some "for ". |
| Notes.ForClauseSound | BittyTax-master/src/bittytax/conv/parsers/coinbase.py:398 | Whatever follows "for " when the clause matches is an optional `[£€$]`, an amount, a space, and the returned code as a `\w+` word not continued by the rest. The quote is the one that rest gives. |
| Notes.NoteCurrencySound | BittyTax-master/src/bittytax/conv/parsers/coinbase.py:397-405 | A currency `_get_note_currency` returns comes from a note with no inner newline. It is the code of the "for " clause at the last position where the expression matches, with no later "for " that matches. |
| Notes.NoteCurrencyOfPhrase | BittyTax-master/src/bittytax/conv/parsers/coinbase.py:397-405 | In a note "… for AMOUNT CODE tail" with no later "for ", the currency is CODE, and the quote is the one the tail gives. |
| Notes.NoteCurrencyPlain | BittyTax-master/src/bittytax/conv/parsers/coinbase.py:397-405 | "… for 100 GBP" yields ("GBP", "GBP"). |
| Notes.NoteCurrencyWithPair | BittyTax-master/src/bittytax/conv/parsers/coinbase.py:397-405 | "… for 100 GBP on BTC-EUR" yields ("GBP", "EUR"). |
| Coinbase.AbsFee | BittyTax-master/src/bittytax/conv/parsers/coinbase.py:187 | `abs(fees_ccy) if fees_ccy is not None else None`: present exactly when the fee is, and non-negative. |
| Coinbase.FiatDeposit | BittyTax-master/src/bittytax/conv/parsers/coinbase.py:161-175 | A record, when one is built, carries the row's timestamp and the Coinbase wallet. Failures are `KeyError` or `InvalidOperation` only. |
| Coinbase.FiatWithdrawal | BittyTax-master/src/bittytax/conv/parsers/coinbase.py:176-190 | As for deposits. |
| Coinbase.BuyRecord | BittyTax-master/src/bittytax/conv/parsers/coinbase.py:200-208 | As for deposits. |
| Coinbase.SellRecord | BittyTax-master/src/bittytax/conv/parsers/coinbase.py:191-199 | As for deposits. |
| Coinbase.Receive | BittyTax-master/src/bittytax/conv/parsers/coinbase.py:209-242 | As for deposits. |
| Coinbase.ReceiveValue | BittyTax-master/src/bittytax/conv/parsers/coinbase.py:211-214 | A value exists exactly when the spot price is present and non-zero, and it is then spot price times quantity. It fails only on the quantity cell, and only then. |
| Coinbase.UnexpectedNotes | BittyTax-master/src/bittytax/conv/parsers/coinbase.py:290-293 | It always raises: `UnexpectedContentError` on the Notes column, or `ValueError` when the header has no "Notes". |
| Coinbase.QuoteWarning | BittyTax-master/src/bittytax/conv/parsers/coinbase.py:295-303 | It warns exactly when the quote differs from the file's currency. It raises `RuntimeError` exactly when it would warn but `in_header_row_num` is missing. |
| Coinbase.BuyTrade | BittyTax-master/src/bittytax/conv/parsers/coinbase.py:305-330 | A built record carries the timestamp and the wallet. Failures are cell errors only. |
| Coinbase.SellTrade | BittyTax-master/src/bittytax/conv/parsers/coinbase.py:348-358 | A built record carries the timestamp and the wallet. Failures are cell errors only. |
| Coinbase.BuyOrSell | BittyTax-master/src/bittytax/conv/parsers/coinbase.py:288-358 | It never sets `tx_raw` and never raises `UnexpectedTypeError`. A built record carries the timestamp. |
| Coinbase.NotedTrade | BittyTax-master/src/bittytax/conv/parsers/coinbase.py:290-358 | As `BuyOrSell`, once the notes are read. |
| Coinbase.Convert | BittyTax-master/src/bittytax/conv/parsers/coinbase.py:359-378 | A built record carries the timestamp. It never raises `UnexpectedTypeError`. |
| Coinbase.UnexpectedTypeOf | BittyTax-master/src/bittytax/conv/parsers/coinbase.py:379-384 | It always raises. |
| Coinbase.DoParseCoinbase | BittyTax-master/src/bittytax/conv/parsers/coinbase.py:151-384 | A built record carries the timestamp and the wallet. A warning needs a transaction type, `tx_raw` is set only for "Send", and `UnexpectedTypeError` is raised only for a type outside the known set. |
| Coinbase.FiatV4 | BittyTax-master/src/bittytax/conv/parsers/coinbase.py:27-57 | It fails only with `KeyError`. |
| Coinbase.SpotPriceFiat | BittyTax-master/src/bittytax/conv/parsers/coinbase.py:60-123 | The v3 and v2 handlers read their fiat values exactly when the currency, spot price, subtotal, total and fee columns are all present. The currency is the "Spot Price Currency" cell, and a failure is a `KeyError`. |
| Coinbase.FiatV3 | BittyTax-master/src/bittytax/conv/parsers/coinbase.py:60-90 | It fails only with `KeyError`. |
| Coinbase.FiatV2 | BittyTax-master/src/bittytax/conv/parsers/coinbase.py:93-123 | It fails only with `KeyError`. |
| Coinbase.FiatV1 | BittyTax-master/src/bittytax/conv/parsers/coinbase.py:126-148 | It fails only with `KeyError`, or `IndexError` on `args[0]`. |
| Coinbase.ReadTimestamp | BittyTax-master/src/bittytax/conv/parsers/coinbase.py:31 | A timestamp read is the parse of the "Timestamp" cell. |
| Coinbase.ParseCoinbase | BittyTax-master/src/bittytax/conv/parsers/coinbase.py:27-148 | The timestamp is assigned exactly when it parses, and is that parse. A built record carries the assigned timestamp. |
| Coinbase.ParseTransfers | BittyTax-master/src/bittytax/conv/parsers/coinbase.py:408-459 | The timestamp is assigned exactly when it parses. There is no warning and no `tx_raw`, and a built record carries the timestamp. |
| Coinbase.TransferRecord | BittyTax-master/src/bittytax/conv/parsers/coinbase.py:414-459 | `UnexpectedTypeError` only for a type other than Deposit, Withdrawal, Buy and Sell. A built record carries the timestamp. |
| Coinbase.ParseTransactions | BittyTax-master/src/bittytax/conv/parsers/coinbase.py:462-581 | The timestamp is assigned exactly when it parses. There is no warning and no `tx_raw`, and a built record carries the timestamp. |
| Coinbase.ByDirection | BittyTax-master/src/bittytax/conv/parsers/coinbase.py:470-485 | A negative amount sells its magnitude and otherwise buys it, of the given kind, in the currency. |
| Coinbase.TransactionRecord | BittyTax-master/src/bittytax/conv/parsers/coinbase.py:468-581 | A built record carries the timestamp and the wallet. |
| Coinbase.TransferIdRecord | BittyTax-master/src/bittytax/conv/parsers/coinbase.py:486-536 | A built record carries the timestamp and the wallet. |
| Coinbase.Handle | BittyTax-master/src/bittytax/conv/parsers/coinbase.py:584-728 | Every handler assigns the timestamp exactly when it parses, and every record it builds carries that timestamp. |
| DataRows.DataRow.constructor | BittyTax-master/src/bittytax/conv/parsers/coinbase.py:30 | A fresh row holds `row_dict` built from the header, and no timestamp, `tx_raw` or record. |
| DataRows.DataRow.Parse | BittyTax-master/src/bittytax/conv/parsers/coinbase.py:151-384 | The row's `timestamp`, `tx_raw` and `t_record` are assigned as the handler's effects say, keeping their old values where it stops first. A handler that does not raise has assigned both a timestamp and a record, and the record carries that timestamp and the wallet. |
| CoinbaseProperties.DispatchBuyOrSell | BittyTax-master/src/bittytax/conv/parsers/coinbase.py:288-358 | The buy and sell types reach the "Buy"/"Sell" branch. |
| CoinbaseProperties.DispatchConvert | BittyTax-master/src/bittytax/conv/parsers/coinbase.py:359-378 | "Convert" reaches the convert branch. |
| CoinbaseProperties.DispatchReceive | BittyTax-master/src/bittytax/conv/parsers/coinbase.py:209-242 | "Receive" reaches the receive branch. |
| CoinbaseProperties.DispatchSend | BittyTax-master/src/bittytax/conv/parsers/coinbase.py:278-287 | "Send" reaches the send branch. |
| CoinbaseProperties.DispatchWithdrawal | BittyTax-master/src/bittytax/conv/parsers/coinbase.py:176-190 | "Withdrawal" reaches the fiat withdrawal branch. |
| CoinbaseProperties.DispatchProWithdrawal | BittyTax-master/src/bittytax/conv/parsers/coinbase.py:200-208 | "Exchange Withdrawal" and "Pro Withdrawal" reach the deposit-from-Pro branch. |
| CoinbaseProperties.DispatchReward | BittyTax-master/src/bittytax/conv/parsers/coinbase.py:243-277 | The income, staking and fee-rebate types each reach their own branch, which buys the quantity valued at the total. |
| CoinbaseProperties.DispatchUnknown | BittyTax-master/src/bittytax/conv/parsers/coinbase.py:379-384 | A type outside the known set reaches the final branch. |
| CoinbaseProperties.DepositAddsFeeBack | BittyTax-master/src/bittytax/conv/parsers/coinbase.py:161-175 | A fiat deposit books quantity plus the absolute value of a non-zero fee, so the booked quantity less the fee is the quantity transacted. With no fee or a zero fee it books the quantity itself, and the fee is in the asset. |
| CoinbaseProperties.WithdrawalNetsFee | BittyTax-master/src/bittytax/conv/parsers/coinbase.py:176-190 | A fiat withdrawal with a non-zero fee sells the quantity less the absolute value of the fee, so the sale plus the fee is the quantity transacted. Without one it sells the quantity. The recorded fee is the absolute value of the fee, present exactly when a fee is. Both sides are in the asset. |
| CoinbaseProperties.ProDepositIsWithdrawal | BittyTax-master/src/bittytax/conv/parsers/coinbase.py:191-199 | "Exchange Deposit" and "Pro Deposit" are a withdrawal of the quantity of the asset, with no fee, no value, no warning and no `tx_raw`. |
| CoinbaseProperties.ProWithdrawalIsDeposit | BittyTax-master/src/bittytax/conv/parsers/coinbase.py:200-208 | "Exchange Withdrawal" and "Pro Withdrawal" are a deposit of the quantity of the asset, with no fee and no value. |
| CoinbaseProperties.RewardIsValuedAtTotal | BittyTax-master/src/bittytax/conv/parsers/coinbase.py:243-277 | "Coinbase Earn" and "Learning Reward" are income. The four staking reward types are staking. "Subscription Rebates (24 Hours)" is a fee rebate. Each buys the quantity of the asset, valued at the total, with no sale or fee. |
| CoinbaseProperties.DepositRejectsBadQuantity | BittyTax-master/src/bittytax/conv/parsers/coinbase.py:167 | A quantity `Decimal` refuses makes a deposit raise `InvalidOperation` on that cell. |
| CoinbaseProperties.UnknownTypeFailsClosed | BittyTax-master/src/bittytax/conv/parsers/coinbase.py:379-384 | `UnexpectedTypeError` is raised if and only if the type has no branch. It then names the "Transaction Type" column, and nothing else is assigned. |
| CoinbaseProperties.ReceiveClassification | BittyTax-master/src/bittytax/conv/parsers/coinbase.py:209-242 | "Coinbase Referral" in the notes gives a referral. Otherwise "Coinbase Earn" or "Coinbase Rewards" gives an income, valued at spot price times quantity when the spot price is non-zero. Otherwise it is a deposit without value. |
| CoinbaseProperties.SendIsWithdrawal | BittyTax-master/src/bittytax/conv/parsers/coinbase.py:278-287 | A "Send" records the first position of "Notes" in the header as `tx_dest_pos`, as `list.index` does, and withdraws the quantity of the asset. |
| CoinbaseProperties.BuySellNeedNoteCurrency | BittyTax-master/src/bittytax/conv/parsers/coinbase.py:288-293 | A buy or sell raises `UnexpectedContentError` on the Notes column if and only if `_get_note_currency` finds no currency. |
| CoinbaseProperties.ZeroFeeBuyIsReferral | BittyTax-master/src/bittytax/conv/parsers/coinbase.py:305-318 | With the gifts option on, a plain "Buy" whose fee is zero is a referral of the quantity. It is valued at the total exactly when the total is positive, and has no sale or fee. |
| CoinbaseProperties.BuyIsTrade | BittyTax-master/src/bittytax/conv/parsers/coinbase.py:319-330 | Every other buy is a trade of the subtotal in `config.ccy` for the quantity, with the absolute fee in `config.ccy`. |
| CoinbaseProperties.SellIsTrade | BittyTax-master/src/bittytax/conv/parsers/coinbase.py:348-358 | A sell is a trade of the quantity for the subtotal in `config.ccy`, with the absolute fee in `config.ccy`. |
| CoinbaseProperties.CurrencyOnlyAffectsWarning | BittyTax-master/src/bittytax/conv/parsers/coinbase.py:295-303 | The file's currency affects only the warning. When the warning can be reported, the record or error and `tx_raw` are the same for any currency. |
| CoinbaseProperties.NotedTradeIgnoresCurrency | BittyTax-master/src/bittytax/conv/parsers/coinbase.py:305-358 | Once the notes are read, the buy or sell record does not depend on the file's currency. |
| CoinbaseProperties.OtherTypesIgnoreCurrency | BittyTax-master/src/bittytax/conv/parsers/coinbase.py:161-287 | No other branch reads the file's currency. |
| CoinbaseProperties.QuoteMismatchWarns | BittyTax-master/src/bittytax/conv/parsers/coinbase.py:295-303 | A buy or sell warns if and only if the notes' quote differs from the file's currency and the header row number is known. The warning names row `in_header_row_num + line_num`. It raises `RuntimeError` if and only if the quote differs and the number is missing. |
| CoinbaseProperties.NotedTradeWarning | BittyTax-master/src/bittytax/conv/parsers/coinbase.py:295-303 | The warning of the buy and sell branch, in closed form. |
| CoinbaseProperties.NotedTradeMissingRowNum | BittyTax-master/src/bittytax/conv/parsers/coinbase.py:296-297 | `RuntimeError` exactly for a mismatching quote without a header row number. |
| CoinbaseProperties.ConvertIsTrade | BittyTax-master/src/bittytax/conv/parsers/coinbase.py:359-378 | A convert note "Converted A X to B Y" gives a trade of the quantity of the asset for B, commas removed, of Y, with both sides valued at the total. |
| CoinbaseProperties.ConvertRejectsOtherNotes | BittyTax-master/src/bittytax/conv/parsers/coinbase.py:360-364 | Notes that are no convert phrase of well-formed groups raise `UnexpectedContentError` on the Notes column. This includes phrases such as "Converted abc BTC to 1 ETH", whose amount the expression refuses. |
| CoinbaseProperties.ConvertBarAmountFails | BittyTax-master/src/bittytax/conv/parsers/coinbase.py:366 | `[\d\|,]` admits a vertical bar, which survives `.replace(",", "")`, so such a note raises `InvalidOperation`. |
| CoinbaseProperties.HashRowIsCryptoTransfer | BittyTax-master/src/bittytax/conv/parsers/coinbase.py:468-485 | A row with a hash is a withdrawal of the absolute amount when the amount is negative, and a deposit of it otherwise. The filled side's asset is the row's currency, and the other side is empty. |
| CoinbaseProperties.NotesNonBtcIsDuplicate | BittyTax-master/src/bittytax/conv/parsers/coinbase.py:548-565 | With no hash and no transfer ID, notes in a currency other than BTC are always flagged "Duplicate", never a deposit or withdrawal, for the absolute amount. |
| CoinbaseProperties.NotesBtcIsReferral | BittyTax-master/src/bittytax/conv/parsers/coinbase.py:539-547 | With notes in BTC, the row is a referral bonus of the amount. |
| CoinbaseProperties.PlainRowIsProTransfer | BittyTax-master/src/bittytax/conv/parsers/coinbase.py:566-581 | With no hash, no transfer ID and no notes, a negative amount is a withdrawal of its absolute value and any other amount is a deposit of it. Either way the asset is the row's currency, and the other side is empty. |
| CoinbaseProperties.TransferTradeBalancesFee | BittyTax-master/src/bittytax/conv/parsers/coinbase.py:488-515 | A transfer in another currency is a trade whose fiat side balances the transfer total with the fee: bought minus fee, or sold plus fee, equals the total. The crypto side is the amount in the row's currency, and the fee is in the transfer fee currency. |
| CoinbaseProperties.TransferInSameCurrency | BittyTax-master/src/bittytax/conv/parsers/coinbase.py:516-536 | A transfer in the same currency is a withdrawal or a deposit of the transfer total in the row's currency, with the other side empty. Its fee is in the transfer fee currency. |
| CoinbaseProperties.ShortTransactionRowFails | BittyTax-master/src/bittytax/conv/parsers/coinbase.py:468 | A row without a 22nd cell raises `IndexError`. |
| CoinbaseProperties.TransfersFiatMovesTotal | BittyTax-master/src/bittytax/conv/parsers/coinbase.py:414-433 | A transfers-report "Deposit" buys, and a "Withdrawal" sells, the total of the row's currency, with the fee in that currency. |
| CoinbaseProperties.TransfersBuyUsesHeaderAsset | BittyTax-master/src/bittytax/conv/parsers/coinbase.py:434-445 | A transfers-report "Buy" buys the quantity in the column named by the header's third cell, with that name as the asset, for the subtotal. |
| CoinbaseProperties.TransfersSellUsesHeaderAsset | BittyTax-master/src/bittytax/conv/parsers/coinbase.py:446-457 | A transfers-report "Sell" is the mirror image of a "Buy". |
| CoinbaseProperties.TransfersUnknownTypeFails | BittyTax-master/src/bittytax/conv/parsers/coinbase.py:458-459 | `UnexpectedTypeError` on the Type column if and only if the type is none of the four. |

## Left out

- File reading and the `DataParser` engine are not part of this model.
- The library's own `DataRow` is not modelled: its parse and failure bookkeeping and its other fields are left out.
  - `DataRows.DataRow` keeps only the row, `row_dict` and the three fields a handler assigns, and applies a handler's effects to them.
  - Header matching (same width, position by position) and the first-match-wins order are this model's own definitions.
  - `row_dict` is `dict(zip(in_header, row))`.
- `DataParser.parse_timestamp` and `DataParser.convert_currency` are parameters (`Coinbase.Env`).
  - Their own failures, other than an unreadable timestamp, are not modelled.
- The warning text written to standard error, with its colour codes, is not modelled. Only its content is (row number, quote, currency).
- `TxRawPos` is reduced to its `tx_dest_pos`.
- `TransactionOutRecord`'s own validation of its arguments is not modelled.
- Regular expressions are modelled on ASCII: `\d` and `\w` accept only ASCII digits, letters and `_`.
- `Decimal` is an exact rational, so precision, rounding and signed zero are not modelled.
  - The strings `Decimal` reads as Infinity or NaN, and underscores in digits, are rejected by the model.
  - Non-ASCII digits, and the non-ASCII whitespace `Decimal` trims (such as U+00A0, U+2000 to U+200A and U+3000), are rejected as well.
- The model proves no general law for negatives from `Decimal`'s string syntax. The lemmas take the parsed amount as given.
- `list.index` raising `ValueError` is the error `NotInHeader`.
  - This matters only for a Notes or Type column missing from a header row. The registered definitions always have one.
- `bitty.py` and the GUI only call the parser, so they are outside this model.
