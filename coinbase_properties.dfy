/** What the Coinbase handlers promise: fee arithmetic, sign normalisation, which branch a row
    takes, and which rows fail. */
module CoinbaseProperties {
  import opened Wrappers
  import opened Text
  import opened Decimals
  import opened Records
  import opened Notes
  import opened Rows
  import opened Coinbase

  /** The row's transaction type is `t`. */
  predicate TypeIs(row: Row, t: string) {
    "Transaction Type" in row.dict && row.dict["Transaction Type"] == t
  }

  /** The row's "Quantity Transacted" is a number `Decimal` reads as `q`, and it has an
      asset. */
  predicate HasQuantity(row: Row, q: Decimal) {
    QuantityColumn in row.dict && ParseDecimal(row.dict[QuantityColumn]) == Some(q)
    && "Asset" in row.dict
  }

  // Which branch a type takes.

  /** The buy and sell types come after every other branch's types in the dispatch order. */
  lemma BuySellTypesAreLater(t: string)
    requires t in BuyTypes || t in SellTypes
    ensures t != "Deposit" && t != "Withdrawal" && t != "Receive" && t != "Send" && t != FeeRebateType
    ensures t !in ProDepositTypes && t !in ProWithdrawalTypes && t !in IncomeTypes && t !in StakingTypes
  {
  }

  /** "Convert" is none of the types before its branch. */
  lemma ConvertTypeIsLast()
    ensures "Convert" !in ProDepositTypes + ProWithdrawalTypes + IncomeTypes + StakingTypes
    ensures "Convert" !in BuyTypes + SellTypes
    ensures "Convert" != "Deposit" && "Convert" != "Withdrawal" && "Convert" != "Receive"
    ensures "Convert" != "Send" && "Convert" != FeeRebateType
  {
  }

  /** "Send" is none of the types before its branch. */
  lemma SendTypeIsLater()
    ensures "Send" !in ProDepositTypes + ProWithdrawalTypes + IncomeTypes + StakingTypes
    ensures "Send" != "Deposit" && "Send" != "Withdrawal" && "Send" != "Receive" && "Send" != FeeRebateType
  {
  }

  /** "Receive" is none of the types before its branch. */
  lemma ReceiveTypeIsLater()
    ensures "Receive" !in ProDepositTypes + ProWithdrawalTypes
    ensures "Receive" != "Deposit" && "Receive" != "Withdrawal"
  {
  }

  /** No sell type is a buy type. */
  lemma SellTypesAreNotBuyTypes(t: string)
    requires t in SellTypes
    ensures t !in BuyTypes
  {
  }

  /** A buy or sell type takes the "Buy"/"Sell" branch. */
  lemma DispatchBuyOrSell(p: Parser, row: Row, ts: Timestamp, fv: FiatValues, cfg: Config, t: string)
    requires TypeIs(row, t) && (t in BuyTypes || t in SellTypes)
    ensures DoParseCoinbase(p, row, ts, fv, cfg) == BuyOrSell(p, row, ts, fv, cfg, t)
  {
    BuySellTypesAreLater(t);
  }

  /** "Convert" takes the convert branch. */
  lemma DispatchConvert(p: Parser, row: Row, ts: Timestamp, fv: FiatValues, cfg: Config)
    requires TypeIs(row, "Convert")
    ensures DoParseCoinbase(p, row, ts, fv, cfg) == Only(Convert(p, row.dict, ts, fv.total))
  {
    ConvertTypeIsLast();
  }

  /** "Receive" takes the receive branch. */
  lemma DispatchReceive(p: Parser, row: Row, ts: Timestamp, fv: FiatValues, cfg: Config)
    requires TypeIs(row, "Receive")
    ensures DoParseCoinbase(p, row, ts, fv, cfg) == Only(Receive(row.dict, ts, fv.spotPrice))
  {
    ReceiveTypeIsLater();
  }

  /** "Send" takes the send branch. */
  lemma DispatchSend(p: Parser, row: Row, ts: Timestamp, fv: FiatValues, cfg: Config)
    requires TypeIs(row, "Send")
    ensures DoParseCoinbase(p, row, ts, fv, cfg)
         == match IndexOf(p.inHeader, "Notes")
            case None => Only(Failure(NotInHeader("Notes")))
            case Some(i) => Outcome(Some(i), None, SellRecord(row.dict, ts))
  {
    SendTypeIsLater();
  }

  /** "Withdrawal" takes the fiat withdrawal branch. */
  lemma DispatchWithdrawal(p: Parser, row: Row, ts: Timestamp, fv: FiatValues, cfg: Config)
    requires TypeIs(row, "Withdrawal")
    ensures DoParseCoinbase(p, row, ts, fv, cfg) == Only(FiatWithdrawal(row.dict, ts, fv.fees))
  {
  }

  /** A reward type is none of the types before its branch, and each reward type is in one
      reward set only. */
  lemma RewardTypesAreLater(t: string)
    requires t in IncomeTypes || t in StakingTypes || t == FeeRebateType
    ensures t != "Deposit" && t != "Withdrawal" && t != "Receive"
    ensures t !in ProDepositTypes && t !in ProWithdrawalTypes
    ensures t in StakingTypes ==> t !in IncomeTypes
    ensures t == FeeRebateType ==> t !in IncomeTypes && t !in StakingTypes
  {
  }

  /** A reward type takes its reward branch. */
  lemma DispatchReward(p: Parser, row: Row, ts: Timestamp, fv: FiatValues, cfg: Config, t: string)
    requires TypeIs(row, t) && (t in IncomeTypes || t in StakingTypes || t == FeeRebateType)
    ensures DoParseCoinbase(p, row, ts, fv, cfg) == Only(BuyRecord(row.dict, ts, RewardKind(t), fv.total))
  {
    RewardTypesAreLater(t);
  }

  /** A withdrawal from Coinbase Pro takes its branch. */
  lemma DispatchProWithdrawal(p: Parser, row: Row, ts: Timestamp, fv: FiatValues, cfg: Config, t: string)
    requires TypeIs(row, t) && t in ProWithdrawalTypes
    ensures DoParseCoinbase(p, row, ts, fv, cfg) == Only(BuyRecord(row.dict, ts, Deposit, None))
  {
  }

  /** A type outside the known set is none of the types any branch tests for. */
  lemma UnknownTypeHasNoBranch(t: string)
    requires t !in KnownTypes
    ensures t != "Deposit" && t != "Withdrawal" && t != "Receive" && t != "Send"
    ensures t != "Convert" && t != FeeRebateType
    ensures t !in ProDepositTypes && t !in ProWithdrawalTypes && t !in IncomeTypes
    ensures t !in StakingTypes && t !in BuyTypes && t !in SellTypes
  {
  }

  /** A type outside the known set takes the final branch. */
  lemma DispatchUnknown(p: Parser, row: Row, ts: Timestamp, fv: FiatValues, cfg: Config, t: string)
    requires TypeIs(row, t) && t !in KnownTypes
    ensures DoParseCoinbase(p, row, ts, fv, cfg) == Only(UnexpectedTypeOf(p, "Transaction Type", t))
  {
    UnknownTypeHasNoBranch(t);
  }

  // Fiat deposits and withdrawals.

  /** A fiat deposit books the quantity plus the magnitude of a non-zero fee, so that what is
      left after the fee is the quantity transacted; without a fee it books the quantity. The
      fee is in the deposited asset. */
  lemma DepositAddsFeeBack(p: Parser, row: Row, ts: Timestamp, fv: FiatValues, cfg: Config, q: Decimal)
    requires TypeIs(row, "Deposit") && HasQuantity(row, q)
    ensures var o := DoParseCoinbase(p, row, ts, fv, cfg);
      o.txDestPos.None? && o.warning.None? && o.result.Success?
      && o.result.value.trType == Deposit
      && o.result.value.buyAsset == o.result.value.feeAsset == row.dict["Asset"]
      && o.result.value.feeQuantity == fv.fees
      && (Truthy(fv.fees) ==>
            o.result.value.buyQuantity.value - Abs(o.result.value.feeQuantity.value) == q)
      && (!Truthy(fv.fees) ==> o.result.value.buyQuantity == Some(q))
  {
  }

  /** A fiat withdrawal books the quantity less the magnitude of a non-zero fee, so that the
      amount sold and the fee together are the quantity transacted. The fee recorded is the
      magnitude of the fee, present exactly when there is one. */
  lemma WithdrawalNetsFee(p: Parser, row: Row, ts: Timestamp, fv: FiatValues, cfg: Config, q: Decimal)
    requires TypeIs(row, "Withdrawal") && HasQuantity(row, q)
    ensures var o := DoParseCoinbase(p, row, ts, fv, cfg);
      o.txDestPos.None? && o.warning.None? && o.result.Success?
      && o.result.value.trType == Withdrawal
      && o.result.value.sellAsset == o.result.value.feeAsset == row.dict["Asset"]
      && o.result.value.feeQuantity == AbsFee(fv.fees)
      && (fv.fees.Some? <==> o.result.value.feeQuantity.Some?)
      && (o.result.value.feeQuantity.Some? ==> o.result.value.feeQuantity.value >= 0.0)
      && (Truthy(fv.fees) ==>
            o.result.value.sellQuantity.Some? && o.result.value.sellQuantity.value == q - Abs(fv.fees.value))
      && (Truthy(fv.fees) ==>
            o.result.value.sellQuantity.value + o.result.value.feeQuantity.value == q)
      && (!Truthy(fv.fees) ==> o.result.value.sellQuantity == Some(q))
  {
    DispatchWithdrawal(p, row, ts, fv, cfg);
  }

  // Transfers to and from Coinbase Pro.

  /** A deposit to Coinbase Pro leaves this wallet: a withdrawal of the quantity of the asset,
      without fee or value. */
  lemma ProDepositIsWithdrawal(p: Parser, row: Row, ts: Timestamp, fv: FiatValues, cfg: Config, t: string, q: Decimal)
    requires t in ProDepositTypes && TypeIs(row, t) && HasQuantity(row, q)
    ensures DoParseCoinbase(p, row, ts, fv, cfg)
         == Only(Success(Record(Withdrawal, ts, sellQuantity := Some(q), sellAsset := row.dict["Asset"],
                                wallet := Wallet)))
  {
  }

  /** A withdrawal from Coinbase Pro arrives in this wallet: a deposit of the quantity of the
      asset, without fee or value. */
  lemma ProWithdrawalIsDeposit(p: Parser, row: Row, ts: Timestamp, fv: FiatValues, cfg: Config, t: string, q: Decimal)
    requires t in ProWithdrawalTypes && TypeIs(row, t) && HasQuantity(row, q)
    ensures DoParseCoinbase(p, row, ts, fv, cfg)
         == Only(Success(Record(Deposit, ts, buyQuantity := Some(q), buyAsset := row.dict["Asset"],
                                wallet := Wallet)))
  {
    DispatchProWithdrawal(p, row, ts, fv, cfg, t);
    BoughtQuantity(row.dict, ts, Deposit, None, q);
  }

  // Rewards.

  /** The kind of record a reward type books. */
  function RewardKind(t: string): TrType {
    if t in IncomeTypes then Income else if t in StakingTypes then Staking else FeeRebate
  }

  /** Earn and learning rewards are income, staking rewards are staking, and subscription
      rebates are fee rebates; each buys the quantity of the asset, valued at the total. */
  lemma RewardIsValuedAtTotal(p: Parser, row: Row, ts: Timestamp, fv: FiatValues, cfg: Config, t: string, q: Decimal)
    requires t in IncomeTypes || t in StakingTypes || t == FeeRebateType
    requires TypeIs(row, t) && HasQuantity(row, q)
    ensures DoParseCoinbase(p, row, ts, fv, cfg)
         == Only(Success(Record(RewardKind(t), ts, buyQuantity := Some(q), buyAsset := row.dict["Asset"],
                                buyValue := fv.total, wallet := Wallet)))
  {
    DispatchReward(p, row, ts, fv, cfg, t);
    BoughtQuantity(row.dict, ts, RewardKind(t), fv.total, q);
  }

  /** The record that buys a quantity reading as `q`. */
  lemma BoughtQuantity(d: map<string, string>, ts: Timestamp, kind: TrType, value: Option<Decimal>, q: Decimal)
    requires QuantityColumn in d && ParseDecimal(d[QuantityColumn]) == Some(q) && "Asset" in d
    ensures BuyRecord(d, ts, kind, value)
         == Success(Record(kind, ts, buyQuantity := Some(q), buyAsset := d["Asset"], buyValue := value,
                           wallet := Wallet))
  {
  }

  /** A quantity `Decimal` does not accept makes a deposit raise `InvalidOperation` on it. */
  lemma DepositRejectsBadQuantity(p: Parser, row: Row, ts: Timestamp, fv: FiatValues, cfg: Config)
    requires TypeIs(row, "Deposit") && QuantityColumn in row.dict
    requires ParseDecimal(row.dict[QuantityColumn]).None?
    ensures DoParseCoinbase(p, row, ts, fv, cfg).result
         == Failure(InvalidDecimal(row.dict[QuantityColumn]))
  {
  }

  // Unknown types.

  /** A row fails with `UnexpectedTypeError` naming the "Transaction Type" column exactly when
      its type has no branch, and then no record is built. */
  lemma UnknownTypeFailsClosed(p: Parser, row: Row, ts: Timestamp, fv: FiatValues, cfg: Config, t: string)
    requires TypeIs(row, t) && "Transaction Type" in p.inHeader
    ensures var o := DoParseCoinbase(p, row, ts, fv, cfg);
      (o.result.Failure? && o.result.error.UnexpectedType?) <==> t !in KnownTypes
    ensures var o := DoParseCoinbase(p, row, ts, fv, cfg);
      t !in KnownTypes ==>
        o == Outcome(None, None, Failure(UnexpectedType(
          IndexOf(p.inHeader, "Transaction Type").value, "Transaction Type", t)))
  {
    if t !in KnownTypes {
      DispatchUnknown(p, row, ts, fv, cfg, t);
    }
  }

  // Receive.

  /** A "Receive" is a referral when the notes mention "Coinbase Referral", else an income when
      they mention "Coinbase Earn" or "Coinbase Rewards", valued at spot price times quantity
      when there is a spot price; otherwise it is a crypto deposit without a value. */
  lemma ReceiveClassification(p: Parser, row: Row, ts: Timestamp, fv: FiatValues, cfg: Config, q: Decimal)
    requires TypeIs(row, "Receive") && HasQuantity(row, q) && "Notes" in row.dict
    ensures var o := DoParseCoinbase(p, row, ts, fv, cfg);
      var notes := row.dict["Notes"];
      o.result.Success?
      && o.result.value.buyQuantity == Some(q) && o.result.value.buyAsset == row.dict["Asset"]
      && (Contains(notes, "Coinbase Referral") ==> o.result.value.trType == Referral)
      && (!Contains(notes, "Coinbase Referral")
          && (Contains(notes, "Coinbase Earn") || Contains(notes, "Coinbase Rewards"))
          ==> o.result.value.trType == Income)
      && (o.result.value.trType != Deposit ==>
            o.result.value.buyValue == (if Truthy(fv.spotPrice) then Some(Times(fv.spotPrice.value, q)) else None))
      && (o.result.value.trType == Deposit <==>
            !Contains(notes, "Coinbase Referral") && !Contains(notes, "Coinbase Earn")
            && !Contains(notes, "Coinbase Rewards"))
      && (o.result.value.trType == Deposit ==> o.result.value.buyValue.None?)
  {
    DispatchReceive(p, row, ts, fv, cfg);
    var d := row.dict;
    var bv := ReceiveValue(d, fv.spotPrice);
    assert bv.Success?;
    assert bv.value == (if Truthy(fv.spotPrice) then Some(Times(fv.spotPrice.value, q)) else None);
  }

  /** A "Send" records the first Notes column of the header as the transaction's destination
      and withdraws the quantity. */
  lemma SendIsWithdrawal(p: Parser, row: Row, ts: Timestamp, fv: FiatValues, cfg: Config, q: Decimal)
    requires TypeIs(row, "Send") && HasQuantity(row, q) && "Notes" in p.inHeader
    ensures var o := DoParseCoinbase(p, row, ts, fv, cfg);
      o.txDestPos.Some? && o.txDestPos.value < |p.inHeader| && p.inHeader[o.txDestPos.value] == "Notes"
      && "Notes" !in p.inHeader[..o.txDestPos.value]
      && o.result.Success?
      && o.result.value.trType == Withdrawal && o.result.value.sellQuantity == Some(q)
      && o.result.value.sellAsset == row.dict["Asset"]
  {
    DispatchSend(p, row, ts, fv, cfg);
  }

  // Buys and sells.

  /** A buy or a sell fails with `UnexpectedContentError` on the Notes column exactly when
      `_get_note_currency` finds no currency in the notes. */
  lemma BuySellNeedNoteCurrency(p: Parser, row: Row, ts: Timestamp, fv: FiatValues, cfg: Config, t: string)
    requires t in BuyTypes || t in SellTypes
    requires TypeIs(row, t) && "Notes" in row.dict && "Notes" in p.inHeader
    ensures var o := DoParseCoinbase(p, row, ts, fv, cfg);
      (o.result.Failure? && o.result.error.UnexpectedContent?)
        <==> GetNoteCurrency(row.dict["Notes"]).0.None?
    ensures var o := DoParseCoinbase(p, row, ts, fv, cfg);
      GetNoteCurrency(row.dict["Notes"]).0.None? ==>
        o == Outcome(None, None, Failure(UnexpectedContent(
          IndexOf(p.inHeader, "Notes").value, "Notes", row.dict["Notes"])))
  {
    DispatchBuyOrSell(p, row, ts, fv, cfg, t);
  }

  /** The row's notes name a currency, and a mismatching quote can be reported. */
  predicate NotesUsable(p: Parser, row: Row, fv: FiatValues) {
    "Notes" in row.dict
    && GetNoteCurrency(row.dict["Notes"]).0.Some?
    && (GetNoteCurrency(row.dict["Notes"]).1 == fv.currency || p.inHeaderRowNum.Some?)
  }

  /** With the gifts option on, a plain "Buy" whose fee is zero is a referral of the quantity,
      valued at the total only when the total is positive. */
  lemma ZeroFeeBuyIsReferral(p: Parser, row: Row, ts: Timestamp, fv: FiatValues, cfg: Config, q: Decimal)
    requires TypeIs(row, "Buy") && HasQuantity(row, q) && NotesUsable(p, row, fv)
    requires cfg.coinbaseZeroFeesAreGifts && fv.fees == Some(0.0)
    ensures var o := DoParseCoinbase(p, row, ts, fv, cfg);
      o.result.Success? && o.result.value.trType == Referral
      && o.result.value.buyQuantity == Some(q) && o.result.value.buyAsset == row.dict["Asset"]
      && (o.result.value.buyValue.Some? <==> fv.total.Some? && fv.total.value > 0.0)
      && (o.result.value.buyValue.Some? ==> o.result.value.buyValue == fv.total)
      && o.result.value.sellQuantity.None? && o.result.value.feeQuantity.None?
  {
    DispatchBuyOrSell(p, row, ts, fv, cfg, "Buy");
  }

  /** Every other buy is a trade of the subtotal in the configured currency for the quantity
      of the asset, with the magnitude of the fee charged in the configured currency. */
  lemma BuyIsTrade(p: Parser, row: Row, ts: Timestamp, fv: FiatValues, cfg: Config, t: string, q: Decimal)
    requires t in BuyTypes && TypeIs(row, t) && HasQuantity(row, q) && NotesUsable(p, row, fv)
    requires !(cfg.coinbaseZeroFeesAreGifts && t == "Buy" && fv.fees == Some(0.0))
    ensures var o := DoParseCoinbase(p, row, ts, fv, cfg);
      o.result.Success? && o.result.value.trType == Trade
      && o.result.value.buyQuantity == Some(q) && o.result.value.buyAsset == row.dict["Asset"]
      && o.result.value.sellQuantity == fv.subtotal && o.result.value.sellAsset == cfg.ccy
      && o.result.value.feeQuantity == AbsFee(fv.fees) && o.result.value.feeAsset == cfg.ccy
  {
    DispatchBuyOrSell(p, row, ts, fv, cfg, t);
  }

  /** A sell is a trade of the quantity of the asset for the subtotal in the configured
      currency, with the magnitude of the fee charged in the configured currency. */
  lemma SellIsTrade(p: Parser, row: Row, ts: Timestamp, fv: FiatValues, cfg: Config, t: string, q: Decimal)
    requires t in SellTypes && TypeIs(row, t) && HasQuantity(row, q) && NotesUsable(p, row, fv)
    ensures var o := DoParseCoinbase(p, row, ts, fv, cfg);
      o.result.Success? && o.result.value.trType == Trade
      && o.result.value.sellQuantity == Some(q) && o.result.value.sellAsset == row.dict["Asset"]
      && o.result.value.buyQuantity == fv.subtotal && o.result.value.buyAsset == cfg.ccy
      && o.result.value.feeQuantity == AbsFee(fv.fees) && o.result.value.feeAsset == cfg.ccy
  {
    DispatchBuyOrSell(p, row, ts, fv, cfg, t);
    SellTypesAreNotBuyTypes(t);
  }

  /** The file's currency affects nothing but the warning: as long as a warning can be
      reported, the record or error and the destination position do not depend on it. */
  lemma CurrencyOnlyAffectsWarning(p: Parser, row: Row, ts: Timestamp, fv: FiatValues, cfg: Config, currency: string)
    requires p.inHeaderRowNum.Some?
    ensures DoParseCoinbase(p, row, ts, fv, cfg).result
         == DoParseCoinbase(p, row, ts, fv.(currency := currency), cfg).result
    ensures DoParseCoinbase(p, row, ts, fv, cfg).txDestPos
         == DoParseCoinbase(p, row, ts, fv.(currency := currency), cfg).txDestPos
  {
    var fv' := fv.(currency := currency);
    if "Transaction Type" in row.dict {
      var t := row.dict["Transaction Type"];
      if t in BuyTypes || t in SellTypes {
        DispatchBuyOrSell(p, row, ts, fv, cfg, t);
        DispatchBuyOrSell(p, row, ts, fv', cfg, t);
        if "Notes" in row.dict {
          var notes := row.dict["Notes"];
          NotedTradeIgnoresCurrency(p, row, ts, fv, cfg, t, notes, GetNoteCurrency(notes), currency);
        }
      } else {
        OtherTypesIgnoreCurrency(p, row, ts, fv, cfg, t, currency);
      }
    }
  }

  /** Once the notes are read, the "Buy"/"Sell" branch's record or error does not depend on
      the file's currency. */
  lemma NotedTradeIgnoresCurrency(p: Parser, row: Row, ts: Timestamp, fv: FiatValues, cfg: Config, t: string,
                                  notes: string, note: (Option<string>, string), currency: string)
    requires p.inHeaderRowNum.Some?
    ensures NotedTrade(p, row, ts, fv, cfg, t, notes, note).result
         == NotedTrade(p, row, ts, fv.(currency := currency), cfg, t, notes, note).result
  {
    var fv' := fv.(currency := currency);
    assert BuyTrade(row.dict, ts, fv, cfg, t) == BuyTrade(row.dict, ts, fv', cfg, t);
    assert SellTrade(row.dict, ts, fv, cfg) == SellTrade(row.dict, ts, fv', cfg);
  }

  /** No other branch reads the file's currency at all. */
  lemma OtherTypesIgnoreCurrency(p: Parser, row: Row, ts: Timestamp, fv: FiatValues, cfg: Config, t: string, currency: string)
    requires TypeIs(row, t) && t !in BuyTypes && t !in SellTypes
    ensures DoParseCoinbase(p, row, ts, fv, cfg) == DoParseCoinbase(p, row, ts, fv.(currency := currency), cfg)
  {
  }

  /** A buy or sell warns exactly when the quote currency in the notes differs from the file's
      currency, naming the row's position in the file; without the header's row number that
      is a `RuntimeError` instead. */
  lemma QuoteMismatchWarns(p: Parser, row: Row, ts: Timestamp, fv: FiatValues, cfg: Config, t: string)
    requires t in BuyTypes || t in SellTypes
    requires TypeIs(row, t) && "Notes" in row.dict && GetNoteCurrency(row.dict["Notes"]).0.Some?
    ensures var o := DoParseCoinbase(p, row, ts, fv, cfg);
      var quote := GetNoteCurrency(row.dict["Notes"]).1;
      (o.warning.Some? <==> quote != fv.currency && p.inHeaderRowNum.Some?)
      && (o.warning.Some? ==>
            o.warning.value == QuoteMismatch(p.inHeaderRowNum.value + row.lineNum, quote, fv.currency))
      && (o.result == Failure(MissingHeaderRowNum) <==> quote != fv.currency && p.inHeaderRowNum.None?)
  {
    DispatchBuyOrSell(p, row, ts, fv, cfg, t);
    var notes := row.dict["Notes"];
    NotedTradeWarning(p, row, ts, fv, cfg, t, notes, GetNoteCurrency(notes));
    NotedTradeMissingRowNum(p, row, ts, fv, cfg, t, notes, GetNoteCurrency(notes));
  }

  /** The warning of the "Buy"/"Sell" branch for notes that name a currency. */
  lemma NotedTradeWarning(p: Parser, row: Row, ts: Timestamp, fv: FiatValues, cfg: Config, t: string,
                          notes: string, note: (Option<string>, string))
    requires note.0.Some?
    ensures NotedTrade(p, row, ts, fv, cfg, t, notes, note).warning
         == (if note.1 == fv.currency || p.inHeaderRowNum.None? then None
             else Some(QuoteMismatch(p.inHeaderRowNum.value + row.lineNum, note.1, fv.currency)))
  {
    var qw := QuoteWarning(p, row, note.1, fv.currency);
    assert NotedTrade(p, row, ts, fv, cfg, t, notes, note).warning == (if qw.Failure? then None else qw.value);
    QuoteWarningIs(p, row, note.1, fv.currency);
  }

  /** The warning for a quote currency, when it can be reported. */
  lemma QuoteWarningIs(p: Parser, row: Row, quote: string, currency: string)
    ensures var r := QuoteWarning(p, row, quote, currency);
      (if r.Failure? then None else r.value)
        == (if quote == currency || p.inHeaderRowNum.None? then None
            else Some(QuoteMismatch(p.inHeaderRowNum.value + row.lineNum, quote, currency)))
  {
  }

  /** The "Buy"/"Sell" branch raises `RuntimeError` only for a mismatching quote it cannot
      report. */
  lemma NotedTradeMissingRowNum(p: Parser, row: Row, ts: Timestamp, fv: FiatValues, cfg: Config, t: string,
                                notes: string, note: (Option<string>, string))
    requires note.0.Some?
    ensures (NotedTrade(p, row, ts, fv, cfg, t, notes, note).result == Failure(MissingHeaderRowNum))
        <==> note.1 != fv.currency && p.inHeaderRowNum.None?
  {
    if note.1 == fv.currency || p.inHeaderRowNum.Some? {
      if t in BuyTypes {
        var r := BuyTrade(row.dict, ts, fv, cfg, t);
        assert r.Failure? ==> IsCellError(r.error);
      } else {
        var r := SellTrade(row.dict, ts, fv, cfg);
        assert r.Failure? ==> IsCellError(r.error);
      }
    }
  }

  // Converts.

  /** A "Convert" whose notes are a convert phrase is a trade of the quantity of the asset for
      the phrase's second amount (commas removed) of its second asset, both sides valued at
      the total. */
  lemma ConvertIsTrade(p: Parser, row: Row, ts: Timestamp, fv: FiatValues, cfg: Config,
                       info: ConvertInfo, spaces: nat, newline: bool, bought: Decimal, q: Decimal)
    requires TypeIs(row, "Convert") && HasQuantity(row, q)
    requires IsConvertInfo(info) && "Notes" in row.dict
    requires row.dict["Notes"] == ConvertPhrase(info, spaces, newline)
    requires ParseDecimal(Filter(info.buyAmount, IsNotComma)) == Some(bought)
    ensures DoParseCoinbase(p, row, ts, fv, cfg).result == Success(Record(Trade, ts,
      buyQuantity := Some(bought), buyAsset := info.buyAsset, buyValue := fv.total,
      sellQuantity := Some(q), sellAsset := row.dict["Asset"], sellValue := fv.total,
      wallet := Wallet))
  {
    DispatchConvert(p, row, ts, fv, cfg);
    ConvertInfoComplete(info, spaces, newline);
  }

  /** A "Convert" whose notes are not a convert phrase fails with `UnexpectedContentError` on
      the Notes column. */
  lemma ConvertRejectsOtherNotes(p: Parser, row: Row, ts: Timestamp, fv: FiatValues, cfg: Config)
    requires TypeIs(row, "Convert") && "Notes" in row.dict && "Notes" in p.inHeader
    requires forall info: ConvertInfo, spaces: nat, newline: bool | IsConvertInfo(info) ::
      row.dict["Notes"] != ConvertPhrase(info, spaces, newline)
    ensures DoParseCoinbase(p, row, ts, fv, cfg).result
         == Failure(UnexpectedContent(IndexOf(p.inHeader, "Notes").value, "Notes", row.dict["Notes"]))
  {
    DispatchConvert(p, row, ts, fv, cfg);
    if GetConvertInfo(row.dict["Notes"]).Some? {
      ConvertInfoSound(row.dict["Notes"]);
    }
  }

  /** `[\d|,]` admits a vertical bar, which `.replace(",", "")` keeps and `Decimal` refuses: a
      convert note the expression accepts then fails with `InvalidOperation`. */
  lemma ConvertBarAmountFails(p: Parser, row: Row, ts: Timestamp, fv: FiatValues, cfg: Config,
                              info: ConvertInfo, spaces: nat, newline: bool)
    requires TypeIs(row, "Convert") && IsConvertInfo(info) && "Notes" in row.dict
    requires row.dict["Notes"] == ConvertPhrase(info, spaces, newline)
    requires '|' in info.buyAmount
    ensures DoParseCoinbase(p, row, ts, fv, cfg).result
         == Failure(InvalidDecimal(Filter(info.buyAmount, IsNotComma)))
  {
    DispatchConvert(p, row, ts, fv, cfg);
    ConvertInfoComplete(info, spaces, newline);
    var plain := Filter(info.buyAmount, IsNotComma);
    FilterMembers(info.buyAmount, IsNotComma, '|');
    ParseDecimalRejectsGrouping(plain);
  }

  // The "Coinbase Transactions" report.

  /** The row has an amount `Decimal` reads as `amount`, and a currency. */
  predicate HasAmount(row: Row, amount: Decimal) {
    "Amount" in row.dict && ParseDecimal(row.dict["Amount"]) == Some(amount)
    && "Currency" in row.dict
  }

  /** A row with a transaction hash is an external crypto transfer: a withdrawal when the
      amount is negative, else a deposit, of the amount's magnitude. */
  lemma HashRowIsCryptoTransfer(row: Row, ts: Timestamp, amount: Decimal)
    requires |row.cells| > HashColumn && row.cells[HashColumn] != "" && HasAmount(row, amount)
    ensures var r := TransactionRecord(row, ts);
      r.Success?
      && (amount < 0.0 ==>
            r.value.trType == Withdrawal && r.value.sellQuantity == Some(Abs(amount))
            && r.value.sellAsset == row.dict["Currency"] && r.value.buyQuantity.None? && r.value.buyAsset == "")
      && (amount >= 0.0 ==>
            r.value.trType == Deposit && r.value.buyQuantity == Some(Abs(amount))
            && r.value.buyAsset == row.dict["Currency"] && r.value.sellQuantity.None? && r.value.sellAsset == "")
  {
  }

  /** A row with neither hash nor transfer ID, with notes, in a currency other than BTC is
      always flagged as a duplicate, never a deposit or withdrawal, of the amount's
      magnitude. */
  lemma NotesNonBtcIsDuplicate(row: Row, ts: Timestamp, amount: Decimal)
    requires |row.cells| > HashColumn && row.cells[HashColumn] == ""
    requires "Transfer ID" in row.dict && row.dict["Transfer ID"] == ""
    requires "Notes" in row.dict && row.dict["Notes"] != ""
    requires HasAmount(row, amount) && row.dict["Currency"] != "BTC"
    ensures var r := TransactionRecord(row, ts);
      r.Success? && r.value.trType == Duplicate
      && r.value.trType != Deposit && r.value.trType != Withdrawal
      && (if amount < 0.0 then r.value.sellQuantity else r.value.buyQuantity) == Some(Abs(amount))
  {
  }

  /** A row with neither hash nor transfer ID but with notes in BTC is a referral bonus. */
  lemma NotesBtcIsReferral(row: Row, ts: Timestamp, amount: Decimal)
    requires |row.cells| > HashColumn && row.cells[HashColumn] == ""
    requires "Transfer ID" in row.dict && row.dict["Transfer ID"] == ""
    requires "Notes" in row.dict && row.dict["Notes"] != ""
    requires HasAmount(row, amount) && row.dict["Currency"] == "BTC"
    ensures var r := TransactionRecord(row, ts);
      r.Success? && r.value.trType == Referral && r.value.buyQuantity == Some(amount)
      && r.value.buyAsset == "BTC"
  {
  }

  /** A row with neither hash, transfer ID nor notes is a transfer to or from Coinbase Pro: a
      withdrawal of the amount's magnitude when it is negative, else a deposit. */
  lemma PlainRowIsProTransfer(row: Row, ts: Timestamp, amount: Decimal)
    requires |row.cells| > HashColumn && row.cells[HashColumn] == ""
    requires "Transfer ID" in row.dict && row.dict["Transfer ID"] == ""
    requires "Notes" in row.dict && row.dict["Notes"] == "" && HasAmount(row, amount)
    ensures var r := TransactionRecord(row, ts);
      r.Success?
      && (amount < 0.0 ==>
            r.value.trType == Withdrawal && r.value.sellQuantity == Some(Abs(amount))
            && r.value.sellAsset == row.dict["Currency"] && r.value.buyQuantity.None? && r.value.buyAsset == "")
      && (amount >= 0.0 ==>
            r.value.trType == Deposit && r.value.buyQuantity == Some(amount)
            && r.value.buyAsset == row.dict["Currency"] && r.value.sellQuantity.None? && r.value.sellAsset == "")
  {
  }

  /** The transfer cells of a row with a transfer ID. */
  predicate HasTransfer(row: Row, amount: Decimal, total: Decimal, fee: Decimal) {
    var d := row.dict;
    |row.cells| > HashColumn && row.cells[HashColumn] == ""
    && "Transfer ID" in d && d["Transfer ID"] != "" && HasAmount(row, amount)
    && "Transfer Total Currency" in d && "Transfer Total" in d && "Transfer Fee" in d
    && "Transfer Fee Currency" in d
    && ParseDecimal(d["Transfer Total"]) == Some(total) && ParseDecimal(d["Transfer Fee"]) == Some(fee)
  }

  /** A transfer in another currency is a trade whose fiat side, with the fee, balances the
      transfer total: a sale of the amount's magnitude buys the total plus the fee, and a
      purchase of the amount sells the total less the fee. */
  lemma TransferTradeBalancesFee(row: Row, ts: Timestamp, amount: Decimal, total: Decimal, fee: Decimal)
    requires HasTransfer(row, amount, total, fee)
    requires row.dict["Currency"] != row.dict["Transfer Total Currency"]
    ensures var r := TransactionRecord(row, ts);
      r.Success? && r.value.trType == Trade && r.value.feeQuantity == Some(fee)
      && r.value.feeAsset == row.dict["Transfer Fee Currency"]
      && (amount < 0.0 ==>
            r.value.sellQuantity == Some(Abs(amount)) && r.value.buyQuantity.value - fee == total
            && r.value.buyAsset == row.dict["Transfer Total Currency"]
            && r.value.sellAsset == row.dict["Currency"])
      && (amount >= 0.0 ==>
            r.value.buyQuantity == Some(amount) && r.value.sellQuantity.value + fee == total
            && r.value.sellAsset == row.dict["Transfer Total Currency"]
            && r.value.buyAsset == row.dict["Currency"])
  {
  }

  /** A transfer in the same currency is a fiat withdrawal or deposit of the transfer total. */
  lemma TransferInSameCurrency(row: Row, ts: Timestamp, amount: Decimal, total: Decimal, fee: Decimal)
    requires HasTransfer(row, amount, total, fee)
    requires row.dict["Currency"] == row.dict["Transfer Total Currency"]
    ensures var r := TransactionRecord(row, ts);
      r.Success? && r.value.feeQuantity == Some(fee)
      && r.value.feeAsset == row.dict["Transfer Fee Currency"]
      && (amount < 0.0 ==>
            r.value.trType == Withdrawal && r.value.sellQuantity == Some(total)
            && r.value.sellAsset == row.dict["Currency"] && r.value.buyQuantity.None? && r.value.buyAsset == "")
      && (amount >= 0.0 ==>
            r.value.trType == Deposit && r.value.buyQuantity == Some(total)
            && r.value.buyAsset == row.dict["Currency"] && r.value.sellQuantity.None? && r.value.sellAsset == "")
  {
  }

  /** A row too short to have the hash column fails with `IndexError`. */
  lemma ShortTransactionRowFails(row: Row, ts: Timestamp)
    requires |row.cells| <= HashColumn
    ensures TransactionRecord(row, ts) == Failure(IndexError(HashColumn))
  {
  }

  // The "Coinbase Transfers" report.

  /** A transfers-report "Buy" buys the quantity in the column named by the header's third
      cell, naming that cell as the asset, for the subtotal in the row's currency. */
  lemma TransfersBuyUsesHeaderAsset(p: Parser, row: Row, ts: Timestamp, q: Decimal, subtotal: Decimal, fee: Decimal)
    requires |p.inHeader| > 2
    requires "Type" in row.dict && row.dict["Type"] == "Buy"
    requires p.inHeader[2] in row.dict && ParseDecimal(row.dict[p.inHeader[2]]) == Some(q)
    requires "Subtotal" in row.dict && ParseDecimal(row.dict["Subtotal"]) == Some(subtotal)
    requires "Fees" in row.dict && ParseDecimal(row.dict["Fees"]) == Some(fee)
    requires "Currency" in row.dict
    ensures TransferRecord(p, row.dict, ts) == Success(Record(Trade, ts,
      buyQuantity := Some(q), buyAsset := p.inHeader[2], sellQuantity := Some(subtotal),
      sellAsset := row.dict["Currency"], feeQuantity := Some(fee),
      feeAsset := row.dict["Currency"], wallet := Wallet))
  {
  }

  /** A transfers-report "Deposit" or "Withdrawal" moves the total of the row's currency, with
      the fee in the same currency. */
  lemma TransfersFiatMovesTotal(p: Parser, row: Row, ts: Timestamp, total: Decimal, fee: Decimal)
    requires "Type" in row.dict && (row.dict["Type"] == "Deposit" || row.dict["Type"] == "Withdrawal")
    requires "Total" in row.dict && ParseDecimal(row.dict["Total"]) == Some(total)
    requires "Fees" in row.dict && ParseDecimal(row.dict["Fees"]) == Some(fee)
    requires "Currency" in row.dict
    ensures var r := TransferRecord(p, row.dict, ts);
      var c := row.dict["Currency"];
      r.Success? && r.value.feeQuantity == Some(fee) && r.value.feeAsset == c
      && (row.dict["Type"] == "Deposit" ==>
            r.value.trType == Deposit && r.value.buyQuantity == Some(total) && r.value.buyAsset == c)
      && (row.dict["Type"] == "Withdrawal" ==>
            r.value.trType == Withdrawal && r.value.sellQuantity == Some(total) && r.value.sellAsset == c)
  {
  }

  /** A transfers-report "Sell" sells the quantity in the column named by the header's third
      cell, naming that cell as the asset, for the subtotal in the row's currency. */
  lemma TransfersSellUsesHeaderAsset(p: Parser, row: Row, ts: Timestamp, q: Decimal, subtotal: Decimal, fee: Decimal)
    requires |p.inHeader| > 2
    requires "Type" in row.dict && row.dict["Type"] == "Sell"
    requires p.inHeader[2] in row.dict && ParseDecimal(row.dict[p.inHeader[2]]) == Some(q)
    requires "Subtotal" in row.dict && ParseDecimal(row.dict["Subtotal"]) == Some(subtotal)
    requires "Fees" in row.dict && ParseDecimal(row.dict["Fees"]) == Some(fee)
    requires "Currency" in row.dict
    ensures TransferRecord(p, row.dict, ts) == Success(Record(Trade, ts,
      buyQuantity := Some(subtotal), buyAsset := row.dict["Currency"], sellQuantity := Some(q),
      sellAsset := p.inHeader[2], feeQuantity := Some(fee),
      feeAsset := row.dict["Currency"], wallet := Wallet))
  {
  }

  /** A transfers-report row fails with `UnexpectedTypeError` on the Type column exactly when
      its type is not Deposit, Withdrawal, Buy or Sell. */
  lemma TransfersUnknownTypeFails(p: Parser, row: Row, ts: Timestamp, t: string)
    requires "Type" in row.dict && row.dict["Type"] == t && "Type" in p.inHeader
    ensures var r := TransferRecord(p, row.dict, ts);
      (r.Failure? && r.error.UnexpectedType?) <==> t !in {"Deposit", "Withdrawal", "Buy", "Sell"}
    ensures var r := TransferRecord(p, row.dict, ts);
      t !in {"Deposit", "Withdrawal", "Buy", "Sell"} ==>
        r == Failure(UnexpectedType(IndexOf(p.inHeader, "Type").value, "Type", t))
  {
  }
}
