/** What the format table guarantees the schema handlers: a header row a definition accepts
    names every column the handler reads, except where the v1 patterns accept more than the
    handler can look up. */
module SchemaProperties {
  import opened Wrappers
  import opened Text
  import opened Records
  import opened Headers
  import opened Rows
  import opened Coinbase

  /** A literal column of an accepted header is a key of the row dictionary of every row at
      least as wide as the header. */
  lemma LiteralColumnInRow(ms: seq<Matcher>, header: seq<string>, cells: seq<string>, k: nat)
    requires HeaderMatches(ms, header) && |cells| >= |header|
    requires k < |ms| && ms[k].Literal?
    ensures ms[k].name in RowDict(header, cells)
  {
    assert ColumnMatches(ms[k], header[k]);
    assert header[..Min(|header|, |cells|)] == header;
  }

  /** A v4 header row (with or without the ID column) names all five fiat columns, so
      `parse_coinbase_v4` reads them without a `KeyError`. */
  lemma FiatV4Reads(header: seq<string>, cells: seq<string>, ts: Timestamp, env: Env)
    requires HeaderMatches(V4.header, header) || HeaderMatches(V4WithId.header, header)
    requires |cells| >= |header|
    ensures FiatV4(RowDict(header, cells), ts, env).Success?
  {
    var price, spot, sub, total, fees := "Price Currency", "Price at Transaction", "Subtotal",
      "Total (inclusive of fees and/or spread)", "Fees and/or Spread";
    if HeaderMatches(V4.header, header) {
      FiveColumnsPresent(V4.header, header, cells, 4, price, spot, sub, total, fees);
    } else {
      FiveColumnsPresent(V4WithId.header, header, cells, 5, price, spot, sub, total, fees);
    }
  }

  /** The five literal columns from `k` on of an accepted header are keys of the row
      dictionary. */
  lemma FiveColumnsPresent(ms: seq<Matcher>, header: seq<string>, cells: seq<string>, k: nat,
                           a: string, b: string, c: string, d: string, e: string)
    requires HeaderMatches(ms, header) && |cells| >= |header| && k + 5 <= |ms|
    requires ms[k..k + 5] == [Literal(a), Literal(b), Literal(c), Literal(d), Literal(e)]
    ensures var row := RowDict(header, cells);
      a in row && b in row && c in row && d in row && e in row
  {
    assert ms[k] == ms[k..k + 5][0] && ms[k + 1] == ms[k..k + 5][1] && ms[k + 2] == ms[k..k + 5][2];
    assert ms[k + 3] == ms[k..k + 5][3] && ms[k + 4] == ms[k..k + 5][4];
    LiteralColumnInRow(ms, header, cells, k);
    LiteralColumnInRow(ms, header, cells, k + 1);
    LiteralColumnInRow(ms, header, cells, k + 2);
    LiteralColumnInRow(ms, header, cells, k + 3);
    LiteralColumnInRow(ms, header, cells, k + 4);
  }

  /** A v3 header row names all five fiat columns `parse_coinbase_v3` reads. */
  lemma FiatV3Reads(header: seq<string>, cells: seq<string>, ts: Timestamp, env: Env)
    requires HeaderMatches(V3.header, header) && |cells| >= |header|
    ensures FiatV3(RowDict(header, cells), ts, env).Success?
  {
    FiveColumnsPresent(V3.header, header, cells, 4, "Spot Price Currency",
      "Spot Price at Transaction", "Subtotal", "Total (inclusive of fees and/or spread)",
      "Fees and/or Spread");
  }

  /** A v2 header row names all five fiat columns `parse_coinbase_v2` reads. */
  lemma FiatV2Reads(header: seq<string>, cells: seq<string>, ts: Timestamp, env: Env)
    requires HeaderMatches(V2.header, header) && |cells| >= |header|
    ensures FiatV2(RowDict(header, cells), ts, env).Success?
  {
    FiveColumnsPresent(V2.header, header, cells, 4, "Spot Price Currency",
      "Spot Price at Transaction", "Subtotal", "Total (inclusive of fees)", "Fees");
  }

  /** A row of a v4 file, at least as wide as its header row, whose timestamp parses reaches
      `_do_parse_coinbase` with the fiat values `parse_coinbase_v4` read. */
  lemma V4RowReachesDispatch(p: Parser, header: seq<string>, cells: seq<string>, lineNum: int,
                             env: Env, cfg: Config, ts: Timestamp)
    requires HeaderMatches(V4.header, header) || HeaderMatches(V4WithId.header, header)
    requires |cells| >= |header|
    requires var d := RowDict(header, cells);
      "Timestamp" in d && env.parseTimestamp(d["Timestamp"]) == Some(ts)
    ensures var row := MakeRow(header, cells, lineNum);
      var fv := FiatV4(row.dict, ts, env);
      fv.Success?
      && Handle(CoinbaseV4, p, row, env, cfg) == Stamped(ts, DoParseCoinbase(p, row, ts, fv.value, cfg))
  {
    FiatV4Reads(header, cells, ts, env);
  }

  /** Every schema reads its timestamp from a literal "Timestamp" column, so an accepted
      header row with a full row never fails for want of it. */
  lemma TimestampColumnPresent(i: nat, header: seq<string>, cells: seq<string>)
    requires i < |Registry| && HeaderMatches(Registry[i].header, header) && |cells| >= |header|
    ensures "Timestamp" in RowDict(header, cells)
  {
    var k := if i == 0 then 1 else 0;
    LiteralColumnInRow(Registry[i].header, header, cells, k);
  }

  /** The first capture of a header match is the code of its first pattern column. */
  lemma {:induction false} FirstCapture(ms: seq<Matcher>, header: seq<string>, k: nat)
    requires MatchHeader(ms, header).Some?
    requires k < |ms| && ms[k].CurrencyPattern?
    requires forall j :: 0 <= j < k ==> !ms[j].CurrencyPattern?
    ensures |MatchHeader(ms, header).value| > 0
    ensures MatchHeader(ms, header).value[0] == header[k][..3]
  {
    assert ColumnMatches(ms[0], header[0]);
    if k > 0 {
      assert MatchHeader(ms, header) == MatchHeader(ms[1..], header[1..]);
      FirstCapture(ms[1..], header[1..], k - 1);
    }
  }

  /** The v1 definition: nine columns, the first currency pattern at position 4. */
  lemma V1Shape()
    ensures |V1.header| == 9 && V1.header[4].CurrencyPattern?
    ensures forall j :: 0 <= j < 4 ==> !V1.header[j].CurrencyPattern?
  {
  }

  /** A header row the v1 definition accepts yields, as `args[0]`, the code its spot-price
      column starts with. */
  lemma V1FirstCapture(header: seq<string>)
    requires HeaderMatches(V1.header, header)
    ensures MatchHeader(V1.header, header).Some?
    ensures |MatchHeader(V1.header, header).value| > 0
    ensures MatchHeader(V1.header, header).value[0] == header[4][..3]
  {
    V1Shape();
    FirstCapture(V1.header, header, 4);
  }

  /** The v1 header row of a file in one currency: every fiat column is named after it. */
  function V1Header(code: string): seq<string> {
    ["Timestamp", "Transaction Type", "Asset", "Quantity Transacted",
     code + " Spot Price at Transaction", code + " Subtotal", code + " Total (inclusive of fees)",
     code + " Fees", "Notes"]
  }

  /** Every cell of a header row is a key of the row dictionary of a row at least as wide. */
  lemma HeaderCellInRow(header: seq<string>, cells: seq<string>, k: nat)
    requires k < |header| <= |cells|
    ensures header[k] in RowDict(header, cells)
  {
    assert header[..Min(|header|, |cells|)] == header;
  }

  /** A name that is no cell of the header row is no key of the row dictionary. */
  lemma AbsentFromRow(header: seq<string>, cells: seq<string>, key: string)
    requires key !in header
    ensures key !in RowDict(header, cells)
  {
    var n := Min(|header|, |cells|);
    assert forall j :: 0 <= j < n ==> header[..n][j] == header[j];
  }

  /** A cell made of a three-letter code and a pattern's suffix matches that pattern. */
  lemma CodedCellMatches(code: string, suffix: string)
    requires |code| == 3 && IsWord(code)
    ensures PatternMatches(suffix, code + suffix) && (code + suffix)[..3] == code
  {
    assert (code + suffix)[..3] == code;
    assert (code + suffix)[3..3 + |suffix|] == suffix;
  }

  /** The v1 definition accepts the header row of a file in one currency. */
  lemma V1HeaderMatches(code: string)
    requires |code| == 3 && IsWord(code)
    ensures HeaderMatches(V1.header, V1Header(code))
  {
    CodedCellMatches(code, " Spot Price at Transaction");
    CodedCellMatches(code, " Subtotal");
    CodedCellMatches(code, " Total (inclusive of fees)");
    CodedCellMatches(code, " Fees");
  }

  /** `parse_coinbase_v1` finds its four fiat columns under the first capture's code. */
  lemma FiatV1Finds(p: Parser, d: map<string, string>, ts: Timestamp, env: Env)
    requires |p.args| > 0
    requires var c := p.args[0];
      c + " Spot Price at Transaction" in d && c + " Subtotal" in d
      && c + " Total (inclusive of fees)" in d && c + " Fees" in d
    ensures FiatV1(p, d, ts, env).Success? && FiatV1(p, d, ts, env).value.currency == p.args[0]
  {
  }

  /** For a v1 header row in one currency, the header match captures that currency and
      `parse_coinbase_v1` finds every fiat column it names. */
  lemma FiatV1Reads(code: string, cells: seq<string>, ts: Timestamp, env: Env, rowNum: Option<int>)
    requires |code| == 3 && IsWord(code) && |cells| >= 9
    ensures MatchHeader(V1.header, V1Header(code)).Some?
    ensures var args := MatchHeader(V1.header, V1Header(code)).value;
      var r := FiatV1(Parser(V1Header(code), args, rowNum), RowDict(V1Header(code), cells), ts, env);
      r.Success? && r.value.currency == code
  {
    var header := V1Header(code);
    V1HeaderMatches(code);
    V1FirstCapture(header);
    var args := MatchHeader(V1.header, header).value;
    assert header[4][..3] == code;
    HeaderCellInRow(header, cells, 4);
    HeaderCellInRow(header, cells, 5);
    HeaderCellInRow(header, cells, 6);
    HeaderCellInRow(header, cells, 7);
    FiatV1Finds(Parser(header, args, rowNum), RowDict(header, cells), ts, env);
  }

  /** The v1 patterns capture a currency per column but the handler looks every column up
      under the first column's currency: a header row whose subtotal column names another
      currency is accepted, and its rows then fail with `KeyError`. */
  lemma MixedV1CurrenciesFail(code: string, other: string, cells: seq<string>, ts: Timestamp,
                              env: Env, rowNum: Option<int>)
    requires |code| == 3 && IsWord(code) && |other| == 3 && IsWord(other) && code != other
    requires |cells| >= 9
    ensures var header := V1Header(code)[5 := other + " Subtotal"];
      && HeaderMatches(V1.header, header)
      && var args := MatchHeader(V1.header, header).value;
      FiatV1(Parser(header, args, rowNum), RowDict(header, cells), ts, env)
        == Failure(KeyError(code + " Subtotal"))
  {
    V1HeaderMatches(code);
    CodedCellMatches(other, " Subtotal");
    var header := V1Header(code)[5 := other + " Subtotal"];
    assert HeaderMatches(V1.header, header);
    SubtotalNotNamed(code, other);
    V1FirstCapture(header);
    var args := MatchHeader(V1.header, header).value;
    assert args[0] == code by {
      assert header[4][..3] == code;
    }
    MissingSubtotalFails(header, args, code, cells, ts, env, rowNum);
  }

  /** A row under a header row whose spot-price column names `code`, the first capture, but
      which has no subtotal column for `code`, makes `parse_coinbase_v1` raise `KeyError` for
      it. */
  lemma MissingSubtotalFails(header: seq<string>, args: seq<string>, code: string,
                             cells: seq<string>, ts: Timestamp, env: Env, rowNum: Option<int>)
    requires 4 < |header| <= |cells| && |args| > 0 && args[0] == code
    requires header[4] == code + " Spot Price at Transaction" && code + " Subtotal" !in header
    ensures FiatV1(Parser(header, args, rowNum), RowDict(header, cells), ts, env)
      == Failure(KeyError(code + " Subtotal"))
  {
    HeaderCellInRow(header, cells, 4);
    AbsentFromRow(header, cells, code + " Subtotal");
    FiatV1MissesSubtotal(Parser(header, args, rowNum), RowDict(header, cells), ts, env);
  }

  /** `parse_coinbase_v1` raises `KeyError` for the first capture's subtotal column when only
      its spot-price column is present. */
  lemma FiatV1MissesSubtotal(p: Parser, d: map<string, string>, ts: Timestamp, env: Env)
    requires |p.args| > 0
    requires p.args[0] + " Spot Price at Transaction" in d && p.args[0] + " Subtotal" !in d
    ensures FiatV1(p, d, ts, env) == Failure(KeyError(p.args[0] + " Subtotal"))
  {
  }

  /** No column of the mixed header row is the subtotal column of the first currency. */
  lemma SubtotalNotNamed(code: string, other: string)
    requires |code| == 3 && |other| == 3 && code != other
    ensures code + " Subtotal" !in V1Header(code)[5 := other + " Subtotal"]
  {
    var header := V1Header(code)[5 := other + " Subtotal"];
    var key := code + " Subtotal";
    assert (other + " Subtotal")[..3] == other && key[..3] == code;
    forall k | 0 <= k < |header| ensures header[k] != key {
      if k == 5 {
      } else {
        assert |header[k]| != |key|;
      }
    }
  }
}
