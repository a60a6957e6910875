/** The Coinbase format table: seven header definitions, each bound to a row handler, and how a
    file's header row selects one of them. */
module Headers {
  import opened Wrappers
  import opened Text

  /** One column of a header definition: an exact name, `None` (any name), or a
      `re.match(r"^(\w{3})" + suffix, h)` lambda capturing a three-letter currency code. */
  datatype Matcher = Literal(name: string) | Wildcard | CurrencyPattern(suffix: string)

  /** `re.match` anchors only at the start: three word characters, the suffix, then anything. */
  predicate PatternMatches(suffix: string, h: string) {
    |h| >= 3 + |suffix| && AllChars(h[..3], IsWordChar) && h[3..3 + |suffix|] == suffix
  }

  predicate ColumnMatches(m: Matcher, h: string) {
    match m
    case Literal(name) => h == name
    case Wildcard => true
    case CurrencyPattern(suffix) => PatternMatches(suffix, h)
  }

  /** A header definition accepts a header row of the same width whose every cell its matcher at
      the same position accepts. */
  predicate HeaderMatches(ms: seq<Matcher>, header: seq<string>) {
    |ms| == |header| && forall k :: 0 <= k < |ms| ==> ColumnMatches(ms[k], header[k])
  }

  /** The number of currency-pattern columns of a definition. */
  function PatternCount(ms: seq<Matcher>): nat {
    if ms == [] then 0 else (if ms[0].CurrencyPattern? then 1 else 0) + PatternCount(ms[1..])
  }

  /** Matches a header row, returning the `group(1)` captures of the pattern columns in column
      order (the parser's `args`). */
  function MatchHeader(ms: seq<Matcher>, header: seq<string>): (r: Option<seq<string>>)
    ensures r.Some? <==> HeaderMatches(ms, header)
    ensures r.Some? ==> |r.value| == PatternCount(ms)
    ensures r.Some? ==> forall j :: 0 <= j < |r.value| ==> |r.value[j]| == 3 && IsWord(r.value[j])
  {
    if |ms| != |header| then None
    else if ms == [] then Some([])
    else if !ColumnMatches(ms[0], header[0]) then None
    else
      match MatchHeader(ms[1..], header[1..])
      case None =>
        assert !ColumnMatches(ms[1..][0], header[1..][0]) || !HeaderMatches(ms[1..], header[1..]);
        None
      case Some(rest) =>
        assert HeaderMatches(ms, header) by {
          forall k | 0 <= k < |ms| ensures ColumnMatches(ms[k], header[k]) {
            if k > 0 {
              assert ms[k] == ms[1..][k - 1] && header[k] == header[1..][k - 1];
            }
          }
        }
        if ms[0].CurrencyPattern? then Some([header[0][..3]] + rest) else Some(rest)
  }

  /** A matching header row holds each literal column's name at that column. */
  lemma MatchedLiteral(ms: seq<Matcher>, header: seq<string>, k: nat)
    requires MatchHeader(ms, header).Some?
    requires k < |ms| && ms[k].Literal?
    ensures k < |header| && header[k] == ms[k].name
  {
  }

  /** The handler a definition is bound to. */
  datatype Handler =
    | CoinbaseV4
    | CoinbaseV3
    | CoinbaseV2
    | CoinbaseV1
    | CoinbaseTransfers
    | CoinbaseTransactions

  datatype Format = Format(name: string, header: seq<Matcher>, handler: Handler)

  const V4WithId: Format := Format("Coinbase", [
    Literal("ID"), Literal("Timestamp"), Literal("Transaction Type"), Literal("Asset"),
    Literal("Quantity Transacted"), Literal("Price Currency"), Literal("Price at Transaction"),
    Literal("Subtotal"), Literal("Total (inclusive of fees and/or spread)"),
    Literal("Fees and/or Spread"), Literal("Notes")], CoinbaseV4)

  const V4: Format := Format("Coinbase", [
    Literal("Timestamp"), Literal("Transaction Type"), Literal("Asset"),
    Literal("Quantity Transacted"), Literal("Price Currency"), Literal("Price at Transaction"),
    Literal("Subtotal"), Literal("Total (inclusive of fees and/or spread)"),
    Literal("Fees and/or Spread"), Literal("Notes")], CoinbaseV4)

  const V3: Format := Format("Coinbase", [
    Literal("Timestamp"), Literal("Transaction Type"), Literal("Asset"),
    Literal("Quantity Transacted"), Literal("Spot Price Currency"),
    Literal("Spot Price at Transaction"), Literal("Subtotal"),
    Literal("Total (inclusive of fees and/or spread)"), Literal("Fees and/or Spread"),
    Literal("Notes")], CoinbaseV3)

  const V2: Format := Format("Coinbase", [
    Literal("Timestamp"), Literal("Transaction Type"), Literal("Asset"),
    Literal("Quantity Transacted"), Literal("Spot Price Currency"),
    Literal("Spot Price at Transaction"), Literal("Subtotal"), Literal("Total (inclusive of fees)"),
    Literal("Fees"), Literal("Notes")], CoinbaseV2)

  const V1: Format := Format("Coinbase", [
    Literal("Timestamp"), Literal("Transaction Type"), Literal("Asset"),
    Literal("Quantity Transacted"), CurrencyPattern(" Spot Price at Transaction"),
    CurrencyPattern(" Subtotal"), CurrencyPattern(" Total (inclusive of fees)"),
    CurrencyPattern(" Fees"), Literal("Notes")], CoinbaseV1)

  const Transfers: Format := Format("Coinbase Transfers", [
    Literal("Timestamp"), Literal("Type"), Wildcard, Literal("Subtotal"), Literal("Fees"),
    Literal("Total"), Literal("Currency"), Literal("Price Per Coin"), Literal("Payment Method"),
    Literal("ID"), Literal("Share")], CoinbaseTransfers)

  const Transactions: Format := Format("Coinbase Transactions", [
    Literal("Timestamp"), Literal("Balance"), Literal("Amount"), Literal("Currency"),
    Literal("To"), Literal("Notes"), Literal("Instantly Exchanged"), Literal("Transfer Total"),
    Literal("Transfer Total Currency"), Literal("Transfer Fee"), Literal("Transfer Fee Currency"),
    Literal("Transfer Payment Method"), Literal("Transfer ID"), Literal("Order Price"),
    Literal("Order Currency"), Wildcard, Literal("Order Tracking Code"),
    Literal("Order Custom Parameter"), Literal("Order Paid Out"), Literal("Recurring Payment ID"),
    Wildcard, Wildcard], CoinbaseTransactions)

  /** The definitions in the order they are registered. */
  const Registry: seq<Format> := [V4WithId, V4, V3, V2, V1, Transfers, Transactions]

  /** The format a header row selects and the captures it yields. */
  datatype Resolution = Resolution(index: nat, format: Format, args: seq<string>)

  /** Tries the definitions of `formats` from position `i` on and takes the first that
      matches. */
  function ResolveFrom(formats: seq<Format>, i: nat, header: seq<string>): (r: Option<Resolution>)
    requires i <= |formats|
    ensures r.Some? ==> i <= r.value.index < |formats| && r.value.format == formats[r.value.index]
    ensures r.Some? ==> MatchHeader(r.value.format.header, header) == Some(r.value.args)
    ensures r.Some? ==> forall j :: i <= j < r.value.index ==> !HeaderMatches(formats[j].header, header)
    ensures r.None? <==> forall j :: i <= j < |formats| ==> !HeaderMatches(formats[j].header, header)
    decreases |formats| - i
  {
    if i == |formats| then None
    else
      match MatchHeader(formats[i].header, header)
      case Some(args) => Some(Resolution(i, formats[i], args))
      case None => ResolveFrom(formats, i + 1, header)
  }

  /** The format a file's header row selects: the first registered definition that matches. */
  function Resolve(header: seq<string>): (r: Option<Resolution>)
    ensures r.Some? ==> r.value.index < |Registry| && r.value.format == Registry[r.value.index]
    ensures r.Some? ==> MatchHeader(r.value.format.header, header) == Some(r.value.args)
    ensures r.Some? ==> forall j :: 0 <= j < r.value.index ==> !HeaderMatches(Registry[j].header, header)
    ensures r.None? <==> forall j :: 0 <= j < |Registry| ==> !HeaderMatches(Registry[j].header, header)
  {
    ResolveFrom(Registry, 0, header)
  }

  /** Two definitions no header row can both match: different widths, or a column where both
      demand different literal names. */
  predicate Incompatible(a: seq<Matcher>, b: seq<Matcher>) {
    |a| != |b| || exists k :: 0 <= k < |a| && ClashAt(a, b, k)
  }

  predicate ClashAt(a: seq<Matcher>, b: seq<Matcher>, k: int)
    requires 0 <= k < |a| && |a| == |b|
  {
    a[k].Literal? && b[k].Literal? && a[k].name != b[k].name
  }

  lemma IncompatibleExcludes(a: seq<Matcher>, b: seq<Matcher>, header: seq<string>)
    requires Incompatible(a, b)
    requires HeaderMatches(a, header)
    ensures !HeaderMatches(b, header)
  {
    if |a| == |b| {
      var k :| 0 <= k < |a| && ClashAt(a, b, k);
      assert header[k] == a[k].name;
      assert !ColumnMatches(b[k], header[k]);
    }
  }

  lemma {:induction false} RegistryPairwiseIncompatible(i: nat, j: nat)
    requires i < j < |Registry|
    ensures Incompatible(Registry[i].header, Registry[j].header)
  {
    if i == 0 && j == 5 {
      assert ClashAt(V4WithId.header, Transfers.header, 0);
    } else if i == 1 && (j == 2 || j == 3) {
      assert ClashAt(V4.header, Registry[j].header, 4);
    } else if i == 2 && j == 3 {
      assert ClashAt(V3.header, V2.header, 7);
    }
  }

  /** No header row matches two definitions, so registration order never decides between
      them. */
  lemma FormatsExclusive(i: nat, j: nat, header: seq<string>)
    requires i < |Registry| && j < |Registry|
    requires HeaderMatches(Registry[i].header, header) && HeaderMatches(Registry[j].header, header)
    ensures i == j
  {
    if i < j {
      RegistryPairwiseIncompatible(i, j);
      IncompatibleExcludes(Registry[i].header, Registry[j].header, header);
    } else if j < i {
      RegistryPairwiseIncompatible(j, i);
      IncompatibleExcludes(Registry[j].header, Registry[i].header, header);
    }
  }

  /** A header row selects definition `i` exactly when definition `i` matches it. */
  lemma ResolveSelectsTheMatch(header: seq<string>, i: nat)
    requires i < |Registry|
    ensures (Resolve(header).Some? && Resolve(header).value.index == i)
        <==> HeaderMatches(Registry[i].header, header)
  {
    var r := Resolve(header);
    if HeaderMatches(Registry[i].header, header) {
      assert r.Some?;
      FormatsExclusive(r.value.index, i, header);
    }
  }
}
