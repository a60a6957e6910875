/** The two extractors that read the free-text Notes column: `_get_convert_info`, which splits a
    "Converted A X to B Y" note into its four parts, and `_get_note_currency`, which finds the
    currency code (and the quote currency of a trading pair) after the last "for <amount>".

    Both are regular expressions. Every group they capture is a maximal run of one character
    class followed by a character outside it, so each is modelled by splitting off that run
    with `TakeWhile`; nothing is left to backtracking except the choice of the "for " that the
    greedy `.+` of the second expression settles on, which is the last that can match. */
module Notes {
  import opened Wrappers
  import opened Text

  /** `[\d|,]*\.\d+|[\d|,]+` when `intRequired` is false, `[\d|,]+\.\d+|[\d|,]+` when true. */
  predicate IsAmount(a: string, intRequired: bool) {
    var split := TakeWhile(a, IsGroupedDigitChar);
    if split.1 == [] then |split.0| > 0
    else
      split.1[0] == '.' && |split.1| >= 2 && AllDigits(split.1[1..])
      && (|split.0| > 0 || !intRequired)
  }

  lemma DigitsAreAmountChars(q: string)
    requires AllDigits(q)
    ensures AllChars(q, IsAmountChar)
  {
    forall i | 0 <= i < |q| ensures IsAmountChar(q[i]) {
      assert IsDigit(q[i]);
    }
  }

  /** An amount consists of amount characters only. */
  lemma AmountChars(a: string, intRequired: bool)
    requires IsAmount(a, intRequired)
    ensures |a| > 0 && AllChars(a, IsAmountChar)
  {
    var split := TakeWhile(a, IsGroupedDigitChar);
    if split.1 != [] {
      DigitsAreAmountChars(split.1[1..]);
    }
    forall i | 0 <= i < |a| ensures IsAmountChar(a[i]) {
      if i < |split.0| {
        assert a[i] == split.0[i];
      } else if i > |split.0| {
        assert a[i] == split.1[1..][i - |split.0| - 1];
      }
    }
  }

  /** A non-empty digit group without a point is an amount of either kind. */
  lemma IntegerAmount(p: string, intRequired: bool)
    requires |p| > 0 && AllChars(p, IsGroupedDigitChar)
    ensures IsAmount(p, intRequired)
  {
    assert p + [] == p;
    TakeWhileOfConcat(p, [], IsGroupedDigitChar);
  }

  /** `p.q` with digits `q` is an amount; the expression of `_get_note_currency` also needs `p`
      to be non-empty. */
  lemma FractionAmount(p: string, q: string, intRequired: bool)
    requires AllChars(p, IsGroupedDigitChar) && |q| > 0 && AllDigits(q)
    requires |p| > 0 || !intRequired
    ensures IsAmount(p + "." + q, intRequired)
  {
    assert p + "." + q == p + ("." + q);
    TakeWhileOfConcat(p, "." + q, IsGroupedDigitChar);
    assert ("." + q)[1..] == q;
  }

  /** An amount, which is the longest run of amount characters, followed by `sep`. */
  function AmountThen(s: string, intRequired: bool, sep: string): (r: Option<(string, string)>)
    ensures r.Some? ==> s == r.value.0 + (sep + r.value.1) && IsAmount(r.value.0, intRequired)
  {
    var split := TakeWhile(s, IsAmountChar);
    if !IsAmount(split.0, intRequired) then None
    else
      match DropPrefix(split.1, sep)
      case None => None
      case Some(rest) => Some((split.0, rest))
  }

  lemma AmountThenOf(a: string, intRequired: bool, sep: string, rest: string)
    requires IsAmount(a, intRequired)
    requires |sep| > 0 && !IsAmountChar(sep[0])
    ensures AmountThen(a + (sep + rest), intRequired, sep) == Some((a, rest))
  {
    AmountChars(a, intRequired);
    TakeWhileOfConcat(a, sep + rest, IsAmountChar);
    DropPrefixOfConcat(sep, rest);
  }

  /** `\w+`, the longest run of word characters, followed by `sep`. */
  function WordThen(s: string, sep: string): (r: Option<(string, string)>)
    ensures r.Some? ==> s == r.value.0 + (sep + r.value.1) && IsWord(r.value.0)
  {
    var split := TakeWhile(s, IsWordChar);
    if split.0 == [] then None
    else
      match DropPrefix(split.1, sep)
      case None => None
      case Some(rest) => Some((split.0, rest))
  }

  lemma WordThenOf(w: string, sep: string, rest: string)
    requires IsWord(w)
    requires |sep| > 0 && !IsWordChar(sep[0])
    ensures WordThen(w + (sep + rest), sep) == Some((w, rest))
  {
    TakeWhileOfConcat(w, sep + rest, IsWordChar);
    DropPrefixOfConcat(sep, rest);
  }

  function Newline(present: bool): string {
    if present then "\n" else ""
  }

  /** ` *$`: spaces, then the end of the string or a final newline. */
  predicate IsSpaceTail(t: string) {
    var rest := TakeWhile(t, IsSpace).1;
    rest == [] || rest == "\n"
  }

  lemma SpacesAreRepeat(run: string)
    requires AllChars(run, IsSpace)
    ensures run == Repeat(' ', |run|)
  {
  }

  lemma SpaceTailOf(spaces: nat, newline: bool)
    ensures IsSpaceTail(Repeat(' ', spaces) + Newline(newline))
  {
    TakeWhileOfConcat(Repeat(' ', spaces), Newline(newline), IsSpace);
  }

  /** The four groups of a convert note: the amount and asset converted from, and the amount
      and asset converted to. */
  datatype ConvertInfo = ConvertInfo(sellAmount: string, sellAsset: string, buyAmount: string,
                                     buyAsset: string)

  /** What the expression demands of each group. */
  predicate IsConvertInfo(i: ConvertInfo) {
    IsAmount(i.sellAmount, false) && IsWord(i.sellAsset) && IsAmount(i.buyAmount, false)
      && IsWord(i.buyAsset)
  }

  /** The note "Converted A X to B Y", then `spaces` spaces and possibly a final newline. */
  function ConvertPhrase(i: ConvertInfo, spaces: nat, newline: bool): string {
    "Converted " + (i.sellAmount + (" " + (i.sellAsset + (" to " + (i.buyAmount + (" " +
      (i.buyAsset + (Repeat(' ', spaces) + Newline(newline)))))))))
  }

  /** `_get_convert_info`: the groups of `^Converted (amount) (\w+) to (amount) (\w+) *$`, or
      `None` when the note does not match. */
  function GetConvertInfo(notes: string): (r: Option<ConvertInfo>)
    ensures r.Some? ==> IsConvertInfo(r.value)
  {
    match DropPrefix(notes, "Converted ")
    case None => None
    case Some(s1) =>
      match AmountThen(s1, false, " ")
      case None => None
      case Some((a, s2)) =>
        match WordThen(s2, " to ")
        case None => None
        case Some((x, s3)) =>
          match AmountThen(s3, false, " ")
          case None => None
          case Some((b, s4)) =>
            var split := TakeWhile(s4, IsWordChar);
            if split.0 != [] && IsSpaceTail(split.1) then Some(ConvertInfo(a, x, b, split.0))
            else None
  }

  /** Every note `_get_convert_info` accepts is a convert phrase of the groups it returns. */
  lemma ConvertInfoSound(notes: string)
    requires GetConvertInfo(notes).Some?
    ensures exists spaces: nat, newline: bool :: notes == ConvertPhrase(GetConvertInfo(notes).value, spaces, newline)
  {
    var s1 := DropPrefix(notes, "Converted ").value;
    var (a, s2) := AmountThen(s1, false, " ").value;
    var (x, s3) := WordThen(s2, " to ").value;
    var (b, s4) := AmountThen(s3, false, " ").value;
    var split := TakeWhile(s4, IsWordChar);
    var run := TakeWhile(split.1, IsSpace);
    SpacesAreRepeat(run.0);
    var newline := run.1 == "\n";
    assert split.1 == Repeat(' ', |run.0|) + Newline(newline);
    assert notes == ConvertPhrase(ConvertInfo(a, x, b, split.0), |run.0|, newline);
  }

  /** Every convert phrase of well-formed groups yields exactly those groups. */
  lemma ConvertInfoComplete(i: ConvertInfo, spaces: nat, newline: bool)
    requires IsConvertInfo(i)
    ensures GetConvertInfo(ConvertPhrase(i, spaces, newline)) == Some(i)
  {
    var tail := Repeat(' ', spaces) + Newline(newline);
    var s4 := i.buyAsset + tail;
    var s3 := i.buyAmount + (" " + s4);
    var s2 := i.sellAsset + (" to " + s3);
    var s1 := i.sellAmount + (" " + s2);
    DropPrefixOfConcat("Converted ", s1);
    AmountThenOf(i.sellAmount, false, " ", s2);
    WordThenOf(i.sellAsset, " to ", s3);
    AmountThenOf(i.buyAmount, false, " ", s4);
    assert tail == [] || !IsWordChar(tail[0]);
    TakeWhileOfConcat(i.buyAsset, tail, IsWordChar);
    SpaceTailOf(spaces, newline);
  }

  /** `(?: on )?(\w+-\w+)?` after the currency code: the quote currency of a " on BASE-QUOTE"
      pair when one follows, otherwise the code itself. */
  function PairQuote(code: string, rest: string): (r: string)
    ensures r == code || (|r| > 0 && AllChars(r, IsWordChar))
  {
    match DropPrefix(rest, " on ")
    case None => code
    case Some(r1) =>
      match WordThen(r1, "-")
      case None => code
      case Some((_, r2)) =>
        var quote := TakeWhile(r2, IsWordChar).0;
        if quote == [] then code else quote
  }

  lemma PairQuoteOf(code: string, base: string, quote: string, rest: string)
    requires IsWord(base) && IsWord(quote)
    requires rest == [] || !IsWordChar(rest[0])
    ensures PairQuote(code, " on " + (base + ("-" + (quote + rest)))) == quote
  {
    DropPrefixOfConcat(" on ", base + ("-" + (quote + rest)));
    WordThenOf(base, "-", quote + rest);
    TakeWhileOfConcat(quote, rest, IsWordChar);
  }

  /** What follows "for " in `_get_note_currency`'s expression: an optional `[£€$]`, an amount, a
      space and `(\w+)`; the result is the code and the quote currency. */
  function ForClause(s: string): (r: Option<(string, string)>)
    ensures r.Some? ==> IsWord(r.value.0) && IsWord(r.value.1)
  {
    var s1 := if |s| > 0 && IsCurrencySymbol(s[0]) then s[1..] else s;
    match AmountThen(s1, true, " ")
    case None => None
    case Some((_, s2)) =>
      var split := TakeWhile(s2, IsWordChar);
      if split.0 == [] then None else Some((split.0, PairQuote(split.0, split.1)))
  }

  lemma ForClauseOf(amount: string, code: string, tail: string)
    requires IsAmount(amount, true) && IsWord(code)
    requires tail == [] || !IsWordChar(tail[0])
    ensures ForClause(amount + (" " + (code + tail))) == Some((code, PairQuote(code, tail)))
  {
    AmountChars(amount, true);
    assert !IsCurrencySymbol(amount[0]) by {
      assert (amount + (" " + (code + tail)))[0] == amount[0] && IsAmountChar(amount[0]);
    }
    AmountThenOf(amount, true, " ", code + tail);
    TakeWhileOfConcat(code, tail, IsWordChar);
  }

  /** `s`, the text after a "for ", is an optional `[£€$]` symbol, an amount, a space, the code
      `\w+` and a tail that does not continue the code. */
  predicate IsForClause(s: string, symbol: string, amount: string, code: string, tail: string) {
    |symbol| <= 1 && (symbol != [] ==> IsCurrencySymbol(symbol[0]))
    && IsAmount(amount, true) && IsWord(code) && (tail == [] || !IsWordChar(tail[0]))
    && s == symbol + (amount + (" " + (code + tail)))
  }

  /** `s` has the shape of a "for " clause with code `code`, and the tail after the code gives
      `quote`. */
  ghost predicate ForClauseGives(s: string, code: string, quote: string) {
    exists symbol, amount, tail :: IsForClause(s, symbol, amount, code, tail) && quote == PairQuote(code, tail)
  }

  /** Whatever `ForClause` accepts has that shape, with the code it returns, and the quote is
      the one the tail after the code gives. */
  lemma ForClauseSound(s: string)
    requires ForClause(s).Some?
    ensures ForClauseGives(s, ForClause(s).value.0, ForClause(s).value.1)
  {
    var symbol := if |s| > 0 && IsCurrencySymbol(s[0]) then s[..1] else [];
    var s1 := if |s| > 0 && IsCurrencySymbol(s[0]) then s[1..] else s;
    assert s == symbol + s1;
    var (a, s2) := AmountThen(s1, true, " ").value;
    var split := TakeWhile(s2, IsWordChar);
    assert IsForClause(s, symbol, a, split.0, split.1);
  }

  /** The expression matching with its `for ` at position `p`, `.+` having consumed the
      (non-empty) text before it. */
  function NoteMatchAt(notes: string, p: int): (r: Option<(string, string)>)
    ensures r.Some? ==> 1 <= p && OccursAt(notes, "for ", p)
  {
    if 1 <= p && OccursAt(notes, "for ", p) then ForClause(notes[p + 4..]) else None
  }

  datatype NoteMatch = NoteMatch(pos: nat, code: string, quote: string)

  /** The last position below `n` where `xs` holds a value. */
  function LastSome<T>(xs: seq<Option<T>>, n: nat): (r: Option<nat>)
    requires n <= |xs|
    ensures r.Some? ==> r.value < n && xs[r.value].Some?
    ensures r.Some? ==> forall q :: r.value < q < n ==> xs[q].None?
    ensures r.None? <==> forall q :: 0 <= q < n ==> xs[q].None?
  {
    if n == 0 then None
    else if xs[n - 1].Some? then Some(n - 1)
    else LastSome(xs, n - 1)
  }

  /** The outcome of trying the expression with its `for ` at each position of `notes`. */
  function Attempts(notes: string): (r: seq<Option<(string, string)>>)
    ensures |r| == |notes| && forall q :: 0 <= q < |notes| ==> r[q] == NoteMatchAt(notes, q)
  {
    seq(|notes|, q => NoteMatchAt(notes, q))
  }

  /** The match with the last `for ` in `notes`: the greedy `.+` tries the longest prefix
      first. */
  function LastNoteMatch(notes: string): (r: Option<NoteMatch>)
    ensures r.Some? ==> r.value.pos < |notes| && NoteMatchAt(notes, r.value.pos) == Some((r.value.code, r.value.quote))
    ensures r.Some? ==> forall q :: r.value.pos < q < |notes| ==> NoteMatchAt(notes, q).None?
    ensures r.None? <==> forall q :: 0 <= q < |notes| ==> NoteMatchAt(notes, q).None?
  {
    var attempts := Attempts(notes);
    match LastSome(attempts, |notes|)
    case None => None
    case Some(p) => Some(NoteMatch(p, attempts[p].value.0, attempts[p].value.1))
  }

  /** `.` does not match a newline and `$` matches only at the end or before a final newline,
      so no match can span a newline other than the last character. */
  predicate NewlineOnlyAtEnd(s: string) {
    forall i :: 0 <= i < |s| - 1 ==> s[i] != '\n'
  }

  /** `_get_note_currency`: `(code, code)`, or `(code, QUOTE)` when a " on BASE-QUOTE" pair
      follows the code, or `(None, "")` when the note does not match. */
  function GetNoteCurrency(notes: string): (r: (Option<string>, string))
    ensures r.0.None? <==> r.1 == ""
    ensures r.0.Some? ==> IsWord(r.0.value) && IsWord(r.1)
    ensures r.0.Some? <==> NewlineOnlyAtEnd(notes) && exists p :: NoteMatchAt(notes, p).Some?
  {
    if !NewlineOnlyAtEnd(notes) then (None, "")
    else
      match LastNoteMatch(notes)
      case None =>
        assert forall p :: NoteMatchAt(notes, p).None? by {
          forall p ensures NoteMatchAt(notes, p).None? {
            if 0 <= p < |notes| {
            } else {
              assert !OccursAt(notes, "for ", p);
            }
          }
        }
        (None, "")
      case Some(m) => (Some(m.code), m.quote)
  }

  /** The expression matches with its "for " at `p`, giving `code` and `quote`, and with no
      later "for " at which it matches. */
  ghost predicate LastForMatchAt(notes: string, p: int, code: string, quote: string) {
    1 <= p && OccursAt(notes, "for ", p)
    && ForClauseGives(notes[p + 4..], code, quote)
    && forall q :: p < q < |notes| ==> NoteMatchAt(notes, q).None?
  }

  /** A currency `_get_note_currency` returns is the code after the amount following the last
      "for " at which the expression matches, in a note with no inner newline. */
  lemma NoteCurrencySound(notes: string)
    requires GetNoteCurrency(notes).0.Some?
    ensures var (code, quote) := GetNoteCurrency(notes);
      NewlineOnlyAtEnd(notes) && exists p :: LastForMatchAt(notes, p, code.value, quote)
  {
    var m := LastNoteMatch(notes).value;
    assert GetNoteCurrency(notes) == (Some(m.code), m.quote);
    ForClauseSound(notes[m.pos + 4..]);
    assert LastForMatchAt(notes, m.pos, m.code, m.quote);
  }

  /** A note that ends with "for <amount> <code>", then text that does not continue the code. */
  function ForPhrase(lead: string, amount: string, code: string, tail: string): string {
    lead + ("for " + (amount + (" " + (code + tail))))
  }

  lemma NoNewlineIn(s: string, cls: char -> bool)
    requires AllChars(s, cls) && !cls('\n')
    ensures '\n' !in s
  {
  }

  lemma NewlineOnlyAtEndOfConcat(a: string, b: string)
    requires '\n' !in a && NewlineOnlyAtEnd(b)
    ensures NewlineOnlyAtEnd(a + b)
  {
    forall i | 0 <= i < |a + b| - 1 ensures (a + b)[i] != '\n' {
      if i < |a| {
        assert (a + b)[i] == a[i];
      } else {
        assert (a + b)[i] == b[i - |a|];
      }
    }
  }

  lemma NoLaterFor(lead: string, rest: string, q: int)
    requires !Contains(rest, "for ")
    requires |lead| < q
    ensures !OccursAt(lead + ("for " + rest), "for ", q)
  {
    var notes := lead + ("for " + rest);
    var p := |lead|;
    if q < p + 4 {
      assert q < |notes| && notes[q] == "for "[q - p] != 'f';
    } else {
      ForAfterLead(lead, rest, q);
    }
  }

  lemma ForAfterLead(lead: string, rest: string, q: int)
    requires |lead| + 4 <= q
    ensures OccursAt(lead + ("for " + rest), "for ", q) ==> OccursAt(rest, "for ", q - |lead| - 4)
  {
    var notes := lead + ("for " + rest);
    var p := |lead|;
    if OccursAt(notes, "for ", q) {
      assert notes[q..q + 4] == rest[q - p - 4..q - p];
    }
  }

  /** When no later "for " follows, the code after the amount is the currency, and the quote is
      the code or the quote of a " on BASE-QUOTE" pair after it. */
  lemma NoteCurrencyOfPhrase(lead: string, amount: string, code: string, tail: string)
    requires |lead| > 0 && '\n' !in lead
    requires IsAmount(amount, true) && IsWord(code)
    requires tail == [] || !IsWordChar(tail[0])
    requires NewlineOnlyAtEnd(tail)
    requires !Contains(amount + (" " + (code + tail)), "for ")
    ensures GetNoteCurrency(ForPhrase(lead, amount, code, tail)) == (Some(code), PairQuote(code, tail))
  {
    var rest := amount + (" " + (code + tail));
    var notes := ForPhrase(lead, amount, code, tail);
    var p := |lead|;
    AmountChars(amount, true);
    NoNewlineIn(amount, IsAmountChar);
    NoNewlineIn(code, IsWordChar);
    NewlineOnlyAtEndOfConcat(code, tail);
    NewlineOnlyAtEndOfConcat(" ", code + tail);
    NewlineOnlyAtEndOfConcat(amount, " " + (code + tail));
    NewlineOnlyAtEndOfConcat("for ", rest);
    NewlineOnlyAtEndOfConcat(lead, "for " + rest);
    assert notes[p..p + 4] == "for ";
    assert notes[p + 4..] == rest;
    ForClauseOf(amount, code, tail);
    assert NoteMatchAt(notes, p) == Some((code, PairQuote(code, tail)));
    forall q | p < q ensures NoteMatchAt(notes, q).None? {
      NoLaterFor(lead, rest, q);
    }
    var m := LastNoteMatch(notes);
    assert m.Some?;
    assert m.value.pos == p;
  }

  /** A buy or sell note such as "Bought 0.5 BTC for 100 GBP" names its currency last. */
  lemma NoteCurrencyPlain(lead: string, amount: string, code: string)
    requires |lead| > 0 && '\n' !in lead
    requires IsAmount(amount, true) && IsWord(code)
    requires !Contains(amount + (" " + code), "for ")
    ensures GetNoteCurrency(ForPhrase(lead, amount, code, "")) == (Some(code), code)
  {
    assert code + "" == code;
    NoteCurrencyOfPhrase(lead, amount, code, "");
    assert PairQuote(code, "") == code;
  }

  /** A note ending "for 100 GBP on BTC-EUR" yields the code and the pair's quote currency. */
  lemma NoteCurrencyWithPair(lead: string, amount: string, code: string, base: string, quote: string)
    requires |lead| > 0 && '\n' !in lead
    requires IsAmount(amount, true) && IsWord(code) && IsWord(base) && IsWord(quote)
    requires !Contains(amount + (" " + (code + (" on " + (base + ("-" + quote))))), "for ")
    ensures GetNoteCurrency(ForPhrase(lead, amount, code, " on " + (base + ("-" + quote))))
         == (Some(code), quote)
  {
    var tail := " on " + (base + ("-" + quote));
    NoNewlineIn(base, IsWordChar);
    NoNewlineIn(quote, IsWordChar);
    assert '\n' !in tail;
    NoteCurrencyOfPhrase(lead, amount, code, tail);
    assert quote + [] == quote;
    PairQuoteOf(code, base, quote, []);
  }
}
