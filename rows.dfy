/** A data row as the handlers read it: the row dictionary built from the header and the row's
    cells, and the two ways of reading a cell that can raise. */
module Rows {
  import opened Wrappers
  import opened Decimals
  import opened Records

  function Min(a: nat, b: nat): nat {
    if a <= b then a else b
  }

  /** No later element of `xs` equals the one at `i`. */
  predicate IsLastIn<T(==)>(xs: seq<T>, i: int)
    requires 0 <= i < |xs|
  {
    forall j :: i < j < |xs| ==> xs[j] != xs[i]
  }

  /** `dict(zip(keys, values))` for keys and values of equal length: each key maps to the value
      beside its last occurrence. */
  function DictOf(keys: seq<string>, values: seq<string>): (d: map<string, string>)
    requires |keys| == |values|
    ensures forall k :: k in d <==> k in keys
    ensures forall i :: 0 <= i < |keys| && IsLastIn(keys, i) ==> keys[i] in d && d[keys[i]] == values[i]
  {
    if keys == [] then map[]
    else
      var n := |keys| - 1;
      var d := DictOf(keys[..n], values[..n]);
      assert keys == keys[..n] + [keys[n]];
      forall i | 0 <= i < n && IsLastIn(keys, i) ensures IsLastIn(keys[..n], i) && keys[i] != keys[n] {
      }
      d[keys[n] := values[n]]
  }

  /** `dict(zip(header, row))`: pairs as far as the shorter of the two reaches. */
  function RowDict(header: seq<string>, row: seq<string>): map<string, string> {
    var n := Min(|header|, |row|);
    DictOf(header[..n], row[..n])
  }

  /** A header cell no later cell repeats reads the row's value beside it. */
  lemma RowDictAt(header: seq<string>, row: seq<string>, i: nat)
    requires i < |header| && i < |row| && IsLastIn(header, i)
    ensures header[i] in RowDict(header, row) && RowDict(header, row)[header[i]] == row[i]
  {
    var n := Min(|header|, |row|);
    assert IsLastIn(header[..n], i);
  }

  /** `row_dict[key]`, raising `KeyError` for a name the dictionary does not hold. */
  function Lookup(d: map<string, string>, key: string): (r: Result<string, ParseError>)
    ensures r.Success? <==> key in d
    ensures r.Success? ==> r.value == d[key]
    ensures r.Failure? ==> r.error == KeyError(key)
  {
    if key in d then Success(d[key]) else Failure(KeyError(key))
  }

  /** `Decimal(text)`, raising `InvalidOperation` for text it does not accept. */
  function DecimalOf(text: string): (r: Result<Decimal, ParseError>)
    ensures r.Success? <==> ParseDecimal(text).Some?
    ensures r.Success? ==> r.value == ParseDecimal(text).value
    ensures r.Failure? ==> r.error == InvalidDecimal(text)
  {
    match ParseDecimal(text)
    case Some(v) => Success(v)
    case None => Failure(InvalidDecimal(text))
  }

  /** `Decimal(row_dict[key])`. */
  function DecimalField(d: map<string, string>, key: string): (r: Result<Decimal, ParseError>)
    ensures r.Success? <==> key in d && ParseDecimal(d[key]).Some?
    ensures r.Success? ==> r.value == ParseDecimal(d[key]).value
    ensures r.Failure? ==> r.error == KeyError(key) || (key in d && r.error == InvalidDecimal(d[key]))
  {
    var text :- Lookup(d, key);
    DecimalOf(text)
  }

  /** `xs[i]`, raising `IndexError` past the end. */
  function At(xs: seq<string>, i: nat): (r: Result<string, ParseError>)
    ensures r.Success? <==> i < |xs|
    ensures r.Success? ==> r.value == xs[i]
    ensures r.Failure? ==> r.error == IndexError(i)
  {
    if i < |xs| then Success(xs[i]) else Failure(IndexError(i))
  }
}
