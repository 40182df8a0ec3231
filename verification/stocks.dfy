/** Stock entries and the stock lists that hold them.

    In the persisted hierarchy a stock entry is either a bare string (the
    symbol typed into the dashboard) or an annotated JSON object with the
    optional fields `symbol`, `name`, `price` and `change`.
 */
module Stocks {
  import opened Dicts

  datatype Stock =
    | Bare(id: string)
    | Annotated(symbol: Option<string>, name: Option<string>, price: Option<int>, change: Option<int>)

  /** The text a newly entered symbol is compared with when checking for a
      duplicate: the string itself for a bare entry, the `name` field (not
      the `symbol` field) for an annotated one. */
  function CompareKey(s: Stock): Option<string>
  {
    match s
    case Bare(id) => Some(id)
    case Annotated(_, name, _, _) => name
  }

  /** The per-entry test of the add handlers: `new_stock != s.get("name")`
      for an annotated entry, `new_stock != s` for a bare one. */
  predicate Clashes(s: Stock, symbol: string)
  {
    match s
    case Bare(id) => id == symbol
    case Annotated(_, name, _, _) => name == Some(symbol)
  }

  /** `all(... for s in stocks)` in the add handlers: no entry clashes. */
  predicate IsNew(stocks: seq<Stock>, symbol: string)
  {
    forall s :: s in stocks ==> !Clashes(s, symbol)
  }

  /** Python truthiness of an entry chosen in a select box: a non-empty
      string, or an object with at least one field. */
  predicate Truthy(s: Stock)
  {
    match s
    case Bare(id) => id != ""
    case Annotated(symbol, name, price, change) =>
      symbol.Some? || name.Some? || price.Some? || change.Some?
  }

  /** No two entries of a list share a comparison key. */
  ghost predicate KeysUnique(stocks: seq<Stock>)
  {
    forall i, j :: 0 <= i < j < |stocks| && CompareKey(stocks[i]).Some? ==> CompareKey(stocks[i]) != CompareKey(stocks[j])
  }

  /** `list.index(x)`: the position of the first entry equal to `x`. */
  function IndexOf(stocks: seq<Stock>, x: Stock): (i: nat)
    requires x in stocks
    ensures i < |stocks| && stocks[i] == x && x !in stocks[..i]
  {
    if stocks[0] == x then 0
    else
      var i := IndexOf(stocks[1..], x);
      assert stocks[..i + 1] == [stocks[0]] + stocks[1..][..i];
      i + 1
  }

  /** `list.remove(x)`: drop the first entry equal to `x`, keeping the order of
      the others. */
  function RemoveFirst(stocks: seq<Stock>, x: Stock): (r: seq<Stock>)
    requires x in stocks
    ensures |r| == |stocks| - 1
    ensures exists i :: 0 <= i < |stocks| && stocks[i] == x && x !in stocks[..i] && r == stocks[..i] + stocks[i + 1..]
  {
    var i := IndexOf(stocks, x);
    stocks[..i] + stocks[i + 1..]
  }

  /** Removing one entry takes exactly one copy of it out of the list's
      multiset of entries. */
  lemma RemoveFirstMultiset(stocks: seq<Stock>, x: Stock)
    requires x in stocks
    ensures multiset(RemoveFirst(stocks, x)) == multiset(stocks) - multiset{x}
  {
    var i := IndexOf(stocks, x);
    var before, after := stocks[..i], stocks[i + 1..];
    assert RemoveFirst(stocks, x) == before + after;
    assert stocks == before + [x] + after;
    assert multiset(stocks) == multiset(before) + multiset{x} + multiset(after);
  }

  /** Appending a symbol that passed the duplicate check keeps the comparison
      keys of a list unique. */
  lemma AppendNewKeepsKeysUnique(stocks: seq<Stock>, symbol: string)
    requires KeysUnique(stocks) && IsNew(stocks, symbol)
    ensures KeysUnique(stocks + [Bare(symbol)])
  {
    var r := stocks + [Bare(symbol)];
    forall i, j | 0 <= i < j < |r| && CompareKey(r[i]).Some? ensures CompareKey(r[i]) != CompareKey(r[j]) {
      if j == |stocks| {
        assert r[i] in stocks;
      }
    }
  }

  /** Removing an entry keeps the comparison keys of a list unique. */
  lemma RemoveFirstKeepsKeysUnique(stocks: seq<Stock>, x: Stock)
    requires x in stocks && KeysUnique(stocks)
    ensures KeysUnique(RemoveFirst(stocks, x))
  {
    var r := RemoveFirst(stocks, x);
    var k := IndexOf(stocks, x);
    assert r == stocks[..k] + stocks[k + 1..];
    forall i, j | 0 <= i < j < |r| && CompareKey(r[i]).Some? ensures CompareKey(r[i]) != CompareKey(r[j]) {
      var i' := if i < k then i else i + 1;
      var j' := if j < k then j else j + 1;
      assert r[i] == stocks[i'] && r[j] == stocks[j'];
    }
  }

  /** The duplicate check compares against `name`, so a symbol equal to the
      `symbol` field of an annotated entry with a different name passes it. */
  lemma SymbolFieldIsNotCompared(sym: string, name: string, price: Option<int>, change: Option<int>)
    requires sym != name
    ensures IsNew([Annotated(Some(sym), Some(name), price, change)], sym)
  {
  }
}
