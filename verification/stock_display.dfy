/** The renderer of one stock entry on the dashboard (`format_stock_display`).

    The rendering is a sequence of styled spans; the HTML markup around each
    span is left out, only its style class and its text are kept.
 */
module StockDisplay {
  import opened Dicts
  import opened Stocks

  datatype Colour = Green | Red | Grey

  datatype Style = Plain | SymbolStyle | NameStyle | PriceStyle | ChangeStyle(colour: Colour)

  datatype Span = Span(style: Style, text: string)

  const Up: char := '\U{25B2}'
  const Down: char := '\U{25BC}'
  const Dot: char := '\U{25CF}'
  const Rupee: char := '\U{20B9}'

  function Digit(d: nat): char
    requires d < 10
  {
    (48 + d) as char
  }

  /** Decimal digits of a natural number. */
  function NatToString(n: nat): (r: string)
    ensures |r| >= 1
    ensures n >= 10 ==> |r| >= 2
    ensures forall i :: 0 <= i < |r| ==> '0' <= r[i] <= '9'
  {
    if n < 10 then [Digit(n)] else NatToString(n / 10) + [Digit(n % 10)]
  }

  /** `str(i)` for an integer. */
  function IntToString(i: int): string
  {
    if i < 0 then "-" + NatToString(-i) else NatToString(i)
  }

  function Abs(i: int): nat
  {
    if i < 0 then -i else i
  }

  /** `stock_info.get('change', 0)` */
  function ChangeOf(s: Stock): int
    requires s.Annotated?
  {
    if s.change.Some? then s.change.value else 0
  }

  /** The sign of `change` picks both the colour and the arrow. */
  function ChangeColour(c: int): Colour
  {
    if c > 0 then Green else if c < 0 then Red else Grey
  }

  function ChangeArrow(c: int): char
  {
    if c > 0 then Up else if c < 0 then Down else Dot
  }

  function SymbolPart(s: Stock): seq<Span>
    requires s.Annotated?
  {
    [Span(SymbolStyle, if s.symbol.Some? then s.symbol.value else "N/A")]
  }

  function NamePart(s: Stock): seq<Span>
    requires s.Annotated?
  {
    var name := if s.name.Some? then s.name.value else "";
    if name != "" then [Span(NameStyle, " - " + name)] else []
  }

  function PricePart(s: Stock): seq<Span>
    requires s.Annotated?
  {
    if s.price.Some? && s.price.value != 0 then [Span(PriceStyle, [Rupee] + IntToString(s.price.value))] else []
  }

  function ChangePart(s: Stock): seq<Span>
    requires s.Annotated?
  {
    var c := ChangeOf(s);
    if c != 0 then [Span(ChangeStyle(ChangeColour(c)), [ChangeArrow(c), ' '] + NatToString(Abs(c)) + "%")] else []
  }

  /** Where a style sits on the card: symbol first, then name, price and change. */
  function Rank(st: Style): nat
  {
    match st
    case Plain => 0
    case SymbolStyle => 0
    case NameStyle => 1
    case PriceStyle => 2
    case ChangeStyle(_) => 3
  }

  /** `format_stock_display(stock_info)` */
  function FormatStockDisplay(s: Stock): (r: seq<Span>)
    ensures 1 <= |r| <= 4
    ensures s.Bare? ==> r == [Span(Plain, s.id)]
    ensures s.Annotated? ==> r[0] == Span(SymbolStyle, if s.symbol.Some? then s.symbol.value else "N/A")
    ensures s.Annotated? ==> forall i :: 1 <= i < |r| ==> r[i].style != Plain && r[i].style != SymbolStyle
    ensures s.Annotated? ==> forall i, j :: 0 <= i < j < |r| ==> Rank(r[i].style) < Rank(r[j].style)
  {
    match s
    case Bare(id) => [Span(Plain, id)]
    case Annotated(_, _, _, _) => SymbolPart(s) + NamePart(s) + PricePart(s) + ChangePart(s)
  }

  /** What a reader of the dashboard can see of an entry: a bare string as it
      is; for an annotated entry the symbol (or "N/A"), the name and price
      only when they are truthy, and the change (0 when absent). */
  datatype View =
    | BareView(id: string)
    | CardView(symbol: string, name: Option<string>, price: Option<int>, change: int)

  function ViewOf(s: Stock): View
  {
    match s
    case Bare(id) => BareView(id)
    case Annotated(symbol, name, price, change) =>
      CardView(
        if symbol.Some? then symbol.value else "N/A",
        if name.Some? && name.value != "" then name else None,
        if price.Some? && price.value != 0 then price else None,
        if change.Some? then change.value else 0)
  }

  datatype Kind = PlainKind | SymbolKind | NameKind | PriceKind | ChangeKind

  function KindOf(st: Style): Kind
  {
    match st
    case Plain => PlainKind
    case SymbolStyle => SymbolKind
    case NameStyle => NameKind
    case PriceStyle => PriceKind
    case ChangeStyle(_) => ChangeKind
  }

  /** The spans of one kind, in order. */
  function OfKind(r: seq<Span>, k: Kind): seq<Span>
  {
    if r == [] then [] else (if KindOf(r[0].style) == k then [r[0]] else []) + OfKind(r[1..], k)
  }

  lemma {:induction false} OfKindAppend(a: seq<Span>, b: seq<Span>, k: Kind)
    ensures OfKind(a + b, k) == OfKind(a, k) + OfKind(b, k)
  {
    if a == [] {
      assert a + b == b;
    } else {
      var h := if KindOf(a[0].style) == k then [a[0]] else [];
      assert (a + b)[0] == a[0];
      assert (a + b)[1..] == a[1..] + b;
      assert OfKind(a + b, k) == h + OfKind(a[1..] + b, k);
      assert OfKind(a, k) == h + OfKind(a[1..], k);
      OfKindAppend(a[1..], b, k);
      assert h + (OfKind(a[1..], k) + OfKind(b, k)) == (h + OfKind(a[1..], k)) + OfKind(b, k);
    }
  }

  lemma OfKindFour(a: seq<Span>, n: seq<Span>, p: seq<Span>, c: seq<Span>, k: Kind)
    ensures OfKind(a + n + p + c, k) == OfKind(a, k) + OfKind(n, k) + OfKind(p, k) + OfKind(c, k)
  {
    OfKindAppend(a + n + p, c, k);
    OfKindAppend(a + n, p, k);
    OfKindAppend(a, n, k);
  }

  /** A part of at most one span of kind `k0` is kept whole by `k0` and
      dropped by every other kind. */
  lemma PartOfKind(part: seq<Span>, k0: Kind, k: Kind)
    requires |part| <= 1 && (part != [] ==> KindOf(part[0].style) == k0)
    ensures OfKind(part, k) == if k == k0 then part else []
  {
    if part != [] {
      assert part[1..] == [];
    }
  }

  /** The spans of one kind in a rendering are those of the part of that kind. */
  lemma FormatOfKind(s: Stock, k: Kind)
    requires s.Annotated?
    ensures OfKind(FormatStockDisplay(s), k) ==
      (if k == SymbolKind then SymbolPart(s) else []) + (if k == NameKind then NamePart(s) else []) +
      (if k == PriceKind then PricePart(s) else []) + (if k == ChangeKind then ChangePart(s) else [])
  {
    var a, n, p, c := SymbolPart(s), NamePart(s), PricePart(s), ChangePart(s);
    OfKindFour(a, n, p, c, k);
    PartOfKind(a, SymbolKind, k);
    PartOfKind(n, NameKind, k);
    PartOfKind(p, PriceKind, k);
    PartOfKind(c, ChangeKind, k);
  }

  /** Picking the spans of each kind out of a rendering gives back its parts. */
  lemma FormatParts(s: Stock)
    requires s.Annotated?
    ensures OfKind(FormatStockDisplay(s), SymbolKind) == SymbolPart(s)
    ensures OfKind(FormatStockDisplay(s), NameKind) == NamePart(s)
    ensures OfKind(FormatStockDisplay(s), PriceKind) == PricePart(s)
    ensures OfKind(FormatStockDisplay(s), ChangeKind) == ChangePart(s)
  {
    var a, n, p, c := SymbolPart(s), NamePart(s), PricePart(s), ChangePart(s);
    FormatOfKind(s, SymbolKind);
    assert a + [] + [] + [] == a;
    FormatOfKind(s, NameKind);
    assert [] + n + [] + [] == n;
    FormatOfKind(s, PriceKind);
    assert [] + [] + p + [] == p;
    FormatOfKind(s, ChangeKind);
    assert [] + [] + [] + c == c;
  }

  /** A name, a price and a change are shown exactly when they are truthy, and
      the arrow and colour of the change follow its sign. */
  lemma FormatShowsTruthyFields(s: Stock)
    requires s.Annotated?
    ensures OfKind(FormatStockDisplay(s), NameKind) != [] <==> s.name.Some? && s.name.value != ""
    ensures OfKind(FormatStockDisplay(s), PriceKind) != [] <==> s.price.Some? && s.price.value != 0
    ensures OfKind(FormatStockDisplay(s), ChangeKind) != [] <==> ChangeOf(s) != 0
    ensures forall sp :: sp in OfKind(FormatStockDisplay(s), ChangeKind) ==>
      && (sp.style == ChangeStyle(Green) <==> ChangeOf(s) > 0)
      && (sp.style == ChangeStyle(Red) <==> ChangeOf(s) < 0)
      && sp.text == [if ChangeOf(s) > 0 then Up else Down, ' '] + NatToString(Abs(ChangeOf(s))) + "%"
  {
    FormatParts(s);
  }

  lemma {:induction false} NatToStringInjective(a: nat, b: nat)
    requires NatToString(a) == NatToString(b)
    ensures a == b
  {
    if a >= 10 && b >= 10 {
      var sa, sb := NatToString(a), NatToString(b);
      assert sa[..|sa| - 1] == NatToString(a / 10);
      assert sb[..|sb| - 1] == NatToString(b / 10);
      NatToStringInjective(a / 10, b / 10);
      assert Digit(a % 10) == sa[|sa| - 1] == Digit(b % 10);
    }
  }

  /** A rendered integer starts with a minus sign exactly when it is negative. */
  lemma IntToStringSign(i: int)
    ensures IntToString(i)[0] == '-' <==> i < 0
  {
    if i >= 0 {
      assert '0' <= NatToString(i)[0] <= '9';
    }
  }

  lemma IntToStringInjective(a: int, b: int)
    requires IntToString(a) == IntToString(b)
    ensures a == b
  {
    if a < 0 && b < 0 {
      assert NatToString(-a) == IntToString(a)[1..];
      assert NatToString(-b) == IntToString(b)[1..];
      NatToStringInjective(-a, -b);
    } else if a >= 0 && b >= 0 {
      NatToStringInjective(a, b);
    } else {
      IntToStringSign(a);
      IntToStringSign(b);
      assert false;
    }
  }

  lemma NamePartShowsName(a: Stock, b: Stock)
    requires a.Annotated? && b.Annotated? && NamePart(a) == NamePart(b)
    ensures ViewOf(a).name == ViewOf(b).name
  {
    if NamePart(a) != [] {
      assert a.name.value == NamePart(a)[0].text[3..];
      assert b.name.value == NamePart(b)[0].text[3..];
    }
  }

  lemma PricePartShowsPrice(a: Stock, b: Stock)
    requires a.Annotated? && b.Annotated? && PricePart(a) == PricePart(b)
    ensures ViewOf(a).price == ViewOf(b).price
  {
    if PricePart(a) != [] {
      assert IntToString(a.price.value) == PricePart(a)[0].text[1..];
      assert IntToString(b.price.value) == PricePart(b)[0].text[1..];
      IntToStringInjective(a.price.value, b.price.value);
    }
  }

  lemma ChangePartShowsChange(a: Stock, b: Stock)
    requires a.Annotated? && b.Annotated? && ChangePart(a) == ChangePart(b)
    ensures ViewOf(a).change == ViewOf(b).change
  {
    var ca, cb := ChangeOf(a), ChangeOf(b);
    if ChangePart(a) != [] {
      var ta, tb := ChangePart(a)[0].text, ChangePart(b)[0].text;
      assert ta[2..|ta| - 1] == NatToString(Abs(ca));
      assert tb[2..|tb| - 1] == NatToString(Abs(cb));
      NatToStringInjective(Abs(ca), Abs(cb));
      assert ChangeColour(ca) == ChangeColour(cb);
    }
  }

  /** Two entries render the same exactly when they show the same view: the
      rendering loses nothing a reader can see and shows nothing else. */
  lemma FormatExactlyShowsView(a: Stock, b: Stock)
    ensures FormatStockDisplay(a) == FormatStockDisplay(b) <==> ViewOf(a) == ViewOf(b)
  {
    if FormatStockDisplay(a) == FormatStockDisplay(b) && a.Annotated? && b.Annotated? {
      FormatParts(a);
      FormatParts(b);
      NamePartShowsName(a, b);
      PricePartShowsPrice(a, b);
      ChangePartShowsChange(a, b);
    }
  }
}
