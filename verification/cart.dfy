/**
 * The cart summary of the item screen: how many items are in the cart and
 * what they cost, `price * quantity` summed over the purchased items by a
 * left-to-right `reduce` from 0.
 *
 * JavaScript's `parseFloat` is a parameter (`None` stands for NaN), and the
 * total is an exact `real`: floating-point rounding and the `toFixed(2)`
 * display text are not modelled.
 */
module Cart {

  import opened Options
  import opened Records
  import opened Text
  import opened Collections
  import opened Items

  datatype CartSummary = CartSummary(totalItems: nat, totalPrice: real)

  /** `String(v)` of a stored text that may be missing. */
  function AsText(v: Option<string>): string {
    v.GetOr("undefined")
  }

  /** `parseFloat(String(item.price).replace(',', '.')) || 0` */
  function PriceValue(parseFloat: string -> Option<real>, x: ShoppingItem): real {
    parseFloat(ReplaceFirst(AsText(x.price), ',', '.')).GetOr(0.0)
  }

  /** `parseInt(item.quantity, 10) || 0` */
  function QuantityValue(x: ShoppingItem): int {
    ParseInt(AsText(x.quantity)).GetOr(0)
  }

  /** What one item adds to the total. */
  function LineTotal(parseFloat: string -> Option<real>, x: ShoppingItem): real {
    PriceValue(parseFloat, x) * QuantityValue(x) as real
  }

  /** The reducer's line function, for a given `parseFloat`. */
  function LineOf(parseFloat: string -> Option<real>): ShoppingItem -> real {
    x => LineTotal(parseFloat, x)
  }

  /** `items.reduce((total, item) => total + line(item), 0)` */
  function SumLines(line: ShoppingItem -> real, items: seq<ShoppingItem>): real {
    if items == [] then 0.0
    else SumLines(line, items[..|items| - 1]) + line(items[|items| - 1])
  }

  /** `cartSummary`, recomputed from the current items, for the value
      `line` gives each item; the screen's is `Summary(items,
      LineOf(parseFloat))`. */
  function Summary(items: seq<ShoppingItem>, line: ShoppingItem -> real): CartSummary {
    var inCart := Purchased(items);
    CartSummary(|inCart|, SumLines(line, inCart))
  }

  lemma {:induction false} SumLinesAppend(line: ShoppingItem -> real,
                                          a: seq<ShoppingItem>, b: seq<ShoppingItem>)
    ensures SumLines(line, a + b) == SumLines(line, a) + SumLines(line, b)
  {
    if b == [] {
      assert a + b == a;
    } else {
      var init := b[..|b| - 1];
      SumLinesAppend(line, a, init);
      assert (a + b)[..|a + b| - 1] == a + init;
      assert (a + b)[|a + b| - 1] == b[|b| - 1];
    }
  }

  /** The item count of the summary is the size of the "No Carrinho"
      section, that is every item not in the "A Comprar" section. */
  lemma SummaryCountsCart(items: seq<ShoppingItem>, line: ShoppingItem -> real)
    ensures Summary(items, line).totalItems == |Sections(items)[1].data|
    ensures Summary(items, line).totalItems == |items| - |Sections(items)[0].data|
  {
    FilterPartition(items, IsPending, IsPurchased);
  }

  /** A pending item contributes nothing to the summary, whatever stale
      price or quantity it still carries. */
  lemma SummaryIgnoresPendingDetails(items: seq<ShoppingItem>, i: nat,
                                     price: Option<string>, quantity: Option<string>,
                                     line: ShoppingItem -> real)
    requires i < |items| && !items[i].purchased
    ensures Summary(items[i := items[i].(price := price, quantity := quantity)], line)
            == Summary(items, line)
  {
    var x := items[i];
    var x' := x.(price := price, quantity := quantity);
    var a, b := items[..i], items[i + 1..];
    assert items == a + [x] + b;
    assert items[i := x'] == a + [x'] + b;
    FilterAppend(a + [x], b, IsPurchased);
    FilterAppend(a, [x], IsPurchased);
    FilterAppend(a + [x'], b, IsPurchased);
    FilterAppend(a, [x'], IsPurchased);
  }

  /** Adding a new (pending) item leaves the summary as it was. */
  lemma SummaryAfterAdd(items: seq<ShoppingItem>, id: string, name: string,
                        line: ShoppingItem -> real)
    ensures Summary(items + [ShoppingItem(id, name, false, None, None)], line)
            == Summary(items, line)
  {
    var x := ShoppingItem(id, name, false, None, None);
    FilterAppend(items, [x], IsPurchased);
    assert Filter([x], IsPurchased) == [];
    assert Purchased(items + [x]) == Purchased(items);
  }

  /** The item at `k` is the only one with its id. */
  predicate OnlyWithId(items: seq<ShoppingItem>, k: nat) {
    k < |items| && forall j :: 0 <= j < |items| && j != k ==> items[j].id != items[k].id
  }

  lemma SplitAround(items: seq<ShoppingItem>, k: nat)
    requires OnlyWithId(items, k)
    ensures items == items[..k] + [items[k]] + items[k + 1..]
    ensures NoItemWithId(items[..k], items[k].id) && NoItemWithId(items[k + 1..], items[k].id)
  {
    forall x | x in items[..k] ensures x.id != items[k].id {
      var j :| 0 <= j < k && items[..k][j] == x;
    }
    forall x | x in items[k + 1..] ensures x.id != items[k].id {
      var j :| 0 <= j < |items| - k - 1 && items[k + 1..][j] == x;
      assert items[k + 1 + j] == x;
    }
  }

  /** The cart section of `a + [x] + b`. */
  lemma PurchasedAround(a: seq<ShoppingItem>, x: ShoppingItem, b: seq<ShoppingItem>)
    ensures Purchased(a + [x] + b) == Purchased(a) + (if x.purchased then [x] else []) + Purchased(b)
  {
    FilterAppend(a + [x], b, IsPurchased);
    FilterAppend(a, [x], IsPurchased);
    assert Filter([x], IsPurchased) == (if x.purchased then [x] else []);
  }

  /** One item in the middle of a sequence adds its line to the fold. */
  lemma SumLinesAround(line: ShoppingItem -> real, p: seq<ShoppingItem>,
                       y: ShoppingItem, q: seq<ShoppingItem>)
    ensures SumLines(line, p + [y] + q) == SumLines(line, p + q) + line(y)
  {
    SumLinesAppend(line, p, q);
    SumLinesAppend(line, p + [y], q);
    SumLinesAppend(line, p, [y]);
    assert [y][..0] == [];
  }

  /** Confirming `x`, the only item with its id, in `a + [x] + b`. */
  lemma ConfirmAround(a: seq<ShoppingItem>, x: ShoppingItem, b: seq<ShoppingItem>,
                      price: string, quantity: string, line: ShoppingItem -> real)
    requires NoItemWithId(a, x.id) && NoItemWithId(b, x.id) && !x.purchased
    ensures var x' := x.(price := Some(price), quantity := Some(quantity), purchased := true);
      var before, after := Summary(a + [x] + b, line), Summary(a + [x'] + b, line);
      && Confirm(a + [x] + b, x.id, price, quantity) == a + [x'] + b
      && after.totalItems == before.totalItems + 1
      && after.totalPrice == before.totalPrice + line(x')
  {
    var x' := x.(price := Some(price), quantity := Some(quantity), purchased := true);
    UpdateAround(a, x, b, price, quantity);
    var pa, pb := Purchased(a), Purchased(b);
    assert Purchased(a + [x] + b) == pa + pb by {
      PurchasedAround(a, x, b);
    }
    assert Purchased(a + [x'] + b) == pa + [x'] + pb by {
      PurchasedAround(a, x', b);
    }
    SumLinesAround(line, pa, x', pb);
  }

  /** Un-purchasing `x`, the only item with its id, in `a + [x] + b`. */
  lemma UnmarkAround(a: seq<ShoppingItem>, x: ShoppingItem, b: seq<ShoppingItem>,
                     line: ShoppingItem -> real)
    requires NoItemWithId(a, x.id) && NoItemWithId(b, x.id) && x.purchased
    ensures var x' := x.(purchased := false);
      var before, after := Summary(a + [x] + b, line), Summary(a + [x'] + b, line);
      && Unmark(a + [x] + b, x.id) == a + [x'] + b
      && after.totalItems == before.totalItems - 1
      && after.totalPrice == before.totalPrice - line(x)
  {
    var x' := x.(purchased := false);
    UpdateAround(a, x, b, "", "");
    PurchasedAround(a, x, b);
    PurchasedAround(a, x', b);
    var pa, pb := Purchased(a), Purchased(b);
    assert Purchased(a + [x] + b) == pa + [x] + pb;
    assert Purchased(a + [x'] + b) == pa + pb;
    SumLinesAround(line, pa, x, pb);
  }

  /** Confirming the one pending item with an id puts one more item in the
      cart and adds that item's line, computed from the text just entered,
      to the total. */
  lemma SummaryAfterConfirm(items: seq<ShoppingItem>, k: nat, price: string, quantity: string,
                            line: ShoppingItem -> real)
    requires OnlyWithId(items, k) && !items[k].purchased
    ensures var before, after := Summary(items, line),
                                 Summary(Confirm(items, items[k].id, price, quantity), line);
      var confirmed := items[k].(price := Some(price), quantity := Some(quantity), purchased := true);
      && after.totalItems == before.totalItems + 1
      && after.totalPrice == before.totalPrice + line(confirmed)
  {
    SplitAround(items, k);
    ConfirmAround(items[..k], items[k], items[k + 1..], price, quantity, line);
  }

  /** Checking off the one purchased item with an id takes it out of the
      cart and its line out of the total. */
  lemma SummaryAfterUnmark(items: seq<ShoppingItem>, k: nat, line: ShoppingItem -> real)
    requires OnlyWithId(items, k) && items[k].purchased
    ensures var before, after := Summary(items, line),
                                 Summary(Unmark(items, items[k].id), line);
      && after.totalItems == before.totalItems - 1
      && after.totalPrice == before.totalPrice - line(items[k])
  {
    SplitAround(items, k);
    UnmarkAround(items[..k], items[k], items[k + 1..], line);
  }

  /** `parseInt` on the quantities of the examples: "3" is 3, while "abc"
      and a missing quantity (read as "undefined") are NaN and count 0. */
  lemma QuantityExamples(x: ShoppingItem)
    ensures QuantityValue(x.(quantity := Some("3"))) == 3
    ensures QuantityValue(x.(quantity := Some("2"))) == 2
    ensures QuantityValue(x.(quantity := Some("1"))) == 1
    ensures QuantityValue(x.(quantity := Some("abc"))) == 0
    ensures QuantityValue(x.(quantity := None)) == 0
  {
    ParseIntDecimal(3);
    ParseIntDecimal(2);
    ParseIntDecimal(1);
    assert Decimal(3) == "3" && Decimal(2) == "2" && Decimal(1) == "1";
    ParseIntRejects("abc");
    ParseIntRejects("undefined");
  }

  /** Quantity "3" at price "5,50" adds 16.50 to the total, given that
      `parseFloat` reads "5.50" as 5.5. */
  lemma LineTotalExample(x: ShoppingItem, parseFloat: string -> Option<real>)
    requires parseFloat("5.50") == Some(5.5)
    ensures LineTotal(parseFloat, x.(price := Some("5,50"), quantity := Some("3"))) == 16.5
  {
    var y := x.(price := Some("5,50"), quantity := Some("3"));
    assert QuantityValue(y) == 3 by {
      QuantityExamples(x);
    }
    assert PriceValue(parseFloat, y) == 5.5 by {
      assert "5,50"[1..] == ",50";
      assert ReplaceFirst(",50", ',', '.') == ".50";
      assert ReplaceFirst("5,50", ',', '.') == "5.50";
    }
  }

  /** Text the parsers cannot read adds 0: a quantity of "abc" whatever
      the price, and a price of "x" whatever the quantity, given that
      `parseFloat` reads "x" as NaN. */
  lemma MalformedLineExample(x: ShoppingItem, parseFloat: string -> Option<real>)
    requires parseFloat("x") == None
    ensures LineTotal(parseFloat, x.(quantity := Some("abc"))) == 0.0
    ensures LineTotal(parseFloat, x.(price := Some("x"))) == 0.0
  {
    QuantityExamples(x);
    var y := x.(price := Some("x"));
    assert PriceValue(parseFloat, y) == 0.0 by {
      ReplaceFirstAbsent("x", ',', '.');
    }
  }

  /** A cart of two purchased items sums their two lines. */
  lemma SummaryOfTwo(a: ShoppingItem, b: ShoppingItem, line: ShoppingItem -> real)
    requires a.purchased && b.purchased
    ensures Summary([a, b], line) == CartSummary(2, line(a) + line(b))
  {
    FilterAll([a, b], IsPurchased);
    SumLinesAppend(line, [a], [b]);
    assert [a] + [b] == [a, b];
    assert [a][..0] == [] && [b][..0] == [];
  }

  /** The price of an item stored as `p + "," + f`, where `p` has no
      comma, is what `parseFloat` reads from `p + "." + f`. */
  lemma PriceFromText(y: ShoppingItem, p: string, f: string, v: real,
                      parseFloat: string -> Option<real>)
    requires ',' !in p && y.price == Some(p + [','] + f) && parseFloat(p + ['.'] + f) == Some(v)
    ensures PriceValue(parseFloat, y) == v
  {
    ReplaceFirstAt(p, f, ',', '.');
  }

  /** 2 at "10,00" is 20, given that `parseFloat` reads "10.00" as 10. */
  lemma TenTimesTwoExample(x: ShoppingItem, parseFloat: string -> Option<real>)
    requires parseFloat("10.00") == Some(10.0)
    ensures LineTotal(parseFloat, x.(quantity := Some("2"), price := Some("10,00"))) == 20.0
  {
    var a := x.(quantity := Some("2"), price := Some("10,00"));
    assert QuantityValue(a) == 2 by {
      QuantityExamples(x);
    }
    assert PriceValue(parseFloat, a) == 10.0 by {
      assert "10" + ['.'] + "00" == "10.00" && "10" + [','] + "00" == "10,00";
      PriceFromText(a, "10", "00", 10.0, parseFloat);
    }
  }

  /** 1 at "5,25" is 5.25, given that `parseFloat` reads "5.25" as 5.25. */
  lemma OneAtFiveTwentyFiveExample(x: ShoppingItem, parseFloat: string -> Option<real>)
    requires parseFloat("5.25") == Some(5.25)
    ensures LineTotal(parseFloat, x.(quantity := Some("1"), price := Some("5,25"))) == 5.25
  {
    var b := x.(quantity := Some("1"), price := Some("5,25"));
    assert QuantityValue(b) == 1 by {
      QuantityExamples(x);
    }
    assert PriceValue(parseFloat, b) == 5.25 by {
      assert "5" + ['.'] + "25" == "5.25" && "5" + [','] + "25" == "5,25";
      PriceFromText(b, "5", "25", 5.25, parseFloat);
    }
  }

  /** Two purchased items, 2 at "10,00" and 1 at "5,25", make a cart of two
      items worth 25.25, given that `parseFloat` reads "10.00" and "5.25"
      as 10 and 5.25. */
  lemma TwoItemSummaryExample(x: ShoppingItem, y: ShoppingItem,
                              parseFloat: string -> Option<real>)
    requires parseFloat("10.00") == Some(10.0) && parseFloat("5.25") == Some(5.25)
    ensures var a := x.(purchased := true, quantity := Some("2"), price := Some("10,00"));
      var b := y.(purchased := true, quantity := Some("1"), price := Some("5,25"));
      Summary([a, b], LineOf(parseFloat)) == CartSummary(2, 25.25)
  {
    var a := x.(purchased := true, quantity := Some("2"), price := Some("10,00"));
    var b := y.(purchased := true, quantity := Some("1"), price := Some("5,25"));
    TenTimesTwoExample(x.(purchased := true), parseFloat);
    OneAtFiveTwentyFiveExample(y.(purchased := true), parseFloat);
    SummaryOfTwo(a, b, LineOf(parseFloat));
  }
}
