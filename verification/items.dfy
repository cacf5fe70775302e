/**
 * The new values the item screen computes for its `items` array: the
 * `map` that un-purchases an item, the `map` that confirms one, the
 * `filter` that deletes one, and the two `filter`s that split the list
 * into its "A Comprar" and "No Carrinho" sections.
 */
module Items {

  import opened Options
  import opened Records
  import opened Collections

  /** `items.map(i => i.id === id ? { ...i, purchased: false } : i)`:
      every item with the id is un-purchased, keeping its name, price and
      quantity; every other item is untouched. */
  function Unmark(items: seq<ShoppingItem>, id: string): (r: seq<ShoppingItem>)
    ensures |r| == |items|
    ensures forall i :: 0 <= i < |items| ==>
      r[i] == if items[i].id == id then items[i].(purchased := false) else items[i]
  {
    if items == [] then []
    else
      [if items[0].id == id then items[0].(purchased := false) else items[0]]
      + Unmark(items[1..], id)
  }

  /** `items.map(item => item.id === id ? { ...item, price, quantity,
      purchased: true } : item)`: every item with the id becomes purchased
      with the text entered, stored as typed; every other item is
      untouched. */
  function Confirm(items: seq<ShoppingItem>, id: string, price: string, quantity: string)
    : (r: seq<ShoppingItem>)
    ensures |r| == |items|
    ensures forall i :: 0 <= i < |items| ==>
      r[i] == if items[i].id == id
              then items[i].(price := Some(price), quantity := Some(quantity), purchased := true)
              else items[i]
  {
    if items == [] then []
    else
      [if items[0].id == id
       then items[0].(price := Some(price), quantity := Some(quantity), purchased := true)
       else items[0]]
      + Confirm(items[1..], id, price, quantity)
  }

  /** `items.filter(item => item.id !== id)` */
  function WithoutItem(items: seq<ShoppingItem>, id: string): seq<ShoppingItem> {
    RemoveId(items, ItemId, id)
  }

  /** `items.filter(item => !item.purchased)` */
  function Pending(items: seq<ShoppingItem>): seq<ShoppingItem> {
    Filter(items, IsPending)
  }

  /** `items.filter(item => item.purchased)` */
  function Purchased(items: seq<ShoppingItem>): seq<ShoppingItem> {
    Filter(items, IsPurchased)
  }

  datatype Section = Section(title: string, data: seq<ShoppingItem>)

  /** The two sections of the screen, the pending group first. */
  function Sections(items: seq<ShoppingItem>): (r: seq<Section>)
    ensures |r| == 2 && r[0].title == "A Comprar" && r[1].title == "No Carrinho"
  {
    [Section("A Comprar", Pending(items)), Section("No Carrinho", Purchased(items))]
  }

  /** No item of the sequence has the id. */
  predicate NoItemWithId(items: seq<ShoppingItem>, id: string) {
    forall x :: x in items ==> x.id != id
  }

  /** Un-purchasing or confirming an id no item has changes nothing. */
  lemma UpdateAbsent(items: seq<ShoppingItem>, id: string, price: string, quantity: string)
    requires NoItemWithId(items, id)
    ensures Unmark(items, id) == items
    ensures Confirm(items, id, price, quantity) == items
  {
    assert forall i :: 0 <= i < |items| ==> items[i] in items;
  }

  lemma UnmarkAppend(a: seq<ShoppingItem>, b: seq<ShoppingItem>, id: string)
    ensures Unmark(a + b, id) == Unmark(a, id) + Unmark(b, id)
  {
    var l, r := Unmark(a + b, id), Unmark(a, id) + Unmark(b, id);
    forall i | 0 <= i < |l| ensures l[i] == r[i] {
      if i < |a| {
        assert (a + b)[i] == a[i];
      } else {
        assert (a + b)[i] == b[i - |a|];
      }
    }
  }

  lemma ConfirmAppend(a: seq<ShoppingItem>, b: seq<ShoppingItem>, id: string,
                      price: string, quantity: string)
    ensures Confirm(a + b, id, price, quantity) == Confirm(a, id, price, quantity) + Confirm(b, id, price, quantity)
  {
    var l, r := Confirm(a + b, id, price, quantity), Confirm(a, id, price, quantity) + Confirm(b, id, price, quantity);
    forall i | 0 <= i < |l| ensures l[i] == r[i] {
      if i < |a| {
        assert (a + b)[i] == a[i];
      } else {
        assert (a + b)[i] == b[i - |a|];
      }
    }
  }

  /** Updating the one item with an id, in the middle of a sequence. */
  lemma UpdateAround(a: seq<ShoppingItem>, x: ShoppingItem, b: seq<ShoppingItem>,
                     price: string, quantity: string)
    requires NoItemWithId(a, x.id) && NoItemWithId(b, x.id)
    ensures Unmark(a + [x] + b, x.id) == a + [x.(purchased := false)] + b
    ensures Confirm(a + [x] + b, x.id, price, quantity)
            == a + [x.(price := Some(price), quantity := Some(quantity), purchased := true)] + b
  {
    UnmarkAppend(a + [x], b, x.id);
    UnmarkAppend(a, [x], x.id);
    ConfirmAppend(a + [x], b, x.id, price, quantity);
    ConfirmAppend(a, [x], x.id, price, quantity);
    UpdateAbsent(a, x.id, price, quantity);
    UpdateAbsent(b, x.id, price, quantity);
  }

  /** The sections hold, in the original relative order, exactly the
      pending and exactly the purchased items, and between them every item
      once: together they are a permutation of `items`. An empty list gives
      two empty sections. */
  lemma SectionsPartition(items: seq<ShoppingItem>)
    ensures var s := Sections(items);
      && SubsequenceOf(s[0].data, items)
      && SubsequenceOf(s[1].data, items)
      && (forall x :: multiset(s[0].data)[x] == if x.purchased then 0 else multiset(items)[x])
      && (forall x :: multiset(s[1].data)[x] == if x.purchased then multiset(items)[x] else 0)
      && multiset(s[0].data) + multiset(s[1].data) == multiset(items)
      && |s[0].data| + |s[1].data| == |items|
    ensures items == [] ==> Sections(items)[0].data == [] && Sections(items)[1].data == []
  {
    FilterSubsequence(items, IsPending);
    FilterSubsequence(items, IsPurchased);
    forall x ensures multiset(Pending(items))[x] == if x.purchased then 0 else multiset(items)[x] {
      FilterCount(items, IsPending, x);
    }
    forall x ensures multiset(Purchased(items))[x] == if x.purchased then multiset(items)[x] else 0 {
      FilterCount(items, IsPurchased, x);
    }
    FilterPartition(items, IsPending, IsPurchased);
  }

  /** Un-purchasing an id takes every item with it out of the cart section
      and changes nothing else there. */
  lemma {:induction false} UnmarkLeavesCart(items: seq<ShoppingItem>, id: string)
    ensures Purchased(Unmark(items, id)) == RemoveId(Purchased(items), ItemId, id)
  {
    if items != [] {
      var x := items[0];
      var rest := items[1..];
      UnmarkLeavesCart(rest, id);
      assert items == [x] + rest;
      UnmarkAppend([x], rest, id);
      FilterAppend([x], rest, IsPurchased);
      FilterAppend(Unmark([x], id), Unmark(rest, id), IsPurchased);
      FilterAppend(Filter([x], IsPurchased), Purchased(rest), Differs(ItemId, id));
    }
  }

  /** Confirming an id takes every item with it out of the pending section
      and changes nothing else there. */
  lemma {:induction false} ConfirmLeavesPending(items: seq<ShoppingItem>, id: string,
                                                price: string, quantity: string)
    ensures Pending(Confirm(items, id, price, quantity)) == RemoveId(Pending(items), ItemId, id)
  {
    if items != [] {
      var x := items[0];
      var rest := items[1..];
      ConfirmLeavesPending(rest, id, price, quantity);
      assert items == [x] + rest;
      ConfirmAppend([x], rest, id, price, quantity);
      FilterAppend([x], rest, IsPending);
      FilterAppend(Confirm([x], id, price, quantity), Confirm(rest, id, price, quantity), IsPending);
      FilterAppend(Filter([x], IsPending), Pending(rest), Differs(ItemId, id));
    }
  }

  /** A confirmed item delete removes every item with the id, keeps every
      other item as often as it occurred and in order, changes nothing when
      the id is absent, and deleting twice is deleting once. */
  lemma WithoutItemSpec(items: seq<ShoppingItem>, id: string)
    ensures NoItemWithId(WithoutItem(items, id), id)
    ensures forall x :: multiset(WithoutItem(items, id))[x] ==
                        (if x.id == id then 0 else multiset(items)[x])
    ensures SubsequenceOf(WithoutItem(items, id), items)
    ensures NoItemWithId(items, id) ==> WithoutItem(items, id) == items
    ensures WithoutItem(WithoutItem(items, id), id) == WithoutItem(items, id)
  {
    RemoveIdSpec(items, ItemId, id);
  }

  /** Deleting the item just added, under a fresh id, restores the list. */
  lemma DeleteUndoesAdd(items: seq<ShoppingItem>, x: ShoppingItem)
    requires NoItemWithId(items, x.id)
    ensures WithoutItem(items + [x], x.id) == items
  {
    RemoveIdUndoesAppend(items, x, ItemId);
  }

  /** Every purchased item carries the price and quantity it was confirmed
      with: only confirming purchases an item. */
  predicate DetailsRecorded(items: seq<ShoppingItem>) {
    forall x :: x in items && x.purchased ==> x.price.Some? && x.quantity.Some?
  }

  /** Adding, checking off, confirming and deleting all keep purchased
      items with recorded details. */
  lemma DetailsRecordedKept(items: seq<ShoppingItem>, id: string, name: string,
                            price: string, quantity: string)
    requires DetailsRecorded(items)
    ensures DetailsRecorded(items + [ShoppingItem(id, name, false, None, None)])
    ensures DetailsRecorded(Unmark(items, id))
    ensures DetailsRecorded(Confirm(items, id, price, quantity))
    ensures DetailsRecorded(WithoutItem(items, id))
  {
    var u := Unmark(items, id);
    forall x | x in u && x.purchased ensures x.price.Some? && x.quantity.Some? {
      var i :| 0 <= i < |u| && u[i] == x;
      assert items[i] in items;
    }
    var c := Confirm(items, id, price, quantity);
    forall x | x in c && x.purchased ensures x.price.Some? && x.quantity.Some? {
      var i :| 0 <= i < |c| && c[i] == x;
      assert items[i] in items;
    }
  }
}
