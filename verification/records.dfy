/**
 * The two kinds of record the app keeps: a shopping list `{id, name}` and
 * an item of a list `{id, name, purchased, price?, quantity?}`. Price and
 * quantity are the text the user typed; an item that was never confirmed
 * has neither key.
 */
module Records {

  import opened Options

  datatype ShoppingList = ShoppingList(id: string, name: string)

  datatype ShoppingItem = ShoppingItem(
    id: string,
    name: string,
    purchased: bool,
    price: Option<string>,
    quantity: Option<string>)

  function ListId(l: ShoppingList): string {
    l.id
  }

  function ItemId(x: ShoppingItem): string {
    x.id
  }

  /** An item of the "A Comprar" (to buy) group. */
  predicate IsPending(x: ShoppingItem) {
    !x.purchased
  }

  /** An item of the "No Carrinho" (in the cart) group. */
  predicate IsPurchased(x: ShoppingItem) {
    x.purchased
  }
}
