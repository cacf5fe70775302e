/**
 * The item screen of one shopping list: its component state as the fields
 * of a class, and each handler as a method that reassigns them the way the
 * handler's `setX` calls do. Whenever `items` changes the whole collection
 * is written back under the list's own key.
 *
 * What the user answers to a confirmation, the fresh id `Date.now()` gives
 * and whether a storage call succeeds are parameters.
 */
module ListDetail {

  import opened Options
  import opened Records
  import opened Text
  import opened Persistence
  import opened Items

  /** The details dialog: whether it shows, the item it is for, and the
      price and quantity text in its two inputs. */
  datatype Dialog = Dialog(visible: bool, selected: Option<ShoppingItem>,
                           price: string, quantity: string)

  class ListDetailScreen {
    const listId: string
    const storage: Storage

    var items: seq<ShoppingItem>
    var newItemName: string
    var isModalVisible: bool
    var selectedItem: Option<ShoppingItem>
    var itemPrice: string
    var itemQuantity: string

    /** `ITEMS_STORAGE_KEY` */
    function StorageKey(): string {
      ItemsKey(listId)
    }

    /** The dialog only shows for a selected item, and the store is well
        formed. */
    ghost predicate Valid()
      reads this, storage
    {
      && (isModalVisible ==> selectedItem.Some?)
      && WellFormed(storage.docs)
    }

    function DialogState(): Dialog
      reads this
    {
      Dialog(isModalVisible, selectedItem, itemPrice, itemQuantity)
    }

    /** The screen as it mounts: no items yet, empty inputs, no dialog. */
    constructor (listId: string, storage: Storage)
      requires WellFormed(storage.docs)
      ensures this.listId == listId && this.storage == storage
      ensures items == [] && newItemName == ""
      ensures DialogState() == Dialog(false, None, "", "")
      ensures Valid()
    {
      this.listId := listId;
      this.storage := storage;
      items := [];
      newItemName := "";
      isModalVisible := false;
      selectedItem := None;
      itemPrice := "";
      itemQuantity := "";
    }

    /** The save effect: the whole of `items` is written under the key of
        the list, so that reading it back gives `items`; no other key
        changes, and a failed write changes nothing. */
    method Persist(writeOk: bool)
      requires Valid()
      modifies storage
      ensures Valid()
      ensures storage.docs == Write(old(storage.docs), StorageKey(), ItemsDoc(items), writeOk)
      ensures writeOk ==> Get(storage.docs, StorageKey()) == Some(ItemsDoc(items))
      ensures forall k :: k != StorageKey() ==> Get(storage.docs, k) == Get(old(storage.docs), k)
    {
      PutItemsWellFormed(storage.docs, listId, items);
      storage.SetItem(StorageKey(), ItemsDoc(items), writeOk);
    }

    /** The two effects that run when the screen mounts: the load effect
        issues its read, the save effect writes the current (still empty)
        `items` at once, and when the read gave a stored collection the
        screen takes it over and saves it back. An absent key or a failed
        read keeps what the screen has, and nothing then undoes the
        mount-time write. */
    method Mount(readOk: bool, mountOk: bool, writeOk: bool)
      requires Valid()
      modifies this, storage
      ensures Valid()
      ensures items == LoadedItems(ReadResult(old(storage.docs), StorageKey(), readOk), old(items))
      ensures storage.docs == AfterMount(old(storage.docs), StorageKey(), ItemsDoc(old(items)),
                                         readOk, mountOk, writeOk)
      ensures newItemName == old(newItemName) && DialogState() == old(DialogState())
    {
      var stored := storage.GetItem(StorageKey(), readOk);
      Persist(mountOk);
      if stored.Some? && stored.value.ItemsDoc? {
        items := stored.value.items;
        Persist(writeOk);
      }
    }

    /** Typing in the new-item input. */
    method EditNewItemName(text: string)
      requires Valid()
      modifies this
      ensures Valid()
      ensures newItemName == text
      ensures items == old(items) && DialogState() == old(DialogState())
    {
      newItemName := text;
    }

    /** Typing in the quantity input of the dialog. */
    method EditQuantity(text: string)
      requires Valid()
      modifies this
      ensures Valid()
      ensures itemQuantity == text
      ensures items == old(items) && newItemName == old(newItemName)
      ensures isModalVisible == old(isModalVisible) && selectedItem == old(selectedItem)
      ensures itemPrice == old(itemPrice)
    {
      itemQuantity := text;
    }

    /** Typing in the price input of the dialog. */
    method EditPrice(text: string)
      requires Valid()
      modifies this
      ensures Valid()
      ensures itemPrice == text
      ensures items == old(items) && newItemName == old(newItemName)
      ensures isModalVisible == old(isModalVisible) && selectedItem == old(selectedItem)
      ensures itemQuantity == old(itemQuantity)
    {
      itemPrice := text;
    }

    /** `handleAddItem`: a blank name is ignored without any alert;
        otherwise one pending item without price or quantity, named exactly
        as typed, is appended and the input cleared. */
    method AddItem(freshId: string, writeOk: bool)
      requires Valid()
      modifies this, storage
      ensures Valid()
      ensures DialogState() == old(DialogState())
      ensures IsBlank(old(newItemName)) ==>
        && items == old(items) && newItemName == old(newItemName)
        && storage.docs == old(storage.docs)
      ensures !IsBlank(old(newItemName)) ==>
        && items == old(items) + [ShoppingItem(freshId, old(newItemName), false, None, None)]
        && newItemName == ""
        && storage.docs == Write(old(storage.docs), StorageKey(), ItemsDoc(items), writeOk)
    {
      if IsBlank(newItemName) {
        return;
      }
      var newItem := ShoppingItem(freshId, newItemName, false, None, None);
      items := items + [newItem];
      Persist(writeOk);
      newItemName := "";
    }

    /** `handleItemCheck`: a purchased item is taken out of the cart by id;
        for any other item `items` stays as it is and the dialog opens for
        it, prefilled with its stored price and quantity or `''`. */
    method CheckItem(item: ShoppingItem, writeOk: bool)
      requires Valid()
      modifies this, storage
      ensures Valid()
      ensures newItemName == old(newItemName)
      ensures item.purchased ==>
        && items == Unmark(old(items), item.id)
        && DialogState() == old(DialogState())
        && storage.docs == Write(old(storage.docs), StorageKey(), ItemsDoc(items), writeOk)
      ensures !item.purchased ==>
        && items == old(items)
        && DialogState() == Dialog(true, Some(item), item.price.GetOr(""), item.quantity.GetOr(""))
        && storage.docs == old(storage.docs)
    {
      if item.purchased {
        items := Unmark(items, item.id);
        Persist(writeOk);
      } else {
        selectedItem := Some(item);
        itemPrice := item.price.GetOr("");
        itemQuantity := item.quantity.GetOr("");
        isModalVisible := true;
      }
    }

    /** `handleSaveItemDetails`: without a selected item nothing happens;
        otherwise every item with the selected id is confirmed with the text
        of the two inputs, as typed, and the dialog closes with no selection.
        The input text itself is not cleared. */
    method SaveItemDetails(writeOk: bool)
      requires Valid()
      modifies this, storage
      ensures Valid()
      ensures newItemName == old(newItemName)
      ensures itemPrice == old(itemPrice) && itemQuantity == old(itemQuantity)
      ensures old(selectedItem).None? ==>
        && items == old(items) && isModalVisible == old(isModalVisible)
        && !isModalVisible && selectedItem == None
        && storage.docs == old(storage.docs)
      ensures old(selectedItem).Some? ==>
        && items == Confirm(old(items), old(selectedItem).value.id, itemPrice, itemQuantity)
        && !isModalVisible && selectedItem == None
        && storage.docs == Write(old(storage.docs), StorageKey(), ItemsDoc(items), writeOk)
    {
      if selectedItem.None? {
        return;
      }
      items := Confirm(items, selectedItem.value.id, itemPrice, itemQuantity);
      Persist(writeOk);
      isModalVisible := false;
      selectedItem := None;
    }

    /** "Cancelar", the backdrop or the back button of the dialog: it only
        hides; the selection and the prefilled text stay. */
    method DismissDetails()
      requires Valid()
      modifies this
      ensures Valid()
      ensures !isModalVisible
      ensures selectedItem == old(selectedItem)
      ensures itemPrice == old(itemPrice) && itemQuantity == old(itemQuantity)
      ensures items == old(items) && newItemName == old(newItemName)
    {
      isModalVisible := false;
    }

    /** `handleDeleteItem`: when the user confirms, every item with the id
        is removed; "Cancelar" changes nothing. */
    method DeleteItem(itemId: string, confirmed: bool, writeOk: bool)
      requires Valid()
      modifies this, storage
      ensures Valid()
      ensures newItemName == old(newItemName) && DialogState() == old(DialogState())
      ensures !confirmed ==> items == old(items) && storage.docs == old(storage.docs)
      ensures confirmed ==>
        && items == WithoutItem(old(items), itemId)
        && storage.docs == Write(old(storage.docs), StorageKey(), ItemsDoc(items), writeOk)
    {
      if confirmed {
        items := WithoutItem(items, itemId);
        Persist(writeOk);
      }
    }
  }
}
