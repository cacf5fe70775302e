/**
 * The home screen: the collection of shopping lists, the "Nova Lista"
 * dialog and its input, as the fields of a class. Whenever `lists`
 * changes the whole collection is written back under the one lists key;
 * the items of each list live under their own keys and are never touched
 * here.
 */
module Home {

  import opened Options
  import opened Records
  import opened Text
  import opened Persistence
  import opened Lists
  import opened ListDetail

  class HomeScreen {
    const storage: Storage

    var lists: seq<ShoppingList>
    var isModalVisible: bool
    var newListName: string

    ghost predicate Valid()
      reads this, storage
    {
      WellFormed(storage.docs)
    }

    /** The screen as it mounts: no lists yet, the dialog closed and its
        input empty. */
    constructor (storage: Storage)
      requires WellFormed(storage.docs)
      ensures this.storage == storage
      ensures lists == [] && !isModalVisible && newListName == ""
      ensures Valid()
    {
      this.storage := storage;
      lists := [];
      isModalVisible := false;
      newListName := "";
    }

    /** The save effect: the whole of `lists` is written under the lists
        key, so that reading it back gives `lists` in the same order; the
        item keys of every list keep what they held, and a failed write
        changes nothing. */
    method Persist(writeOk: bool)
      requires Valid()
      modifies storage
      ensures Valid()
      ensures storage.docs == Write(old(storage.docs), ListsKey, ListsDoc(lists), writeOk)
      ensures writeOk ==> Get(storage.docs, ListsKey) == Some(ListsDoc(lists))
      ensures forall id :: Get(storage.docs, ItemsKey(id)) == Get(old(storage.docs), ItemsKey(id))
    {
      PutListsWellFormed(storage.docs, lists);
      storage.SetItem(ListsKey, ListsDoc(lists), writeOk);
      forall id ensures Get(storage.docs, ItemsKey(id)) == Get(old(storage.docs), ItemsKey(id)) {
        if writeOk {
          PutListsKeepsItems(old(storage.docs), ListsDoc(lists), id);
        }
      }
    }

    /** The two effects that run when the screen mounts: the load effect
        issues its read, the save effect writes the current (still empty)
        `lists` at once, and when the read gave a stored collection the
        screen takes it over and saves it back. An absent key or a failed
        read keeps what the screen has, and nothing then undoes the
        mount-time write. No item key changes. */
    method Mount(readOk: bool, mountOk: bool, writeOk: bool)
      requires Valid()
      modifies this, storage
      ensures Valid()
      ensures lists == LoadedLists(ReadResult(old(storage.docs), ListsKey, readOk), old(lists))
      ensures storage.docs == AfterMount(old(storage.docs), ListsKey, ListsDoc(old(lists)),
                                         readOk, mountOk, writeOk)
      ensures forall id :: Get(storage.docs, ItemsKey(id)) == Get(old(storage.docs), ItemsKey(id))
      ensures isModalVisible == old(isModalVisible) && newListName == old(newListName)
    {
      var stored := storage.GetItem(ListsKey, readOk);
      Persist(mountOk);
      if stored.Some? && stored.value.ListsDoc? {
        lists := stored.value.lists;
        Persist(writeOk);
      }
    }

    /** The "+" button. */
    method OpenNewListDialog()
      requires Valid()
      modifies this
      ensures Valid()
      ensures isModalVisible
      ensures lists == old(lists) && newListName == old(newListName)
    {
      isModalVisible := true;
    }

    /** "Cancelar", the backdrop or the back button of the dialog: it only
        hides, and the typed name stays. */
    method CloseNewListDialog()
      requires Valid()
      modifies this
      ensures Valid()
      ensures !isModalVisible
      ensures lists == old(lists) && newListName == old(newListName)
    {
      isModalVisible := false;
    }

    /** Typing in the name input. */
    method EditNewListName(text: string)
      requires Valid()
      modifies this
      ensures Valid()
      ensures newListName == text
      ensures lists == old(lists) && isModalVisible == old(isModalVisible)
    {
      newListName := text;
    }

    /** `handleAddNewList`: a blank name raises the "Nome Inválido" alert
        and changes nothing; otherwise one list, named exactly as typed, is
        appended, the input cleared and the dialog closed. */
    method AddNewList(freshId: string, writeOk: bool) returns (alert: Option<Alert>)
      requires Valid()
      modifies this, storage
      ensures Valid()
      ensures IsBlank(old(newListName)) ==>
        && alert == Some(InvalidNameAlert)
        && lists == old(lists) && newListName == old(newListName)
        && isModalVisible == old(isModalVisible)
        && storage.docs == old(storage.docs)
      ensures !IsBlank(old(newListName)) ==>
        && alert == None
        && lists == old(lists) + [ShoppingList(freshId, old(newListName))]
        && newListName == "" && !isModalVisible
        && storage.docs == Write(old(storage.docs), ListsKey, ListsDoc(lists), writeOk)
    {
      if IsBlank(newListName) {
        return Some(InvalidNameAlert);
      }
      var newList := ShoppingList(freshId, newListName);
      lists := lists + [newList];
      Persist(writeOk);
      newListName := "";
      isModalVisible := false;
      alert := None;
    }

    /** `handleDeleteList`: when the user confirms, every list with the id
        is removed; "Cancelar" changes nothing. The items stored for the
        deleted list stay in the store: there is no cascade. */
    method DeleteList(listId: string, confirmed: bool, writeOk: bool)
      requires Valid()
      modifies this, storage
      ensures Valid()
      ensures isModalVisible == old(isModalVisible) && newListName == old(newListName)
      ensures !confirmed ==> lists == old(lists) && storage.docs == old(storage.docs)
      ensures confirmed ==>
        && lists == WithoutList(old(lists), listId)
        && storage.docs == Write(old(storage.docs), ListsKey, ListsDoc(lists), writeOk)
      ensures forall id :: Get(storage.docs, ItemsKey(id)) == Get(old(storage.docs), ItemsKey(id))
    {
      if confirmed {
        lists := WithoutList(lists, listId);
        Persist(writeOk);
      }
    }

    /** Tapping a list opens its item screen for that list's id on the
        shared storage, and the screen mounts: it loads what is stored under
        the list's key, after the mount-time write of its empty `items`. The
        lists, and the store outside that key, stay as they were. */
    method OpenList(list: ShoppingList, readOk: bool, mountOk: bool, writeOk: bool)
      returns (screen: ListDetailScreen)
      requires Valid()
      modifies storage
      ensures Valid() && screen.Valid()
      ensures fresh(screen)
      ensures screen.listId == list.id && screen.storage == storage
      ensures screen.items == LoadedItems(ReadResult(old(storage.docs), ItemsKey(list.id), readOk), [])
      ensures screen.newItemName == "" && screen.DialogState() == Dialog(false, None, "", "")
      ensures storage.docs == AfterMount(old(storage.docs), ItemsKey(list.id), ItemsDoc([]),
                                         readOk, mountOk, writeOk)
      ensures Get(storage.docs, ListsKey) == Get(old(storage.docs), ListsKey)
      ensures lists == old(lists)
    {
      screen := new ListDetailScreen(list.id, storage);
      screen.Mount(readOk, mountOk, writeOk);
      ListsKeyIsNoItemsKey(list.id);
      AfterMountOutcome(old(storage.docs), ItemsKey(list.id), ItemsDoc([]), readOk, mountOk, writeOk);
    }
  }
}
