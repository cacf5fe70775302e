/**
 * Device storage as the screens use it: a key-value store in which each
 * screen keeps one whole collection under one key and rewrites it in full
 * after every change. The JSON encoding is abstracted away: a stored
 * value is the collection itself, so reading a key back gives exactly the
 * collection last written there.
 */
module Persistence {

  import opened Options
  import opened Records

  /** What is stored under a key: the collection of lists, or the items of
      one list. */
  datatype Document = ListsDoc(lists: seq<ShoppingList>) | ItemsDoc(items: seq<ShoppingItem>)

  type Store = map<string, Document>

  /** The one key of the collection of lists. */
  const ListsKey: string := "@shopping_lists"

  const ItemsKeyPrefix: string := "@shopping_list_items_"

  /** The key of the items of the list with id `listId`. */
  function ItemsKey(listId: string): (k: string)
    ensures |k| == |ItemsKeyPrefix| + |listId|
    ensures k[..|ItemsKeyPrefix|] == ItemsKeyPrefix && k[|ItemsKeyPrefix|..] == listId
  {
    ItemsKeyPrefix + listId
  }

  /** `getItem(key)`: the stored value, `None` for `null`. */
  function Get(store: Store, key: string): Option<Document> {
    if key in store then Some(store[key]) else None
  }

  /** `setItem(key, value)`: overwrites the whole value under `key`. Reading
      the key back gives the value written, and no other key changes. */
  function Put(store: Store, key: string, doc: Document): (r: Store)
    ensures Get(r, key) == Some(doc)
    ensures forall k :: k != key ==> Get(r, k) == Get(store, k)
  {
    store[key := doc]
  }

  /** A `setItem` that may fail: a failed write leaves the store as it
      was. */
  function Write(store: Store, key: string, doc: Document, ok: bool): Store {
    if ok then Put(store, key, doc) else store
  }

  /** What a `getItem` that may fail returns: the stored value or `None`
      for `null`, and `None` when the read fails (the screen only logs). */
  function ReadResult(store: Store, key: string, ok: bool): Option<Document> {
    if ok then Get(store, key) else None
  }

  /** Two documents hold the same kind of collection. */
  predicate SameKind(a: Document, b: Document) {
    a.ListsDoc? == b.ListsDoc?
  }

  /** The store after a screen mounts with the collection `current`. The
      load effect issues its `getItem` first; the save effect then writes
      `current` at once (a write that may fail, `mountOk`); when the read
      gave a stored collection, the screen takes it over and the save
      effect writes it back (`writeOk`). */
  function AfterMount(store: Store, key: string, current: Document,
                      readOk: bool, mountOk: bool, writeOk: bool): Store {
    var stored := ReadResult(store, key, readOk);
    var mounted := Write(store, key, current, mountOk);
    if stored.Some? && SameKind(stored.value, current)
    then Write(mounted, key, stored.value, writeOk)
    else mounted
  }

  /** After mounting, the screen's key holds the collection it read when
      both the read and the write-back succeed; otherwise whatever the
      mount-time write put there, or, when that failed too, what it held
      before. No other key changes. */
  lemma AfterMountOutcome(store: Store, key: string, current: Document,
                          readOk: bool, mountOk: bool, writeOk: bool)
    ensures var stored := ReadResult(store, key, readOk);
      var loaded := stored.Some? && SameKind(stored.value, current);
      Get(AfterMount(store, key, current, readOk, mountOk, writeOk), key) ==
        if loaded && writeOk then stored
        else if mountOk then Some(current)
        else Get(store, key)
    ensures forall k :: k != key ==>
      Get(AfterMount(store, key, current, readOk, mountOk, writeOk), k) == Get(store, k)
  {
    var stored := ReadResult(store, key, readOk);
    var mounted := Write(store, key, current, mountOk);
    if stored.Some? && SameKind(stored.value, current) && writeOk {
      assert Get(Put(mounted, key, stored.value), key) == stored;
    }
  }

  /** The mount-time write is not undone when nothing is loaded: after a
      failed read, or with nothing stored, a successful mount-time write
      leaves the empty collection under the key for good, whatever the key
      held before. And when the read succeeds but the write-back fails, the
      key keeps the empty collection while the screen shows what it read. */
  lemma MountOverwritesWithEmpty(store: Store, key: string, current: Document,
                                 readOk: bool, writeOk: bool)
    requires current == ItemsDoc([]) || current == ListsDoc([])
    requires !readOk || key !in store || !writeOk
    ensures Get(AfterMount(store, key, current, readOk, true, writeOk), key) == Some(current)
  {
    AfterMountOutcome(store, key, current, readOk, true, writeOk);
  }

  /** What a screen's `items` become on loading: the stored collection
      when `getItem` gave one, what it had otherwise (`null`, or a failed
      read). */
  function LoadedItems(stored: Option<Document>, current: seq<ShoppingItem>): seq<ShoppingItem> {
    if stored.Some? && stored.value.ItemsDoc? then stored.value.items else current
  }

  /** The same for the home screen's `lists`. */
  function LoadedLists(stored: Option<Document>, current: seq<ShoppingList>): seq<ShoppingList> {
    if stored.Some? && stored.value.ListsDoc? then stored.value.lists else current
  }

  /** Every list has its own item key, and the same id always the same key. */
  lemma ItemsKeyInjective(a: string, b: string)
    ensures ItemsKey(a) == ItemsKey(b) <==> a == b
  {
    if ItemsKey(a) == ItemsKey(b) {
      assert a == ItemsKey(a)[|ItemsKeyPrefix|..];
      assert b == ItemsKey(b)[|ItemsKeyPrefix|..];
    }
  }

  /** No item key is the key of the lists: the two differ at position 14,
      `'s'` against `'_'`. */
  lemma ListsKeyIsNoItemsKey(listId: string)
    ensures ListsKey != ItemsKey(listId)
  {
    assert ListsKey[14] == 's';
    assert ItemsKey(listId)[14] == '_';
  }

  /** Writing the lists leaves the items of every list where they were. */
  lemma PutListsKeepsItems(store: Store, doc: Document, listId: string)
    ensures Get(Put(store, ListsKey, doc), ItemsKey(listId)) == Get(store, ItemsKey(listId))
  {
    ListsKeyIsNoItemsKey(listId);
  }

  /** Writing the items of one list leaves the lists, and the items of
      every other list, where they were. */
  lemma PutItemsKeepsOthers(store: Store, listId: string, doc: Document, other: string)
    requires other != listId
    ensures Get(Put(store, ItemsKey(listId), doc), ItemsKey(other)) == Get(store, ItemsKey(other))
    ensures Get(Put(store, ItemsKey(listId), doc), ListsKey) == Get(store, ListsKey)
  {
    ItemsKeyInjective(listId, other);
    ListsKeyIsNoItemsKey(listId);
  }

  /** The store holds a collection of lists under the lists key and
      collections of items everywhere else. */
  ghost predicate WellFormed(store: Store) {
    forall k :: k in store ==> (store[k].ListsDoc? <==> k == ListsKey)
  }

  /** Saving the items of one list and then opening another list loads
      what that other list had, and the lists of the home screen load as
      before. */
  lemma SaveItemsThenLoadOther(store: Store, listId: string, items: seq<ShoppingItem>, ok: bool,
                               other: string, current: seq<ShoppingItem>,
                               currentLists: seq<ShoppingList>)
    requires other != listId
    ensures var after := Write(store, ItemsKey(listId), ItemsDoc(items), ok);
      && LoadedItems(Get(after, ItemsKey(other)), current) == LoadedItems(Get(store, ItemsKey(other)), current)
      && LoadedLists(Get(after, ListsKey), currentLists) == LoadedLists(Get(store, ListsKey), currentLists)
  {
    if ok {
      PutItemsKeepsOthers(store, listId, ItemsDoc(items), other);
    }
  }

  /** Saving the lists and then opening any list loads the items that list
      had before: the home screen's writes never touch an item key. */
  lemma SaveListsThenLoadItems(store: Store, lists: seq<ShoppingList>, ok: bool,
                               listId: string, current: seq<ShoppingItem>)
    ensures LoadedItems(Get(Write(store, ListsKey, ListsDoc(lists), ok), ItemsKey(listId)), current)
            == LoadedItems(Get(store, ItemsKey(listId)), current)
  {
    if ok {
      PutListsKeepsItems(store, ListsDoc(lists), listId);
    }
  }

  lemma PutListsWellFormed(store: Store, lists: seq<ShoppingList>)
    requires WellFormed(store)
    ensures WellFormed(Put(store, ListsKey, ListsDoc(lists)))
  {
  }

  lemma PutItemsWellFormed(store: Store, listId: string, items: seq<ShoppingItem>)
    requires WellFormed(store)
    ensures WellFormed(Put(store, ItemsKey(listId), ItemsDoc(items)))
  {
    ListsKeyIsNoItemsKey(listId);
  }

  /** The storage object both screens share. A read or a write that fails
      is only logged by the screens, so each operation takes whether it
      succeeds as a parameter. */
  class Storage {
    var docs: Store

    constructor (initial: Store)
      ensures docs == initial
    {
      docs := initial;
    }

    method SetItem(key: string, doc: Document, ok: bool)
      modifies this
      ensures docs == Write(old(docs), key, doc, ok)
    {
      if ok {
        docs := Put(docs, key, doc);
      }
    }

    /** A failed read is reported like an absent key: the caller keeps what
        it has. */
    method GetItem(key: string, ok: bool) returns (r: Option<Document>)
      ensures ok ==> r == Get(docs, key)
      ensures !ok ==> r == None
    {
      if ok {
        r := Get(docs, key);
      } else {
        r := None;
      }
    }
  }
}
