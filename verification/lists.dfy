/**
 * The new values the home screen computes for its `lists` array: the
 * spread-append of a new list and the `filter` that deletes one.
 */
module Lists {

  import opened Records
  import opened Collections

  /** The `Alert.alert(title, message)` the home screen shows. */
  datatype Alert = Alert(title: string, message: string)

  /** Shown when the name of a new list is blank. */
  const InvalidNameAlert: Alert :=
    Alert("Nome Inválido", "Por favor, digite um nome para a lista.")

  /** `lists.filter(list => list.id !== id)` */
  function WithoutList(lists: seq<ShoppingList>, id: string): seq<ShoppingList> {
    RemoveId(lists, ListId, id)
  }

  /** No list of the sequence has the id. */
  predicate NoListWithId(lists: seq<ShoppingList>, id: string) {
    forall l :: l in lists ==> l.id != id
  }

  /** A confirmed list delete removes every list with the id, keeps every
      other list as often as it occurred and in order, changes nothing when
      the id is absent, and deleting twice is deleting once. */
  lemma WithoutListSpec(lists: seq<ShoppingList>, id: string)
    ensures NoListWithId(WithoutList(lists, id), id)
    ensures forall l :: multiset(WithoutList(lists, id))[l] ==
                        (if l.id == id then 0 else multiset(lists)[l])
    ensures SubsequenceOf(WithoutList(lists, id), lists)
    ensures NoListWithId(lists, id) ==> WithoutList(lists, id) == lists
    ensures WithoutList(WithoutList(lists, id), id) == WithoutList(lists, id)
  {
    RemoveIdSpec(lists, ListId, id);
  }

  /** Deleting the list just created, under a fresh id, restores the
      collection. */
  lemma DeleteUndoesCreate(lists: seq<ShoppingList>, id: string, name: string)
    requires NoListWithId(lists, id)
    ensures WithoutList(lists + [ShoppingList(id, name)], id) == lists
  {
    RemoveIdUndoesAppend(lists, ShoppingList(id, name), ListId);
  }
}
