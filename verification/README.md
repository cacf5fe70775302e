# Shopping lists: a verified model of the two screens

The app keeps a collection of named shopping lists on its home screen. Each
list has its own screen of items. An item is added pending ("A Comprar"). A
check opens a dialog where the user types a price and a quantity, and saving
that dialog moves the item into the cart ("No Carrinho"). Checking a
purchased item takes it out of the cart again. Under the items, a cart
summary counts the purchased items and sums price × quantity over them.
Both screens keep their whole collection in a device key-value store and
rewrite it in full after every change. The lists live under the key
`@shopping_lists`. The items of a list live under `@shopping_list_items_`
followed by the list's id.

This model follows the same layout:

- `records.dfy`: the two records, a list and an item.
- `options.dfy`: an `Option` type for values that may be missing.
- `text.dfy`: JavaScript's `trim`, one-character `replace` and `parseInt(_, 10)`.
- `collections.dfy`: `filter` on sequences, with the facts about it (order kept, exact membership, multiset counts, the split into two groups) and deletion by id.
- `items.dfy`: the new values the item handlers compute (`map` by id, `filter` by id) and the two sections.
- `cart.dfy`: the cart summary as a left fold over the purchased items.
- `lists.dfy`: the new values of the list collection, and the alert raised for a blank name.
- `persistence.dfy`: the store as a map from key to document, its two key schemes, and a `Storage` object with `setItem` and `getItem`.
- `list_detail.dfy`: the item screen as a class. Its fields are the component state: `items`, `newItemName`, `isModalVisible`, `selectedItem`, `itemPrice` and `itemQuantity`. Each handler is a method.
- `home.dfy`: the home screen as a class with `lists`, `isModalVisible` and `newListName`, and its handlers.

Every method of the two screens states its whole new state: the new
collection as a function of the old one, every other field unchanged, and
the store as `Write(old store, key, whole collection, writeOk)`. The lemmas
about those functions carry the promised properties: order, permutation,
"nothing else changes", idempotence, the fold, and the key scheme. Each
screen also keeps an invariant, `Valid()`. It says the store holds lists
only under the lists key, and on the item screen also that the dialog only
shows while an item is selected.

Three behaviours of the code are worth stating plainly, because the model
follows them exactly:

- `handleAddNewList` (screens/HomeScreen.js:61-62) tests `trim()` but stores the name as typed. `Home.HomeScreen.AddNewList` stores `old(newListName)` untrimmed, and `ListDetail.ListDetailScreen.AddItem` does the same for item names (screens/ListDetailScreen.js:75-78).
- A failed or empty load keeps what the screen already holds (screens/HomeScreen.js:42-45, screens/ListDetailScreen.js:49-52). On mount that is `[]`.
- On mount, the save effect (screens/ListDetailScreen.js:58-65, screens/HomeScreen.js:50-57) writes the still-empty collection right after the load effect has issued its read. When that read fails, or the key holds nothing, nothing writes the old value back, so a successful mount-time write leaves `[]` under the key for good. When the read succeeds but the write-back after it fails, the key keeps `[]` while the screen shows what it read. `Persistence.AfterMount` is that sequence of writes, and `Persistence.MountOverwritesWithEmpty` states the overwrite.

Ids are taken as given. Nothing assumes they are unique, so the map-by-id and
the filter-by-id are stated for every item that has the id.

## Model

| member | source | states |
|---|---|---|
| Text.TrimStart | screens/ListDetailScreen.js:75 | the result is a suffix of the input; every dropped character is whitespace; the first kept one is not |
| Text.Trim | screens/ListDetailScreen.js:75 | `trim()`: `TrimStart` and then `TrimEnd`, whose contracts fix the result |
| Text.IsBlank | screens/HomeScreen.js:61 | `name.trim() === ''`: by `Text.BlankIffAllWhitespace`, exactly the all-whitespace names |
| Text.TrimEnd | screens/ListDetailScreen.js:75 | the result is a prefix of the input; every dropped character is whitespace; the last kept one is not |
| Text.BlankIffAllWhitespace | screens/ListDetailScreen.js:75 | a name is rejected as blank if and only if every character of it is whitespace |
| Text.ReplaceFirst | screens/ListDetailScreen.js:131 | `replace(',', '.')` with a one-character string pattern; `Text.ReplaceFirstSpec` states what it does |
| Text.ReplaceFirstSpec | screens/ListDetailScreen.js:131 | `replace(',', '.')` keeps the length and changes only the first comma, to a point |
| Text.ReplaceFirstAt | screens/ListDetailScreen.js:131 | in `p + "," + q` with no comma in `p`, exactly that comma becomes a point |
| Text.ReplaceFirstAbsent | screens/ListDetailScreen.js:131 | text without a comma is left as it is |
| Text.ParseInt | screens/ListDetailScreen.js:132 | `parseInt(_, 10)`: skip leading whitespace, read one optional sign, then the longest run of digits; no digit gives NaN (`None`); `Text.ParseIntDecimal` and `Text.ParseIntRejects` state its behaviour |
| Text.DigitPrefix | screens/ListDetailScreen.js:132 | the longest leading run of decimal digits: all digits, followed by a non-digit or the end |
| Text.ParseIntDecimal | screens/ListDetailScreen.js:132 | `parseInt` reads back every natural number from its decimal text |
| Text.ParseIntRejects | screens/ListDetailScreen.js:132 | text that starts with anything but whitespace, a sign or a digit is NaN to `parseInt` |
| Text.DecimalValue | screens/ListDetailScreen.js:132 | the digits of the decimal text of `n` have the value `n` |
| Collections.Filter | screens/ListDetailScreen.js:129 | `filter` gives no more elements than it gets, and keeps only elements of the input that pass |
| Collections.FilterSubsequence | screens/ListDetailScreen.js:162-163 | `filter` keeps the relative order of the elements it keeps |
| Collections.FilterCount | screens/ListDetailScreen.js:162-163 | each value passing the test occurs as often as in the input; each failing value never occurs |
| Collections.FilterPartition | screens/ListDetailScreen.js:162-163 | filtering by a test and by its negation gives two parts that together are a permutation of the input |
| Collections.FilterAll | screens/ListDetailScreen.js:129 | filtering when every element passes changes nothing |
| Collections.FilterIdempotent | screens/ListDetailScreen.js:129 | filtering twice by the same test is filtering once |
| Collections.RemoveId | screens/ListDetailScreen.js:118-120 | no element with the id survives a delete by id |
| Collections.RemoveIdSpec | screens/ListDetailScreen.js:118-120 | a delete by id drops exactly the elements with the id, keeps the others with their counts and order, is the identity when the id is absent, and is idempotent |
| Collections.RemoveIdUndoesAppend | screens/ListDetailScreen.js:118-120 | deleting the id of an element just appended under a fresh id restores the sequence |
| Persistence.ListsKey | screens/HomeScreen.js:28 | the one fixed key `@shopping_lists` |
| Persistence.ItemsKey | screens/ListDetailScreen.js:33 | the item key is the prefix `@shopping_list_items_` followed by exactly the list id |
| Persistence.AfterMount | screens/ListDetailScreen.js:45-65 | the store after the read of the load effect, the mount-time write of the empty collection, and, when the read gave a collection, its write-back |
| Persistence.AfterMountOutcome | screens/HomeScreen.js:38-57 | after a mount the key holds what was read when the read and the write-back both succeed; otherwise the mount-time collection when that write succeeded; otherwise what it held before; no other key changes |
| Persistence.MountOverwritesWithEmpty | screens/ListDetailScreen.js:45-65 | after a failed read, an absent key, or a failed write-back, a successful mount-time write leaves the empty collection under the key |
| Persistence.Put | screens/ListDetailScreen.js:61 | `setItem` makes the key read back the value written and changes no other key |
| Persistence.ItemsKeyInjective | screens/ListDetailScreen.js:33 | two lists have the same item key if and only if they have the same id |
| Persistence.ListsKeyIsNoItemsKey | screens/HomeScreen.js:28 | the lists key is the item key of no list |
| Persistence.PutListsKeepsItems | screens/HomeScreen.js:53 | saving the lists leaves the items of every list where they were |
| Persistence.PutItemsKeepsOthers | screens/ListDetailScreen.js:61 | saving the items of one list leaves the lists and the items of every other list where they were |
| Persistence.SaveItemsThenLoadOther | screens/ListDetailScreen.js:45-65 | after one list's items are saved, opening another list loads what that list had, and the home screen loads the lists it had |
| Persistence.SaveListsThenLoadItems | screens/HomeScreen.js:50-57 | after the lists are saved, opening any list loads the items it had before |
| Persistence.Storage.SetItem | screens/ListDetailScreen.js:61 | a write that succeeds overwrites the key; a write that fails changes nothing |
| Persistence.Storage.GetItem | screens/ListDetailScreen.js:48 | a read that succeeds gives the stored value or `None`; a read that fails gives `None` |
| Items.WithoutItem | screens/ListDetailScreen.js:119 | `items.filter(item => item.id !== itemId)`; `Items.WithoutItemSpec` states what it keeps |
| Items.Pending | screens/ListDetailScreen.js:162 | `items.filter(item => !item.purchased)`; `Items.SectionsPartition` states what it holds |
| Items.Purchased | screens/ListDetailScreen.js:163 | `items.filter(item => item.purchased)`; `Items.SectionsPartition` states what it holds |
| Items.Unmark | screens/ListDetailScreen.js:89 | every item with the id becomes pending and keeps its name, price and quantity; every other item is untouched; the length is kept |
| Items.Confirm | screens/ListDetailScreen.js:101-103 | every item with the id becomes purchased with the price and quantity text exactly as entered; every other item is untouched; the length is kept |
| Items.UpdateAbsent | screens/ListDetailScreen.js:101-103 | checking off or confirming an id no item has changes no item |
| Items.UpdateAround | screens/ListDetailScreen.js:98-107 | updating the one item with its id changes that position only |
| Items.Sections | screens/ListDetailScreen.js:164-167 | two sections, "A Comprar" first, then "No Carrinho" |
| Items.SectionsPartition | screens/ListDetailScreen.js:162-167 | the first section holds exactly the pending items and the second exactly the purchased ones, each in their original order; together they are a permutation of `items`; an empty list gives two empty sections |
| Items.UnmarkLeavesCart | screens/ListDetailScreen.js:89 | after un-purchasing an id, the cart section is the old one without the items that have that id |
| Items.ConfirmLeavesPending | screens/ListDetailScreen.js:101-103 | after confirming an id, the pending section is the old one without the items that have that id |
| Items.WithoutItemSpec | screens/ListDetailScreen.js:118-120 | a confirmed item delete removes every item with the id, keeps the rest with their counts and order, does nothing for an absent id, and is idempotent |
| Items.DeleteUndoesAdd | screens/ListDetailScreen.js:83 | deleting the item just added under a fresh id restores the list |
| Items.DetailsRecordedKept | screens/ListDetailScreen.js:74-126 | adding, checking off, confirming and deleting keep every purchased item with a recorded price and quantity |
| Cart.Summary | screens/ListDetailScreen.js:128-139 | `cartSummary`: the number of purchased items and the fold of their lines; the `Cart.Summary*` lemmas state how each handler changes it |
| Cart.PriceValue | screens/ListDetailScreen.js:131 | `parseFloat(String(item.price).replace(',', '.')) \|\| 0`, with `parseFloat` a parameter; `Cart.PriceFromText` states it |
| Cart.QuantityValue | screens/ListDetailScreen.js:132 | `parseInt(item.quantity, 10) \|\| 0`; `Cart.QuantityExamples` states it |
| Cart.LineTotal | screens/ListDetailScreen.js:133 | `price * quantity` for one item |
| Cart.SumLines | screens/ListDetailScreen.js:130-134 | the `reduce` from 0 over the purchased items; `Cart.SumLinesAppend` states how it splits |
| Cart.SumLinesAppend | screens/ListDetailScreen.js:130-134 | the fold over a concatenation is the sum of the two folds |
| Cart.SummaryCountsCart | screens/ListDetailScreen.js:136 | `totalItems` is the length of the "No Carrinho" section, which is the number of items minus the pending ones |
| Cart.SummaryIgnoresPendingDetails | screens/ListDetailScreen.js:129-134 | a pending item's stale price or quantity has no effect on the summary |
| Cart.SummaryAfterAdd | screens/ListDetailScreen.js:128-139 | adding a new pending item leaves the summary as it was |
| Cart.SummaryOfTwo | screens/ListDetailScreen.js:130-136 | a cart of two purchased items has two items and sums their two lines |
| Cart.SplitAround | screens/ListDetailScreen.js:101-103 | the only item with its id splits the list into a part before it and a part after it, neither of which has the id |
| Cart.PurchasedAround | screens/ListDetailScreen.js:129 | the cart section of `a + [x] + b` is that of `a`, then `x` if purchased, then that of `b` |
| Cart.SumLinesAround | screens/ListDetailScreen.js:130-134 | one item in the middle adds its line to the fold |
| Cart.ConfirmAround | screens/ListDetailScreen.js:98-107 | confirming the only item with its id adds one item and that item's line to the summary |
| Cart.UnmarkAround | screens/ListDetailScreen.js:87-96 | un-purchasing the only item with its id removes one item and that item's line from the summary |
| Cart.SummaryAfterConfirm | screens/ListDetailScreen.js:128-139 | confirming the one pending item with an id puts one more item in the cart and adds its line, computed from the text just entered, to the total |
| Cart.SummaryAfterUnmark | screens/ListDetailScreen.js:128-139 | un-purchasing the one purchased item with an id takes it out of the count and its line out of the total |
| Cart.QuantityExamples | screens/ListDetailScreen.js:132 | quantities "3", "2" and "1" count 3, 2 and 1; "abc" and a missing quantity count 0 |
| Cart.PriceFromText | screens/ListDetailScreen.js:131 | a price typed with a decimal comma is what `parseFloat` reads from the same text with a decimal point |
| Cart.LineTotalExample | screens/ListDetailScreen.js:131-133 | quantity "3" at price "5,50" adds 16.50 to the total |
| Cart.MalformedLineExample | screens/ListDetailScreen.js:131-133 | a quantity of "abc" adds 0 whatever the price, and a price of "x" adds 0 whatever the quantity |
| Cart.TenTimesTwoExample | screens/ListDetailScreen.js:131-133 | quantity "2" at price "10,00" adds 20 |
| Cart.OneAtFiveTwentyFiveExample | screens/ListDetailScreen.js:131-133 | quantity "1" at price "5,25" adds 5.25 |
| Cart.TwoItemSummaryExample | screens/ListDetailScreen.js:128-139 | 2 at "10,00" and 1 at "5,25" make a cart of 2 items worth 25.25 |
| Lists.InvalidNameAlert | screens/HomeScreen.js:61 | the alert "Nome Inválido" with "Por favor, digite um nome para a lista." |
| Lists.WithoutList | screens/HomeScreen.js:72 | `lists.filter(list => list.id !== listId)`; `Lists.WithoutListSpec` states what it keeps |
| Lists.WithoutListSpec | screens/HomeScreen.js:72 | a confirmed list delete removes every list with the id, keeps the rest with their counts and order, does nothing for an absent id, and is idempotent |
| Lists.DeleteUndoesCreate | screens/HomeScreen.js:63 | deleting the list just created under a fresh id restores the collection |
| ListDetail.ListDetailScreen.constructor | screens/ListDetailScreen.js:35-40 | the screen mounts with no items, an empty input and the dialog closed with no selection |
| ListDetail.ListDetailScreen.Persist | screens/ListDetailScreen.js:58-65 | the whole of `items` is written under the list's key, so reading it back gives `items`; no other key changes; a failed write changes nothing |
| ListDetail.ListDetailScreen.Mount | screens/ListDetailScreen.js:45-65 | a stored collection replaces `items`, and an absent key or a failed read keeps what the screen has; the store is `AfterMount`: the mount-time write of the current `items`, then the write-back of what was read |
| ListDetail.ListDetailScreen.EditNewItemName | screens/ListDetailScreen.js:202 | typing sets the new-item text only |
| ListDetail.ListDetailScreen.EditQuantity | screens/ListDetailScreen.js:183 | typing sets the quantity text only |
| ListDetail.ListDetailScreen.EditPrice | screens/ListDetailScreen.js:184 | typing sets the price text only |
| ListDetail.ListDetailScreen.AddItem | screens/ListDetailScreen.js:74-85 | a blank name changes nothing, with no alert; otherwise exactly one pending item without price or quantity, named as typed, is appended after the unchanged earlier items, the input is cleared, and the collection is saved |
| ListDetail.ListDetailScreen.CheckItem | screens/ListDetailScreen.js:87-96 | a purchased item is un-purchased by id and saved; otherwise `items` and the store stay as they are, and the dialog opens for the item, prefilled with its price and quantity or `''` |
| ListDetail.ListDetailScreen.SaveItemDetails | screens/ListDetailScreen.js:98-107 | with no selection nothing changes, and the dialog is closed; otherwise the selected id is confirmed with the typed text, the dialog closes, the selection is cleared, the typed text is kept, and the collection is saved |
| ListDetail.ListDetailScreen.DismissDetails | screens/ListDetailScreen.js:177-187 | cancelling only hides the dialog; `items`, the selection and the prefilled text stay |
| ListDetail.ListDetailScreen.DeleteItem | screens/ListDetailScreen.js:109-126 | once confirmed, every item with the id is removed and the collection saved; "Cancelar" changes nothing |
| Home.HomeScreen.constructor | screens/HomeScreen.js:31-35 | the screen mounts with no lists, the dialog closed and an empty name |
| Home.HomeScreen.Persist | screens/HomeScreen.js:50-57 | the whole of `lists` is written under `@shopping_lists`, so reading it back gives the same lists in the same order; no item key changes; a failed write changes nothing |
| Home.HomeScreen.Mount | screens/HomeScreen.js:38-57 | a stored collection replaces `lists`, and an absent key or a failed read keeps what the screen has; the store is `AfterMount` under the lists key, and no item key changes |
| Home.HomeScreen.OpenNewListDialog | screens/HomeScreen.js:150 | the "+" button shows the dialog and changes nothing else |
| Home.HomeScreen.CloseNewListDialog | screens/HomeScreen.js:115 | cancelling hides the dialog and keeps the typed name and the lists |
| Home.HomeScreen.EditNewListName | screens/HomeScreen.js:109 | typing sets the name text only |
| Home.HomeScreen.AddNewList | screens/HomeScreen.js:60-66 | a blank name raises the "Nome Inválido" alert and changes nothing; otherwise exactly one list, named as typed, is appended after the unchanged earlier lists, the input is cleared, the dialog is closed, and the collection is saved |
| Home.HomeScreen.DeleteList | screens/HomeScreen.js:69-74 | once confirmed, every list with the id is removed and the collection saved; "Cancelar" changes nothing; the stored items of every list, the deleted one included, stay as they were |
| Home.HomeScreen.OpenList | screens/HomeScreen.js:79 | tapping a list opens a fresh item screen for its id on the shared store, and it mounts: its items are what was read from that list's key, that key ends as `AfterMount` with the empty collection, the lists key keeps what it held, and the lists are unchanged |

## Left out

- Rendering and styling: the JSX, styles, `SectionList`, `FlatList`, the checkbox, the icons, the animation, and whether a section header shows. They are presentation only.
- Navigation: the title set from `listName` and the navigator of `App.js`. `OpenList` passes only the id, and the name is used for display only.
- `teste.js`: a scratch file that nothing imports. It holds older revisions of both screens that behave differently.
- JSON encoding: a stored value is the collection itself. A string that fails to parse would be caught and logged like a failed read, and that case is covered by `readOk`.
- Effect timing: the reads and writes are asynchronous. The model runs them in the order they are issued, which is the load's read, then the mount-time write, then the write-back. It does not model a store that completes them in another order.
- Storage failures: whether a `getItem` or `setItem` succeeds is the parameter `readOk` or `writeOk`. A failure is only logged.
- Confirmation prompts and ids: the answer to `Alert.alert` is the parameter `confirmed`, and the id from `Date.now().toString()` is the parameter `freshId`.
- Cart.PriceValue: `parseFloat` is a parameter that returns `None` for NaN, so prices are exact reals. Floating-point rounding is not modelled, and neither is the `toFixed(2).replace('.', ',')` display text of the total.
- Text.ParseInt: numbers are unbounded, so it does not model the loss of precision beyond 2^53 that a JavaScript number has.
- ListDetail.ListDetailScreen.Mount: a stored document of the wrong kind under an item key is not loaded, and the screen keeps its items. Under `Valid()` no such document exists.
