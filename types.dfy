/** The shapes the Kanban layout works with: the declarations of
    app/src/layouts/kanban/types.ts, the collection metadata it consumes, the
    outgoing calls it makes and the host helpers it calls without seeing. */
module KanbanTypes {
  import opened Js

  /** A field of a collection, as the fields store describes it. */
  datatype FieldInfo = FieldInfo(field: string, fieldType: string)

  /** A relation of the relations store. `meta` stands for everything else
      the store records, which only the relation-type classifier reads. */
  datatype Relation = Relation(
    collection: string,
    field: string,
    relatedCollection: Option<string>,
    meta: Value)

  /** What `getRelationType` can answer besides `null`. */
  datatype RelationType = M2o | O2m | M2a

  /** A card of the board (`Item` in types.ts). `item` is the raw record. */
  datatype Card = Card(
    id: Value,
    title: Option<string>,
    text: Value,
    image: Option<string>,
    date: Value,
    dateType: Option<string>,
    tags: Value,
    item: Record)

  /** A column of the board. */
  datatype Group = Group(id: Value, title: Value, items: seq<Card>)

  /** `moved` carries `oldIndex`: the reconciler reads it, although types.ts
      leaves it out of the declaration. */
  datatype Moved = Moved(element: Card, oldIndex: nat, newIndex: nat)
  datatype Added = Added(element: Card, newIndex: nat)

  /** A change event of the drag-and-drop list: each part may be absent. */
  datatype ChangeEvent = ChangeEvent(
    added: Option<Added>,
    removed: Option<Added>,
    moved: Option<Moved>)

  /** The keys of the view options whose values are `string | null`. */
  datatype TextKey = GroupField | GroupTitle | DateField | TagsField | ImageSource | Title | Text

  /** The persisted view options. A key that is absent reads as `undefined`;
      a stored `None` is `null`. `crop` is the one boolean option. */
  datatype LayoutOptions = LayoutOptions(text: map<TextKey, Option<string>>, crop: Option<bool>)

  /** The persisted query; every part is optional. */
  datatype LayoutQuery = LayoutQuery(
    fields: Option<seq<string>>,
    sort: Option<string>,
    limit: Option<int>,
    page: Option<int>)

  const EmptyQuery := LayoutQuery(None, None, None, None)
  const EmptyOptions := LayoutOptions(map[], None)

  /** The parameters handed to the items composable. */
  datatype ItemsQuery = ItemsQuery(
    sort: string,
    limit: int,
    page: int,
    fields: seq<string>,
    filters: seq<Value>,
    searchQuery: Option<string>)

  /** An outgoing call, in the order issued. */
  datatype Effect =
    | ManualSort(item: Value, to: Value)
    | Patch(url: string, body: map<string, Value>)

  /** The host helpers the layout calls and whose code is not part of this
      model: `getRelationType`, `getFieldsFromTemplate`,
      `adjustFieldsForDisplays`, `getRootPath` and `addTokenToURL`. */
  datatype Host = Host(
    relationType: (Relation, Option<string>, string) -> Option<RelationType>,
    fieldsFromTemplate: string -> seq<string>,
    adjustFieldsForDisplays: (seq<string>, string) -> seq<string>,
    rootPath: string,
    addTokenToUrl: string -> string)
}
