/** The layout's mutable state and the drag/change reconciler (`change`,
    index.ts 170-190), with the option and query setters (index.ts 215-267).
    The item table is an array of records that `change` updates in place; the
    calls to `api.patch` and `changeManualSort` are appended to an effect log. */
module Board {
  import opened Js
  import opened KanbanTypes
  import opened LayoutAccess
  import Grouper

  /** The table row `findIndex` picks: the first whose primary key is `id`. */
  function RowOf(table: seq<Record>, pk: string, id: Value): (r: Option<nat>)
    ensures r.None? ==> forall i :: 0 <= i < |table| ==> Lookup(table[i], pk) != id
    ensures r.Some? ==> r.value < |table| && Lookup(table[r.value], pk) == id
    ensures r.Some? ==> forall j :: 0 <= j < r.value ==> Lookup(table[j], pk) != id
  {
    FindIndex(table, (item: Record) => Lookup(item, pk) == id)
  }

  /** `${collection}` in the PATCH path. */
  function CollectionText(collection: Option<string>): string {
    if collection.Some? then collection.value else "null"
  }

  function PatchUrl(collection: Option<string>, id: Value): string {
    "/items/" + CollectionText(collection) + "/" + Show(id)
  }

  /** The event is one the source handles without throwing: indices inside
      the column, and an added element that is in the table. */
  predicate ChangeDefined(table: seq<Record>, pk: Option<string>, gField: Option<string>, group: Group, event: ChangeEvent) {
    IndicesDefined(pk, gField, group, event)
    && (pk.Some? && gField.Some? && event.moved.None? && event.added.Some? ==>
          exists i :: 0 <= i < |table| && Lookup(table[i], pk.value) == event.added.value.element.id)
  }

  /** The cards the calls name exist in the column. */
  predicate IndicesDefined(pk: Option<string>, gField: Option<string>, group: Group, event: ChangeEvent) {
    pk.Some? && gField.Some? ==>
      (event.moved.Some? ==>
         event.moved.value.oldIndex < |group.items| && event.moved.value.newIndex < |group.items|)
      && (event.moved.None? && event.added.Some? && |group.items| > 0 ==>
         event.added.value.newIndex < |group.items|)
  }

  /** The table after the change. */
  function ChangeTable(table: seq<Record>, pk: Option<string>, gField: Option<string>, group: Group, event: ChangeEvent): seq<Record>
    requires ChangeDefined(table, pk, gField, group, event)
  {
    if pk.None? || gField.None? || event.moved.Some? || event.added.None? then table
    else
      var i := RowOf(table, pk.value, event.added.value.element.id).value;
      table[i := table[i][gField.value := group.id]]
  }

  /** The calls the change issues, in order. */
  function ChangeEffects(collection: Option<string>, pk: Option<string>, gField: Option<string>,
                         group: Group, event: ChangeEvent): seq<Effect>
    requires IndicesDefined(pk, gField, group, event)
  {
    if pk.None? || gField.None? then []
    else if event.moved.Some? then
      [ManualSort(group.items[event.moved.value.oldIndex].id, group.items[event.moved.value.newIndex].id)]
    else if event.added.Some? then
      var el := event.added.value.element;
      [Patch(PatchUrl(collection, el.id), map[gField.value := group.id])]
      + (if |group.items| > 0 then [ManualSort(el.id, group.items[event.added.value.newIndex].id)] else [])
    else []
  }

  class KanbanLayout {
    const collection: Option<string>
    /** The name of the collection's primary-key field, if it has one. */
    const primaryKeyField: Option<string>
    /** The option defaults, computed from the field filters at setup. */
    const defaults: Defaults
    const items: array<Record>
    var layoutOptions: LayoutOptions
    var layoutQuery: LayoutQuery
    var effects: seq<Effect>

    /** The layout's setup: `relations` and `fields` are the relations of the
        store and the fields of the collection. */
    constructor (collection: Option<string>, primaryKeyField: Option<string>, host: Host,
                 relations: seq<Relation>, fields: seq<FieldInfo>,
                 items: array<Record>, layoutOptions: LayoutOptions, layoutQuery: LayoutQuery)
      ensures this.collection == collection && this.primaryKeyField == primaryKeyField
      ensures this.defaults == LayoutDefaults(host, relations, collection, fields) && this.items == items
      ensures this.layoutOptions == layoutOptions && this.layoutQuery == layoutQuery
      ensures effects == []
    {
      this.collection := collection;
      this.primaryKeyField := primaryKeyField;
      var d := LayoutDefaults(host, relations, collection, fields);
      this.defaults := d;
      this.items := items;
      this.layoutOptions := layoutOptions;
      this.layoutQuery := layoutQuery;
      effects := [];
    }

    /** What the option getters read now. */
    function Options(): Resolved
      reads this
    {
      Resolve(layoutOptions, defaults)
    }

    method SetTextOption(key: TextKey, v: Option<string>)
      modifies this
      ensures layoutOptions == WithTextOption(old(layoutOptions), key, v)
      ensures layoutQuery == old(layoutQuery) && effects == old(effects)
    {
      layoutOptions := LayoutOptions(layoutOptions.text[key := v], layoutOptions.crop);
    }

    method SetCrop(v: bool)
      modifies this
      ensures layoutOptions == WithCrop(old(layoutOptions), v)
      ensures layoutQuery == old(layoutQuery) && effects == old(effects)
    {
      layoutOptions := LayoutOptions(layoutOptions.text, Some(v));
    }

    method SetPage(p: int)
      modifies this
      ensures layoutQuery == WithPage(old(layoutQuery), p)
      ensures layoutOptions == old(layoutOptions) && effects == old(effects)
    {
      layoutQuery := LayoutQuery(layoutQuery.fields, layoutQuery.sort, layoutQuery.limit, Some(p));
    }

    method SetSort(s: string)
      modifies this
      ensures layoutQuery == WithSort(old(layoutQuery), s)
      ensures layoutOptions == old(layoutOptions) && effects == old(effects)
    {
      layoutQuery := LayoutQuery(layoutQuery.fields, Some(s), layoutQuery.limit, Some(1));
    }

    method SetLimit(l: int)
      modifies this
      ensures layoutQuery == WithLimit(old(layoutQuery), l)
      ensures layoutOptions == old(layoutOptions) && effects == old(effects)
    {
      layoutQuery := LayoutQuery(layoutQuery.fields, layoutQuery.sort, Some(l), Some(1));
    }

    /** `change(group, event)`: the local overwrite first, then the calls. */
    method Change(group: Group, event: ChangeEvent)
      requires ChangeDefined(items[..], primaryKeyField, Options().groupField, group, event)
      modifies this, items
      ensures items[..] == ChangeTable(old(items[..]), primaryKeyField, old(Options()).groupField, group, event)
      ensures effects == old(effects) + ChangeEffects(collection, primaryKeyField, old(Options()).groupField, group, event)
      ensures layoutOptions == old(layoutOptions) && layoutQuery == old(layoutQuery)
    {
      var pkField := primaryKeyField;
      var gField := ViewOption(layoutOptions.text, GroupField, defaults.groupField);
      assert gField == Options().groupField;
      if pkField.None? || gField.None? {
        return;
      }
      if event.moved.Some? {
        var m := event.moved.value;
        effects := effects + [ManualSort(group.items[m.oldIndex].id, group.items[m.newIndex].id)];
      } else if event.added.Some? {
        var added := event.added.value;
        var itemIndex := RowOf(items[..], pkField.value, added.element.id).value;
        items[itemIndex] := items[itemIndex][gField.value := group.id];
        effects := effects + [Patch(PatchUrl(collection, added.element.id), map[gField.value := group.id])];
        if |group.items| > 0 {
          effects := effects + [ManualSort(added.element.id, group.items[added.newIndex].id)];
        }
      }
    }
  }

  // ----- properties of the reconciler -----

  /** Without a primary key or a group field nothing changes and nothing is sent. */
  lemma UnresolvedChangeDoesNothing(collection: Option<string>, table: seq<Record>, pk: Option<string>,
                                    gField: Option<string>, group: Group, event: ChangeEvent)
    requires ChangeDefined(table, pk, gField, group, event)
    requires pk.None? || gField.None?
    ensures ChangeTable(table, pk, gField, group, event) == table
    ensures ChangeEffects(collection, pk, gField, group, event) == []
  {
  }

  /** A reorder within a column sends one manual-sort call, from the card at
      the old index to the card at the new index, and changes no item; it
      wins over an `added` part, and a `removed` part plays no role. */
  lemma MovedSendsOneSort(collection: Option<string>, table: seq<Record>, pk: Option<string>,
                          gField: Option<string>, group: Group, event: ChangeEvent)
    requires ChangeDefined(table, pk, gField, group, event)
    requires pk.Some? && gField.Some? && event.moved.Some?
    ensures ChangeTable(table, pk, gField, group, event) == table
    ensures var m := event.moved.value;
      ChangeEffects(collection, pk, gField, group, event) ==
        [ManualSort(group.items[m.oldIndex].id, group.items[m.newIndex].id)]
    ensures ChangeEffects(collection, pk, gField, group, event) ==
      ChangeEffects(collection, pk, gField, group, event.(added := None, removed := None))
  {
  }

  /** An event with only a `removed` part is ignored. */
  lemma RemovedIsIgnored(collection: Option<string>, table: seq<Record>, pk: Option<string>,
                         gField: Option<string>, group: Group, removed: Added)
    ensures ChangeDefined(table, pk, gField, group, ChangeEvent(None, Some(removed), None))
    ensures ChangeTable(table, pk, gField, group, ChangeEvent(None, Some(removed), None)) == table
    ensures ChangeEffects(collection, pk, gField, group, ChangeEvent(None, Some(removed), None)) == []
  {
  }

  /** A move into a column overwrites the group field of the first item
      with the element's primary key, with the column's id; no other item and
      no other field of that item changes. */
  lemma AddedOverwritesOneField(table: seq<Record>, pk: Option<string>, gField: Option<string>,
                                group: Group, event: ChangeEvent)
    requires ChangeDefined(table, pk, gField, group, event)
    requires pk.Some? && gField.Some? && event.moved.None? && event.added.Some?
    ensures var t := ChangeTable(table, pk, gField, group, event);
      var i := RowOf(table, pk.value, event.added.value.element.id).value;
      && |t| == |table|
      && Lookup(table[i], pk.value) == event.added.value.element.id
      && (forall j :: 0 <= j < |table| && j != i ==> t[j] == table[j])
      && Lookup(t[i], gField.value) == group.id
      && (forall key :: key != gField.value ==> Lookup(t[i], key) == Lookup(table[i], key))
  {
  }

  /** A move into a column sends exactly one PATCH, carrying only the group
      field set to the column's id, then a manual-sort call against the card
      at the drop index only if the column already had cards. */
  lemma AddedSendsOnePatch(collection: Option<string>, table: seq<Record>, pk: Option<string>,
                           gField: Option<string>, group: Group, event: ChangeEvent)
    requires ChangeDefined(table, pk, gField, group, event)
    requires pk.Some? && gField.Some? && event.moved.None? && event.added.Some?
    ensures var e := ChangeEffects(collection, pk, gField, group, event);
      var el := event.added.value.element;
      && |e| == (if |group.items| > 0 then 2 else 1)
      && e[0] == Patch(PatchUrl(collection, el.id), map[gField.value := group.id])
      && e[0].body.Keys == {gField.value}
      && (forall n :: 1 <= n < |e| ==> e[n].ManualSort?)
      && (|group.items| > 0 ==> e[1] == ManualSort(el.id, group.items[event.added.value.newIndex].id))
  {
  }

  /** After a move into a column, recomputing the board shows the moved
      item's record in the columns whose key is the target column's key and
      in no other. */
  lemma AddedShowsOnTargetColumn(table: seq<Record>, pk: Option<string>, gpk: Option<string>, o: Resolved,
                                 dateFields: seq<FieldInfo>, host: Host, recs: seq<Record>,
                                 group: Group, event: ChangeEvent)
    requires ChangeDefined(table, pk, o.groupField, group, event)
    requires Grouper.Resolvable(pk, gpk, o) && event.moved.None? && event.added.Some?
    ensures var t := ChangeTable(table, pk, o.groupField, group, event);
      var x := t[RowOf(table, pk.value, event.added.value.element.id).value];
      var r := Grouper.GroupItems(pk, gpk, o, dateFields, host, recs, t);
      forall i :: 0 <= i < |r| ==> (x in Grouper.CardItems(r[i].items) <==> Grouper.Key(r[i].id) == Grouper.Key(group.id))
  {
    var t := ChangeTable(table, pk, o.groupField, group, event);
    var idx := RowOf(table, pk.value, event.added.value.element.id).value;
    var x := t[idx];
    assert x in t;
    assert Lookup(x, o.groupField.value) == group.id;
    Grouper.ItemPlacement(pk, gpk, o, dateFields, host, recs, t, x);
  }

  /** A reorder of the first card of three to the last place sends one call,
      from the first card to the third. */
  lemma MovedScenario(collection: Option<string>, a: Card, b: Card, c: Card, gid: Value)
    ensures var group := Group(gid, Str("Todo"), [a, b, c]);
      var event := ChangeEvent(None, None, Some(Moved(a, 0, 2)));
      ChangeEffects(collection, Some("id"), Some("status"), group, event) == [ManualSort(a.id, c.id)]
  {
  }

  /** A move of item 7 into the empty column `B` sends one PATCH setting
      `status` to `B` and no manual-sort call. */
  lemma AddedToEmptyColumnScenario(element: Card)
    requires element.id == Num(7)
    ensures var group := Group(Str("B"), Str("Doing"), []);
      var event := ChangeEvent(Some(Added(element, 0)), None, None);
      ChangeEffects(Some("tasks"), Some("id"), Some("status"), group, event) ==
        [Patch("/items/tasks/7", map["status" := Str("B")])]
  {
    assert Show(Num(7)) == "7" by {
      assert NatToString(7) == [DigitChar(7)];
    }
    assert PatchUrl(Some("tasks"), Num(7)) == "/items/" + "tasks" + "/" + "7";
    assert "/items/" + "tasks" + "/" + "7" == "/items/tasks/7";
  }
}
