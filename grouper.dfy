/** The item grouper (`groupedItems`, index.ts 104-133): one column per
    record of the related collection, each holding, in item-list order, the
    cards of the items whose group-field value is that record's key.

    Property keys are strings: a record's key is `String(record[gpk])` and an
    item matches a column when `String(item[groupField])` is that key. When
    two records share a key, the column keeps the place of the first and the
    id and title of the last, as an assignment to an existing property does. */
module Grouper {
  import opened Js
  import opened KanbanTypes
  import opened LayoutAccess
  import CardImage

  /** The property key a value is coerced to. */
  function Key(v: Value): string {
    Show(v)
  }

  /** The key of a record under the given field. */
  function RecKey(r: Record, field: string): string {
    Key(Lookup(r, field))
  }

  ghost predicate Distinct(ks: seq<string>) {
    forall i, j :: 0 <= i < j < |ks| ==> ks[i] != ks[j]
  }

  /** The column keys, in the order they first occur among the records. */
  function ColumnKeys(recs: seq<Record>, gpk: string): (ks: seq<string>)
    ensures Distinct(ks)
    ensures forall k :: k in ks <==> exists i :: 0 <= i < |recs| && RecKey(recs[i], gpk) == k
  {
    if recs == [] then []
    else
      var init := recs[..|recs| - 1];
      var k := RecKey(recs[|recs| - 1], gpk);
      var ks := ColumnKeys(init, gpk);
      assert forall i :: 0 <= i < |init| ==> init[i] == recs[i];
      if k in ks then ks else ks + [k]
  }

  /** The last record whose key is `k`: the one whose id and title the
      column shows. */
  function LastWithKey(recs: seq<Record>, gpk: string, k: string): (r: Option<nat>)
    ensures r.None? <==> forall i :: 0 <= i < |recs| ==> RecKey(recs[i], gpk) != k
    ensures r.Some? ==> r.value < |recs| && RecKey(recs[r.value], gpk) == k
                        && forall j :: r.value < j < |recs| ==> RecKey(recs[j], gpk) != k
  {
    if recs == [] then None
    else if RecKey(recs[|recs| - 1], gpk) == k then Some(|recs| - 1)
    else LastWithKey(recs[..|recs| - 1], gpk, k)
  }

  /** The empty column built for key `k` before the items are placed. */
  function EmptyColumn(recs: seq<Record>, gpk: string, title: string, k: string): (g: Group)
    requires k in ColumnKeys(recs, gpk)
    ensures Key(g.id) == k && g.items == []
  {
    var i := LastWithKey(recs, gpk, k).value;
    Group(Lookup(recs[i], gpk), Lookup(recs[i], title), [])
  }

  /** What a card is built from besides the item. */
  datatype CardContext = CardContext(pk: string, o: Resolved, dateFields: seq<FieldInfo>, host: Host)

  /** `dateFields.find((f) => f.field === dateField)?.type` */
  function DateTypeOf(dateFields: seq<FieldInfo>, dateField: Option<string>): (r: Option<string>)
    ensures r.Some? <==> dateField.Some? && exists i :: 0 <= i < |dateFields| && dateFields[i].field == dateField.value
    ensures r.Some? ==> exists i :: 0 <= i < |dateFields| && dateFields[i].field == dateField.value
                                   && dateFields[i].fieldType == r.value
                                   && forall j :: 0 <= j < i ==> dateFields[j].field != dateField.value
  {
    if dateField.None? then None
    else match FindIndex(dateFields, (f: FieldInfo) => f.field == dateField.value)
      case None => None
      case Some(i) => Some(dateFields[i].fieldType)
  }

  /** The card of one item. */
  function CardOf(ctx: CardContext, item: Record): (c: Card)
    ensures c.item == item && c.id == Lookup(item, ctx.pk) && c.title == ctx.o.title
    ensures !TruthyText(ctx.o.text) ==> c.text == Undefined
    ensures !TruthyText(ctx.o.dateField) ==> c.date == Undefined
    ensures !TruthyText(ctx.o.tagsField) ==> c.tags == Undefined
    ensures c.image.Some? <==> TruthyText(ctx.o.imageSource) && CardImage.IsRasterImage(Lookup(item, ctx.o.imageSource.value))
    ensures c.image == if TruthyText(ctx.o.imageSource) then CardImage.ParseUrl(ctx.host, Lookup(item, ctx.o.imageSource.value), ctx.o.crop) else None
    ensures c.dateType.Some? ==> ctx.o.dateField.Some? && exists f :: f in ctx.dateFields && f.field == ctx.o.dateField.value
    ensures c.dateType == DateTypeOf(ctx.dateFields, ctx.o.dateField)
  {
    var o := ctx.o;
    Card(
      Lookup(item, ctx.pk),
      o.title,
      if TruthyText(o.text) then Lookup(item, o.text.value) else Undefined,
      if TruthyText(o.imageSource) then CardImage.ParseUrl(ctx.host, Lookup(item, o.imageSource.value), o.crop) else None,
      if TruthyText(o.dateField) then Lookup(item, o.dateField.value) else Undefined,
      DateTypeOf(ctx.dateFields, o.dateField),
      if TruthyText(o.tagsField) then Lookup(item, o.tagsField.value) else Undefined,
      item)
  }

  /** The cards of the items whose group-field value has key `k`, in item-list order. */
  function ColumnCards(ctx: CardContext, items: seq<Record>, group: string, k: string): seq<Card> {
    if items == [] then []
    else
      ColumnCards(ctx, items[..|items| - 1], group, k)
      + (if RecKey(items[|items| - 1], group) == k then [CardOf(ctx, items[|items| - 1])] else [])
  }

  /** The grouper's four inputs are all resolved. */
  predicate Resolvable(pk: Option<string>, gpk: Option<string>, o: Resolved) {
    pk.Some? && gpk.Some? && o.groupTitle.Some? && o.groupField.Some?
  }

  /** The board, as a function of its inputs. `recs` are the related
      records, `items` the collection's items. */
  function GroupItems(pk: Option<string>, gpk: Option<string>, o: Resolved, dateFields: seq<FieldInfo>,
                      host: Host, recs: seq<Record>, items: seq<Record>): seq<Group>
  {
    if !Resolvable(pk, gpk, o) then []
    else
      var ctx := CardContext(pk.value, o, dateFields, host);
      var ks := ColumnKeys(recs, gpk.value);
      seq(|ks|, i requires 0 <= i < |ks| =>
        EmptyColumn(recs, gpk.value, o.groupTitle.value, ks[i]).(items := ColumnCards(ctx, items, o.groupField.value, ks[i])))
  }

  /** The grouper as the source runs it: a keyed table of empty columns, then
      one pass over the items pushing each card into its column, then the
      table's values in key order. */
  method GroupedItems(pk: Option<string>, gpk: Option<string>, o: Resolved, dateFields: seq<FieldInfo>,
                      host: Host, recs: seq<Record>, items: seq<Record>) returns (r: seq<Group>)
    ensures r == GroupItems(pk, gpk, o, dateFields, host, recs, items)
  {
    if pk.None? || gpk.None? || o.groupTitle.None? || o.groupField.None? {
      return [];
    }
    var ctx := CardContext(pk.value, o, dateFields, host);
    var keys, itemGroups := EmptyColumns(recs, gpk.value, o.groupTitle.value);
    itemGroups := PlaceCards(ctx, o.groupField.value, items, itemGroups);
    r := seq(|keys|, n requires 0 <= n < |keys| => itemGroups[keys[n]]);
  }

  /** The reduce over the related records (index.ts 113-116). */
  method EmptyColumns(recs: seq<Record>, gpk: string, title: string)
    returns (keys: seq<string>, itemGroups: map<string, Group>)
    ensures keys == ColumnKeys(recs, gpk)
    ensures itemGroups.Keys == set k | k in keys
    ensures forall k :: k in keys ==> itemGroups[k] == EmptyColumn(recs, gpk, title, k)
  {
    keys, itemGroups := [], map[];
    var i := 0;
    while i < |recs|
      invariant 0 <= i <= |recs|
      invariant keys == ColumnKeys(recs[..i], gpk)
      invariant itemGroups.Keys == set k | k in keys
      invariant forall k :: k in keys ==> itemGroups[k] == EmptyColumn(recs[..i], gpk, title, k)
    {
      var rec := recs[i];
      var k := RecKey(rec, gpk);
      assert recs[..i + 1][..i] == recs[..i];
      assert recs[..i + 1][i] == rec;
      itemGroups := itemGroups[k := Group(Lookup(rec, gpk), Lookup(rec, title), [])];
      if k !in keys {
        keys := keys + [k];
      }
      i := i + 1;
    }
    assert recs[..i] == recs;
  }

  /** The loop over the items (index.ts 118-130): each item's card is pushed
      onto the column of its key, if there is one. */
  method PlaceCards(ctx: CardContext, group: string, items: seq<Record>, empty: map<string, Group>)
    returns (itemGroups: map<string, Group>)
    requires forall k :: k in empty ==> empty[k].items == []
    ensures itemGroups.Keys == empty.Keys
    ensures forall k :: k in empty ==> itemGroups[k] == empty[k].(items := ColumnCards(ctx, items, group, k))
  {
    itemGroups := empty;
    var j := 0;
    PlaceStart(ctx, empty, items, group);
    while j < |items|
      invariant 0 <= j <= |items|
      invariant itemGroups.Keys == empty.Keys
      invariant Placed(ctx, empty, itemGroups, items[..j], group)
    {
      var item := items[j];
      var k := RecKey(item, group);
      ghost var before := itemGroups;
      if k in itemGroups {
        itemGroups := itemGroups[k := itemGroups[k].(items := itemGroups[k].items + [CardOf(ctx, item)])];
      }
      PlaceStep(ctx, empty, before, itemGroups, items, j, group);
      j := j + 1;
    }
    PlaceEnd(ctx, empty, itemGroups, items, group);
  }

  lemma PlaceStart(ctx: CardContext, empty: map<string, Group>, items: seq<Record>, group: string)
    requires forall k :: k in empty ==> empty[k].items == []
    ensures Placed(ctx, empty, empty, items[..0], group)
  {
    assert items[..0] == [];
  }

  lemma PlaceEnd(ctx: CardContext, empty: map<string, Group>, itemGroups: map<string, Group>, items: seq<Record>, group: string)
    requires Placed(ctx, empty, itemGroups, items[..|items|], group)
    ensures forall k :: k in empty ==> itemGroups[k] == empty[k].(items := ColumnCards(ctx, items, group, k))
  {
    assert items[..|items|] == items;
  }

  /** Every column of the table holds the cards of the items placed so far. */
  ghost predicate Placed(ctx: CardContext, empty: map<string, Group>, itemGroups: map<string, Group>,
                         done: seq<Record>, group: string) {
    forall k :: k in empty ==> k in itemGroups && itemGroups[k] == empty[k].(items := ColumnCards(ctx, done, group, k))
  }

  /** Placing the next item extends exactly the column of its key. */
  lemma PlaceStep(ctx: CardContext, empty: map<string, Group>, before: map<string, Group>, after: map<string, Group>,
                  items: seq<Record>, j: nat, group: string)
    requires j < |items|
    requires before.Keys == empty.Keys && Placed(ctx, empty, before, items[..j], group)
    requires var k := RecKey(items[j], group);
      after == if k in before then before[k := before[k].(items := before[k].items + [CardOf(ctx, items[j])])] else before
    ensures after.Keys == empty.Keys && Placed(ctx, empty, after, items[..j + 1], group)
  {
    assert items[..j + 1][..j] == items[..j];
  }

  // ----- properties of the board -----

  /** The records of the cards of a column. */
  function CardItems(cards: seq<Card>): (r: seq<Record>)
    ensures |r| == |cards| && forall n :: 0 <= n < |cards| ==> r[n] == cards[n].item
  {
    seq(|cards|, n requires 0 <= n < |cards| => cards[n].item)
  }

  /** The records of a column are the item list filtered by key. */
  lemma {:induction false} ColumnItemsFilter(ctx: CardContext, items: seq<Record>, group: string, k: string,
                                            p: Record -> bool)
    requires forall x :: p(x) <==> RecKey(x, group) == k
    ensures CardItems(ColumnCards(ctx, items, group, k)) == Filter(items, p)
  {
    if items != [] {
      var init := items[..|items| - 1];
      var last := items[|items| - 1];
      assert items == init + [last];
      ColumnItemsFilter(ctx, init, group, k, p);
      ColumnItemsSnoc(ctx, init, last, group, k);
    }
  }

  /** Every card of a column is the card of its own item. */
  lemma {:induction false} ColumnCardsAreCards(ctx: CardContext, items: seq<Record>, group: string, k: string)
    ensures forall c :: c in ColumnCards(ctx, items, group, k) ==> c == CardOf(ctx, c.item)
  {
    if items != [] {
      ColumnCardsAreCards(ctx, items[..|items| - 1], group, k);
    }
  }

  /** A column holds exactly the items whose key is its key, each as often as
      in the item list and in the item list's order, and every card is the
      card of its own item. */
  lemma ColumnCardsSpec(ctx: CardContext, items: seq<Record>, group: string, k: string)
    ensures var cs := ColumnCards(ctx, items, group, k);
      && (forall x :: x in CardItems(cs) <==> x in items && RecKey(x, group) == k)
      && (forall x :: multiset(CardItems(cs))[x] == if RecKey(x, group) == k then multiset(items)[x] else 0)
      && IsSubsequence(CardItems(cs), items)
      && (forall c :: c in cs ==> c == CardOf(ctx, c.item))
  {
    ColumnItemsFilter(ctx, items, group, k, (x: Record) => RecKey(x, group) == k);
    ColumnCardsAreCards(ctx, items, group, k);
  }

  /** Nothing is shown unless the primary key, the related primary key, the
      group title and the group field are all resolved. */
  lemma UnresolvedBoardIsEmpty(pk: Option<string>, gpk: Option<string>, o: Resolved, dateFields: seq<FieldInfo>,
                               host: Host, recs: seq<Record>, items: seq<Record>)
    ensures GroupItems(pk, gpk, o, dateFields, host, recs, items) == [] <==>
      !Resolvable(pk, gpk, o) || ColumnKeys(recs, gpk.value) == []
  {
  }

  /** Column keys are distinct and each is some record's key; without items
      every column is empty. */
  lemma ColumnsComeFromRecords(pk: Option<string>, gpk: Option<string>, o: Resolved, dateFields: seq<FieldInfo>,
                               host: Host, recs: seq<Record>, items: seq<Record>)
    requires Resolvable(pk, gpk, o)
    ensures var r := GroupItems(pk, gpk, o, dateFields, host, recs, items);
      && (forall i, j :: 0 <= i < j < |r| ==> Key(r[i].id) != Key(r[j].id))
      && (forall i :: 0 <= i < |r| ==>
            exists n :: 0 <= n < |recs| && r[i].id == Lookup(recs[n], gpk.value)
                        && r[i].title == Lookup(recs[n], o.groupTitle.value))
      && (items == [] ==> forall i :: 0 <= i < |r| ==> r[i].items == [])
  {
    var r := GroupItems(pk, gpk, o, dateFields, host, recs, items);
    var ks := ColumnKeys(recs, gpk.value);
    forall i | 0 <= i < |r|
      ensures exists n :: 0 <= n < |recs| && r[i].id == Lookup(recs[n], gpk.value)
                          && r[i].title == Lookup(recs[n], o.groupTitle.value)
    {
      assert ks[i] in ks;
      var n := LastWithKey(recs, gpk.value, ks[i]).value;
      assert r[i].id == Lookup(recs[n], gpk.value);
    }
  }

  /** When the related records have distinct keys the column keys are the
      records' keys, in record order. */
  lemma {:induction false} OneColumnPerRecord(recs: seq<Record>, gpk: string)
    requires forall i, j :: 0 <= i < j < |recs| ==> RecKey(recs[i], gpk) != RecKey(recs[j], gpk)
    ensures var ks := ColumnKeys(recs, gpk);
      |ks| == |recs| && forall i :: 0 <= i < |recs| ==> ks[i] == RecKey(recs[i], gpk)
  {
    if recs != [] {
      var init := recs[..|recs| - 1];
      assert forall i :: 0 <= i < |init| ==> init[i] == recs[i];
      OneColumnPerRecord(init, gpk);
      var last := RecKey(recs[|recs| - 1], gpk);
      assert last !in ColumnKeys(init, gpk);
    }
  }

  lemma BoardHasOneColumnPerRecord(pk: Option<string>, gpk: Option<string>, o: Resolved, dateFields: seq<FieldInfo>,
                                   host: Host, recs: seq<Record>, items: seq<Record>)
    requires Resolvable(pk, gpk, o)
    requires forall i, j :: 0 <= i < j < |recs| ==> RecKey(recs[i], gpk.value) != RecKey(recs[j], gpk.value)
    ensures var r := GroupItems(pk, gpk, o, dateFields, host, recs, items);
      |r| == |recs| && forall i :: 0 <= i < |recs| ==>
        r[i].id == Lookup(recs[i], gpk.value) && r[i].title == Lookup(recs[i], o.groupTitle.value)
  {
    OneColumnPerRecord(recs, gpk.value);
  }

  /** An item's record is in a column exactly when its group-field value has
      that column's key; so it lands in at most one column, and in none when
      no related record has its key. */
  lemma ItemPlacement(pk: Option<string>, gpk: Option<string>, o: Resolved, dateFields: seq<FieldInfo>,
                      host: Host, recs: seq<Record>, items: seq<Record>, x: Record)
    requires Resolvable(pk, gpk, o)
    ensures var r := GroupItems(pk, gpk, o, dateFields, host, recs, items);
      && (forall i :: 0 <= i < |r| ==>
            (x in CardItems(r[i].items) <==> x in items && RecKey(x, o.groupField.value) == Key(r[i].id)))
      && (forall i, j :: 0 <= i < j < |r| ==> !(x in CardItems(r[i].items) && x in CardItems(r[j].items)))
      && ((exists i :: 0 <= i < |r| && x in CardItems(r[i].items)) <==>
            x in items && exists n :: 0 <= n < |recs| && RecKey(recs[n], gpk.value) == RecKey(x, o.groupField.value))
  {
    var r := GroupItems(pk, gpk, o, dateFields, host, recs, items);
    var ctx := CardContext(pk.value, o, dateFields, host);
    var ks := ColumnKeys(recs, gpk.value);
    forall i | 0 <= i < |r|
      ensures x in CardItems(r[i].items) <==> x in items && RecKey(x, o.groupField.value) == Key(r[i].id)
    {
      ColumnCardsSpec(ctx, items, o.groupField.value, ks[i]);
    }
    var k := RecKey(x, o.groupField.value);
    if x in items && k in ks {
      var i :| 0 <= i < |ks| && ks[i] == k;
      assert x in CardItems(r[i].items);
    }
  }

  /** Every card carries the static title option; its text, date and tags
      are read from its own item only when that option is set, its image is
      the URL `parseUrl` builds from its item's file, and its date type is
      that of the first date field named by the date option. */
  lemma CardFields(pk: Option<string>, gpk: Option<string>, o: Resolved, dateFields: seq<FieldInfo>,
                   host: Host, recs: seq<Record>, items: seq<Record>, i: nat, c: Card)
    requires Resolvable(pk, gpk, o)
    requires var r := GroupItems(pk, gpk, o, dateFields, host, recs, items); i < |r| && c in r[i].items
    ensures c.title == o.title && c.id == Lookup(c.item, pk.value)
    ensures c.text == if TruthyText(o.text) then Lookup(c.item, o.text.value) else Undefined
    ensures c.date == if TruthyText(o.dateField) then Lookup(c.item, o.dateField.value) else Undefined
    ensures c.tags == if TruthyText(o.tagsField) then Lookup(c.item, o.tagsField.value) else Undefined
    ensures c.image.Some? ==> TruthyText(o.imageSource) && CardImage.IsRasterImage(Lookup(c.item, o.imageSource.value))
    ensures c.image == if TruthyText(o.imageSource) then CardImage.ParseUrl(host, Lookup(c.item, o.imageSource.value), o.crop) else None
    ensures c.dateType == DateTypeOf(dateFields, o.dateField)
  {
    var ctx := CardContext(pk.value, o, dateFields, host);
    ColumnCardsSpec(ctx, items, o.groupField.value, ColumnKeys(recs, gpk.value)[i]);
  }

  /** The records of a column grow by the next item exactly when its key matches. */
  lemma ColumnItemsSnoc(ctx: CardContext, items: seq<Record>, x: Record, group: string, k: string)
    ensures CardItems(ColumnCards(ctx, items + [x], group, k)) ==
      CardItems(ColumnCards(ctx, items, group, k)) + (if RecKey(x, group) == k then [x] else [])
  {
    assert (items + [x])[..|items|] == items;
  }

  // ----- a worked board: three tasks over two statuses -----

  const Task1: Record := map["id" := Num(1), "status" := Str("A")]
  const Task2: Record := map["id" := Num(2), "status" := Str("B")]
  const Task3: Record := map["id" := Num(3), "status" := Str("A")]
  const StatusA: Record := map["id" := Str("A"), "name" := Str("Todo")]
  const StatusB: Record := map["id" := Str("B"), "name" := Str("Doing")]

  lemma StatusKeys()
    ensures ColumnKeys([StatusA, StatusB], "id") == ["A", "B"]
    ensures LastWithKey([StatusA, StatusB], "id", "A") == Some(0)
    ensures LastWithKey([StatusA, StatusB], "id", "B") == Some(1)
  {
    assert "A" != "B" by { assert "A"[0] != "B"[0]; }
    assert RecKey(StatusA, "id") == "A" && RecKey(StatusB, "id") == "B";
    assert [StatusA, StatusB][..1] == [StatusA] && [StatusA][..0] == [];
    assert ColumnKeys([StatusA], "id") == ["A"];
  }

  /** The records of a column of a three-item list. */
  lemma ColumnOfThree(ctx: CardContext, x: Record, y: Record, z: Record, group: string, k: string)
    ensures CardItems(ColumnCards(ctx, [x, y, z], group, k)) ==
      (if RecKey(x, group) == k then [x] else []) + (if RecKey(y, group) == k then [y] else [])
      + (if RecKey(z, group) == k then [z] else [])
  {
    assert [] + [x] == [x] && [x] + [y] == [x, y] && [x, y] + [z] == [x, y, z];
    ColumnItemsSnoc(ctx, [], x, group, k);
    ColumnItemsSnoc(ctx, [x], y, group, k);
    ColumnItemsSnoc(ctx, [x, y], z, group, k);
  }

  lemma TaskColumns(ctx: CardContext)
    ensures CardItems(ColumnCards(ctx, [Task1, Task2, Task3], "status", "A")) == [Task1, Task3]
    ensures CardItems(ColumnCards(ctx, [Task1, Task2, Task3], "status", "B")) == [Task2]
  {
    assert "A" != "B" by { assert "A"[0] != "B"[0]; }
    assert RecKey(Task1, "status") == "A" && RecKey(Task2, "status") == "B" && RecKey(Task3, "status") == "A";
    ColumnOfThree(ctx, Task1, Task2, Task3, "status", "A");
    ColumnOfThree(ctx, Task1, Task2, Task3, "status", "B");
  }

  /** Tasks 1 and 3 with status `A` go to the `Todo` column, task 2 with
      status `B` to the `Doing` column. */
  lemma TasksScenario(o: Resolved, dateFields: seq<FieldInfo>, host: Host)
    requires o.groupField == Some("status") && o.groupTitle == Some("name")
    ensures var r := GroupItems(Some("id"), Some("id"), o, dateFields, host, [StatusA, StatusB], [Task1, Task2, Task3]);
      && |r| == 2
      && r[0].id == Str("A") && r[0].title == Str("Todo") && CardItems(r[0].items) == [Task1, Task3]
      && r[1].id == Str("B") && r[1].title == Str("Doing") && CardItems(r[1].items) == [Task2]
  {
    StatusKeys();
    TaskColumns(CardContext("id", o, dateFields, host));
  }
}
