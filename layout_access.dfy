/** Reading and writing the persisted view options (`createViewOption`,
    `useLayoutOptions`, index.ts 203-228) and the persisted query (`page`,
    `sort`, `limit` of `useLayoutQuery`, index.ts 230-267). A store that is
    `null` reads and spreads exactly like an empty one, so it is modelled as
    the empty store. */
module LayoutAccess {
  import opened Js
  import opened KanbanTypes
  import FieldFilters

  // ----- view options -----

  /** The getter of a view option: the stored value unless it is
      `undefined`, else the default. */
  function ViewOption<K, V>(store: map<K, V>, key: K, default: V): (r: V)
    ensures key in store ==> r == store[key]
    ensures key !in store ==> r == default
  {
    if key in store then store[key] else default
  }

  /** The setter of a view option: `{...store, [key]: v}`. */
  function WithViewOption<K, V>(store: map<K, V>, key: K, v: V): (r: map<K, V>)
    ensures r.Keys == store.Keys + {key}
    ensures r[key] == v
    ensures forall k :: k in store && k != key ==> r[k] == store[k]
  {
    store[key := v]
  }

  function WithTextOption(o: LayoutOptions, key: TextKey, v: Option<string>): (r: LayoutOptions)
    ensures r.text == WithViewOption(o.text, key, v) && r.crop == o.crop
  {
    o.(text := o.text[key := v])
  }

  function WithCrop(o: LayoutOptions, v: bool): (r: LayoutOptions)
    ensures r.text == o.text && r.crop == Some(v)
  {
    o.(crop := Some(v))
  }

  /** The defaults of `useLayoutOptions`, computed from the field filters. */
  datatype Defaults = Defaults(groupField: Option<string>, dateField: Option<string>,
                               tagsField: Option<string>, imageSource: Option<string>)

  /** `fields[0]?.field ?? null` */
  function FirstFieldName(fields: seq<FieldInfo>): (r: Option<string>)
    ensures r.None? <==> fields == []
    ensures r.Some? ==> r.value == fields[0].field
  {
    if fields == [] then None else Some(fields[0].field)
  }

  /** The defaults of `useLayoutOptions` (index.ts 204-210): the first
      group field, date field, tags field and file field of the collection. */
  function LayoutDefaults(host: Host, relations: seq<Relation>, collection: Option<string>,
                          fields: seq<FieldInfo>): (d: Defaults)
    ensures d.groupField.None? <==> forall i :: 0 <= i < |fields| ==> !FieldFilters.HasM2oRelation(host, relations, collection, fields[i])
    ensures d.groupField.Some? ==> exists i :: (0 <= i < |fields| && fields[i].field == d.groupField.value
                                                && FieldFilters.HasM2oRelation(host, relations, collection, fields[i]))
    ensures d.dateField.None? <==> forall i :: 0 <= i < |fields| ==> !FieldFilters.IsDateType(fields[i])
    ensures d.dateField.Some? ==> exists i :: (0 <= i < |fields| && fields[i].field == d.dateField.value
                                               && FieldFilters.IsDateType(fields[i]))
    ensures d.tagsField.None? <==> forall i :: 0 <= i < |fields| ==> !FieldFilters.IsTagsType(fields[i])
    ensures d.tagsField.Some? ==> exists i :: (0 <= i < |fields| && fields[i].field == d.tagsField.value
                                               && FieldFilters.IsTagsType(fields[i]))
    ensures d.imageSource.None? <==> forall i :: 0 <= i < |fields| ==> !FieldFilters.IsFileField(relations, collection, fields[i])
    ensures d.imageSource.Some? ==> exists i :: (0 <= i < |fields| && fields[i].field == d.imageSource.value
                                                 && FieldFilters.IsFileField(relations, collection, fields[i]))
  {
    DefaultGroupFieldIsFirst(host, relations, collection, fields);
    DefaultDateFieldIsFirst(fields);
    DefaultTagsFieldIsFirst(fields);
    DefaultImageSourceIsFirst(relations, collection, fields);
    Defaults(FirstFieldName(FieldFilters.GroupFields(host, relations, collection, fields)),
             FirstFieldName(FieldFilters.DateFields(fields)),
             FirstFieldName(FieldFilters.TagsFields(fields)),
             FirstFieldName(FieldFilters.FileFields(relations, collection, fields)))
  }

  /** The name `fields[0]?.field` gives for a filtered list is the name of the
      first field that passes the filter; none when no field does. */
  lemma FirstFilteredName(fields: seq<FieldInfo>, p: FieldInfo -> bool)
    ensures FirstFieldName(Filter(fields, p)).None? <==> forall i :: 0 <= i < |fields| ==> !p(fields[i])
    ensures var r := FirstFieldName(Filter(fields, p));
      r.Some? ==> exists i :: (0 <= i < |fields| && fields[i].field == r.value && p(fields[i])
                               && forall j :: 0 <= j < i ==> !p(fields[j]))
  {
    FilterFirst(fields, p);
    match FindIndex(fields, p)
    case Some(i) =>
      assert fields[i].field == FirstFieldName(Filter(fields, p)).value;
    case None =>
  }

  /** The default group field is the first field with a many-to-one
      relation; `null` when there is none. */
  lemma DefaultGroupFieldIsFirst(host: Host, relations: seq<Relation>, collection: Option<string>, fields: seq<FieldInfo>)
    ensures var d := FirstFieldName(FieldFilters.GroupFields(host, relations, collection, fields));
      && (d.None? <==> forall i :: 0 <= i < |fields| ==> !FieldFilters.HasM2oRelation(host, relations, collection, fields[i]))
      && (d.Some? ==> exists i :: (0 <= i < |fields| && fields[i].field == d.value
            && FieldFilters.HasM2oRelation(host, relations, collection, fields[i])
            && forall j :: 0 <= j < i ==> !FieldFilters.HasM2oRelation(host, relations, collection, fields[j])))
  {
    var t := FieldFilters.GroupFieldTest(host, relations, collection);
    assert FieldFilters.GroupFields(host, relations, collection, fields) == Filter(fields, t);
    FilterFirst(fields, t);
    match FindIndex(fields, t)
    case Some(i) =>
      assert t(fields[i]) && forall j :: 0 <= j < i ==> !t(fields[j]);
    case None =>
      assert forall i :: 0 <= i < |fields| ==> !t(fields[i]);
  }

  /** The default date field is the first date-typed field. */
  lemma DefaultDateFieldIsFirst(fields: seq<FieldInfo>)
    ensures var d := FirstFieldName(FieldFilters.DateFields(fields));
      && (d.None? <==> forall i :: 0 <= i < |fields| ==> !FieldFilters.IsDateType(fields[i]))
      && (d.Some? ==> exists i :: (0 <= i < |fields| && fields[i].field == d.value
            && FieldFilters.IsDateType(fields[i]) && forall j :: 0 <= j < i ==> !FieldFilters.IsDateType(fields[j])))
  {
    FirstFilteredName(fields, FieldFilters.IsDateType);
  }

  /** The default tags field is the first `json` or `csv` field. */
  lemma DefaultTagsFieldIsFirst(fields: seq<FieldInfo>)
    ensures var d := FirstFieldName(FieldFilters.TagsFields(fields));
      && (d.None? <==> forall i :: 0 <= i < |fields| ==> !FieldFilters.IsTagsType(fields[i]))
      && (d.Some? ==> exists i :: (0 <= i < |fields| && fields[i].field == d.value
            && FieldFilters.IsTagsType(fields[i]) && forall j :: 0 <= j < i ==> !FieldFilters.IsTagsType(fields[j])))
  {
    FirstFilteredName(fields, FieldFilters.IsTagsType);
  }

  /** The default image source is the first file field. */
  lemma DefaultImageSourceIsFirst(relations: seq<Relation>, collection: Option<string>, fields: seq<FieldInfo>)
    ensures var d := FirstFieldName(FieldFilters.FileFields(relations, collection, fields));
      && (d.None? <==> forall i :: 0 <= i < |fields| ==> !FieldFilters.IsFileField(relations, collection, fields[i]))
      && (d.Some? ==> exists i :: (0 <= i < |fields| && fields[i].field == d.value
            && FieldFilters.IsFileField(relations, collection, fields[i])
            && forall j :: 0 <= j < i ==> !FieldFilters.IsFileField(relations, collection, fields[j])))
  {
    FirstFilteredName(fields, FieldFilters.FileFieldTest(relations, collection));
  }

  function DefaultFor(d: Defaults, key: TextKey): Option<string> {
    match key
    case GroupField => d.groupField
    case DateField => d.dateField
    case TagsField => d.tagsField
    case ImageSource => d.imageSource
    case _ => None
  }

  /** The values the eight option getters hand out. */
  datatype Resolved = Resolved(
    groupField: Option<string>, groupTitle: Option<string>, dateField: Option<string>,
    tagsField: Option<string>, imageSource: Option<string>, title: Option<string>,
    text: Option<string>, crop: bool)

  function Resolve(o: LayoutOptions, d: Defaults): (r: Resolved)
    ensures r.groupTitle == (if GroupTitle in o.text then o.text[GroupTitle] else None)
    ensures r.groupField == (if GroupField in o.text then o.text[GroupField] else d.groupField)
    ensures r.crop == (if o.crop.Some? then o.crop.value else true)
    ensures forall key :: ResolvedText(r, key) == if key in o.text then o.text[key] else DefaultFor(d, key)
  {
    Resolved(
      ViewOption(o.text, GroupField, DefaultFor(d, GroupField)),
      ViewOption(o.text, GroupTitle, DefaultFor(d, GroupTitle)),
      ViewOption(o.text, DateField, DefaultFor(d, DateField)),
      ViewOption(o.text, TagsField, DefaultFor(d, TagsField)),
      ViewOption(o.text, ImageSource, DefaultFor(d, ImageSource)),
      ViewOption(o.text, Title, DefaultFor(d, Title)),
      ViewOption(o.text, Text, DefaultFor(d, Text)),
      if o.crop.Some? then o.crop.value else true)
  }

  /** The option a key reads in the resolved options. */
  function ResolvedText(r: Resolved, key: TextKey): Option<string> {
    match key
    case GroupField => r.groupField
    case GroupTitle => r.groupTitle
    case DateField => r.dateField
    case TagsField => r.tagsField
    case ImageSource => r.imageSource
    case Title => r.title
    case Text => r.text
  }

  /** Writing an option and reading it back gives the value written; every
      other option reads as before. */
  lemma TextOptionRoundTrip(o: LayoutOptions, d: Defaults, key: TextKey, v: Option<string>, other: TextKey)
    ensures ResolvedText(Resolve(WithTextOption(o, key, v), d), key) == v
    ensures other != key ==>
      ResolvedText(Resolve(WithTextOption(o, key, v), d), other) == ResolvedText(Resolve(o, d), other)
    ensures Resolve(WithTextOption(o, key, v), d).crop == Resolve(o, d).crop
  {
  }

  lemma CropRoundTrip(o: LayoutOptions, d: Defaults, v: bool, key: TextKey)
    ensures Resolve(WithCrop(o, v), d).crop == v
    ensures ResolvedText(Resolve(WithCrop(o, v), d), key) == ResolvedText(Resolve(o, d), key)
  {
  }

  /** A field option that is not stored reads the first field of its kind. */
  lemma UnsetOptionsReadFirstFields(o: LayoutOptions, host: Host, relations: seq<Relation>,
                                    collection: Option<string>, fields: seq<FieldInfo>)
    ensures var r := Resolve(o, LayoutDefaults(host, relations, collection, fields));
      && (GroupField !in o.text ==> r.groupField == FirstFieldName(FieldFilters.GroupFields(host, relations, collection, fields)))
      && (DateField !in o.text ==> r.dateField == FirstFieldName(FieldFilters.DateFields(fields)))
      && (TagsField !in o.text ==> r.tagsField == FirstFieldName(FieldFilters.TagsFields(fields)))
      && (ImageSource !in o.text ==> r.imageSource == FirstFieldName(FieldFilters.FileFields(relations, collection, fields)))
  {
    var d := LayoutDefaults(host, relations, collection, fields);
    assert d == Defaults(FirstFieldName(FieldFilters.GroupFields(host, relations, collection, fields)),
                         FirstFieldName(FieldFilters.DateFields(fields)),
                         FirstFieldName(FieldFilters.TagsFields(fields)),
                         FirstFieldName(FieldFilters.FileFields(relations, collection, fields)));
    UnsetFieldOptionsReadDefaults(o, d);
  }

  /** An unset field option reads its default. */
  lemma UnsetFieldOptionsReadDefaults(o: LayoutOptions, d: Defaults)
    ensures var r := Resolve(o, d);
      && (GroupField !in o.text ==> r.groupField == d.groupField)
      && (DateField !in o.text ==> r.dateField == d.dateField)
      && (TagsField !in o.text ==> r.tagsField == d.tagsField)
      && (ImageSource !in o.text ==> r.imageSource == d.imageSource)
  {
  }

  /** The group title, title and text options have no default: unset, they read nothing. */
  lemma UnsetOptionsWithoutDefault(o: LayoutOptions, d: Defaults)
    ensures var r := Resolve(o, d);
      && (GroupTitle !in o.text ==> r.groupTitle == None)
      && (Title !in o.text ==> r.title == None)
      && (Text !in o.text ==> r.text == None)
  {
  }

  /** With nothing stored every option reads its default, and `crop` is on. */
  lemma UnsetOptionsReadDefaults(d: Defaults, key: TextKey)
    ensures ResolvedText(Resolve(EmptyOptions, d), key) == DefaultFor(d, key)
    ensures Resolve(EmptyOptions, d).crop
  {
  }

  // ----- query -----

  /** `layoutQuery?.page || 1` */
  function Page(q: LayoutQuery): (r: int)
    ensures r != 0
    ensures q.page.Some? && q.page.value != 0 ==> r == q.page.value
    ensures q.page.None? || q.page.value == 0 ==> r == 1
  {
    if q.page.Some? && q.page.value != 0 then q.page.value else 1
  }

  /** `layoutQuery?.limit || 25` */
  function Limit(q: LayoutQuery): (r: int)
    ensures r != 0
    ensures q.limit.Some? && q.limit.value != 0 ==> r == q.limit.value
    ensures q.limit.None? || q.limit.value == 0 ==> r == 25
  {
    if q.limit.Some? && q.limit.value != 0 then q.limit.value else 25
  }

  /** `layoutQuery?.sort || primaryKeyField?.field || ''` */
  function Sort(q: LayoutQuery, pk: Option<string>): (r: string)
    ensures TruthyText(q.sort) ==> r == q.sort.value
    ensures !TruthyText(q.sort) && TruthyText(pk) ==> r == pk.value
    ensures !TruthyText(q.sort) && !TruthyText(pk) ==> r == ""
  {
    if TruthyText(q.sort) then q.sort.value
    else if TruthyText(pk) then pk.value
    else ""
  }

  /** The page setter: `{...query, page}`. */
  function WithPage(q: LayoutQuery, p: int): (r: LayoutQuery)
    ensures r.page == Some(p) && r.sort == q.sort && r.limit == q.limit && r.fields == q.fields
  {
    q.(page := Some(p))
  }

  /** The sort setter: `{...query, page: 1, sort}`. */
  function WithSort(q: LayoutQuery, s: string): (r: LayoutQuery)
    ensures r.page == Some(1) && r.sort == Some(s) && r.limit == q.limit && r.fields == q.fields
  {
    q.(page := Some(1), sort := Some(s))
  }

  /** The limit setter: `{...query, page: 1, limit}`. */
  function WithLimit(q: LayoutQuery, l: int): (r: LayoutQuery)
    ensures r.page == Some(1) && r.limit == Some(l) && r.sort == q.sort && r.fields == q.fields
  {
    q.(page := Some(1), limit := Some(l))
  }

  /** An empty query reads page 1, 25 per page, sorted by the primary key. */
  lemma EmptyQueryDefaults(pk: Option<string>)
    ensures Page(EmptyQuery) == 1 && Limit(EmptyQuery) == 25
    ensures Sort(EmptyQuery, pk) == if TruthyText(pk) then pk.value else ""
  {
  }

  /** The page setter moves the page only; a page of 0 reads back as 1. */
  lemma PageSetterLaw(q: LayoutQuery, p: int, pk: Option<string>)
    ensures Page(WithPage(q, p)) == if p != 0 then p else 1
    ensures Sort(WithPage(q, p), pk) == Sort(q, pk) && Limit(WithPage(q, p)) == Limit(q)
  {
  }

  /** Changing the sort goes back to the first page and keeps the limit. */
  lemma SortSetterLaw(q: LayoutQuery, s: string, pk: Option<string>)
    ensures Page(WithSort(q, s)) == 1 && Limit(WithSort(q, s)) == Limit(q)
    ensures s != "" ==> Sort(WithSort(q, s), pk) == s
    ensures s == "" ==> Sort(WithSort(q, s), pk) == Sort(EmptyQuery, pk)
  {
  }

  /** Changing the limit goes back to the first page and keeps the sort. */
  lemma LimitSetterLaw(q: LayoutQuery, l: int, pk: Option<string>)
    ensures Page(WithLimit(q, l)) == 1 && Sort(WithLimit(q, l), pk) == Sort(q, pk)
    ensures Limit(WithLimit(q, l)) == if l != 0 then l else 25
  {
  }
}
