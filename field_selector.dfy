/** The field selector (`fields`, index.ts 269-305): the ordered list of field
    paths the layout asks the backend for. */
module FieldSelector {
  import opened Js
  import opened KanbanTypes
  import opened LayoutAccess

  /** The sub-fields of the image source a card needs to build its URL. */
  function ImagePaths(src: string): (r: seq<string>)
    ensures |r| == 5
  {
    [src + ".modified_on", src + ".type", src + ".filename_disk", src + ".storage", src + ".id"]
  }

  /** The sort string with one leading descending marker removed. */
  function SortFieldName(sort: string): (r: string)
    ensures StartsWith(sort, "-") ==> sort == "-" + r
    ensures !StartsWith(sort, "-") ==> r == sort
  {
    if StartsWith(sort, "-") then sort[1..] else sort
  }

  /** The primary key, then the image sub-fields, then the bare file fields. */
  function BaseFields(pk: string, collection: string, imageSource: Option<string>): seq<string> {
    [pk]
    + (if TruthyText(imageSource) then ImagePaths(imageSource.value) else [])
    + (if collection == "directus_files" && imageSource == Some("$thumbnail") then ["modified_on", "type"] else [])
  }

  /** The sort field is appended when a sort is set and it is not yet there. */
  function AddSortField(fields: seq<string>, sort: string): seq<string> {
    if sort != "" && SortFieldName(sort) !in fields then fields + [SortFieldName(sort)] else fields
  }

  /** The values of the options that are not `null`, in order. */
  function PresentOptions(opts: seq<Option<string>>): seq<string> {
    if opts == [] then []
    else PresentOptions(opts[..|opts| - 1])
         + (if opts[|opts| - 1].Some? then [opts[|opts| - 1].value] else [])
  }

  /** The template-derived fields, before the display adjustment. */
  function TemplateFields(host: Host, title: Option<string>): seq<string> {
    if TruthyText(title) then host.fieldsFromTemplate(title.value) else []
  }

  function Guarded(pk: Option<string>, collection: Option<string>): bool {
    pk.Some? && TruthyText(collection)
  }

  /** What the selector returns, segment by segment. */
  function FieldList(host: Host, pk: Option<string>, collection: Option<string>, o: Resolved, sort: string): seq<string> {
    if !Guarded(pk, collection) then []
    else
      AddSortField(BaseFields(pk.value, collection.value, o.imageSource), sort)
      + PresentOptions([o.groupField, o.text, o.tagsField, o.dateField])
      + host.adjustFieldsForDisplays(TemplateFields(host, o.title), collection.value)
  }

  /** The selector, pushing into a local list as the source does. `pk` is the
      primary-key field's name, `sort` the value of the sort getter. */
  method Fields(host: Host, pk: Option<string>, collection: Option<string>, o: Resolved, sort: string)
    returns (fields: seq<string>)
    ensures fields == FieldList(host, pk, collection, o, sort)
  {
    if pk.None? || collection.None? || collection.value == "" {
      return [];
    }
    fields := [pk.value];
    if o.imageSource.Some? && o.imageSource.value != "" {
      var src := o.imageSource.value;
      fields := fields + [src + ".modified_on"];
      fields := fields + [src + ".type"];
      fields := fields + [src + ".filename_disk"];
      fields := fields + [src + ".storage"];
      fields := fields + [src + ".id"];
      assert fields == [pk.value] + ImagePaths(src);
    }
    assert fields == [pk.value] + (if TruthyText(o.imageSource) then ImagePaths(o.imageSource.value) else []);
    if collection.value == "directus_files" && o.imageSource == Some("$thumbnail") {
      fields := fields + ["modified_on"];
      fields := fields + ["type"];
    }
    assert fields == BaseFields(pk.value, collection.value, o.imageSource);
    if sort != "" {
      var sortField := if StartsWith(sort, "-") then sort[1..] else sort;
      if sortField !in fields {
        fields := fields + [sortField];
      }
    }
    ghost var head := fields;
    assert head == AddSortField(BaseFields(pk.value, collection.value, o.imageSource), sort);
    fields := PushOptions(fields, [o.groupField, o.text, o.tagsField, o.dateField]);
    var titleSubtitleFields: seq<string> := [];
    if o.title.Some? && o.title.value != "" {
      titleSubtitleFields := titleSubtitleFields + host.fieldsFromTemplate(o.title.value);
    }
    assert titleSubtitleFields == TemplateFields(host, o.title);
    assert fields == head + PresentOptions([o.groupField, o.text, o.tagsField, o.dateField]);
    fields := fields + host.adjustFieldsForDisplays(titleSubtitleFields, collection.value);
  }

  /** The `forEach` over the four options: each non-null value is pushed. */
  method PushOptions(head: seq<string>, options: seq<Option<string>>) returns (fields: seq<string>)
    ensures fields == head + PresentOptions(options)
  {
    fields := head;
    var i := 0;
    while i < |options|
      invariant 0 <= i <= |options|
      invariant fields == head + PresentOptions(options[..i])
    {
      assert options[..i + 1][..i] == options[..i];
      if options[i].Some? {
        fields := fields + [options[i].value];
      }
      i := i + 1;
    }
    assert options[..i] == options;
  }

  // ----- properties of the selected list -----

  /** An option value appears among the present options exactly when some
      option holds it, and nothing is dropped: one entry per non-null option. */
  lemma {:induction false} PresentOptionsMembers(opts: seq<Option<string>>, x: string)
    ensures x in PresentOptions(opts) <==> Some(x) in opts
    ensures |PresentOptions(opts)| == |Filter(opts, (v: Option<string>) => v.Some?)|
  {
    if opts != [] {
      var init := opts[..|opts| - 1];
      assert opts == init + [opts[|opts| - 1]];
      PresentOptionsMembers(init, x);
    }
  }

  /** Nothing is requested without a primary key or a collection; otherwise
      the primary key comes first. */
  lemma FieldsStartWithPrimaryKey(host: Host, pk: Option<string>, collection: Option<string>, o: Resolved, sort: string)
    ensures var r := FieldList(host, pk, collection, o, sort);
      (r == [] <==> !Guarded(pk, collection)) && (r != [] ==> r[0] == pk.value)
  {
  }

  /** With an image source the five sub-paths follow the primary key in
      order; the bare `modified_on` and `type` follow them only for the files
      collection shown by its own thumbnail. */
  lemma FieldsImagePaths(host: Host, pk: Option<string>, collection: Option<string>, o: Resolved, sort: string)
    requires Guarded(pk, collection)
    ensures var r := FieldList(host, pk, collection, o, sort);
      TruthyText(o.imageSource) ==>
        var src := o.imageSource.value;
        |r| >= 6 && r[1..6] == [src + ".modified_on", src + ".type", src + ".filename_disk", src + ".storage", src + ".id"]
    ensures var r := FieldList(host, pk, collection, o, sort);
      collection.value == "directus_files" && o.imageSource == Some("$thumbnail") ==>
        |r| >= 8 && r[6..8] == ["modified_on", "type"]
  {
    var base := BaseFields(pk.value, collection.value, o.imageSource);
    var r := FieldList(host, pk, collection, o, sort);
    assert r[..|base|] == base;
  }

  /** The bare file fields are requested only in that one case: otherwise the
      base segment is the primary key and the image paths alone. */
  lemma BareFileFieldsOnlyForThumbnail(pk: string, collection: string, imageSource: Option<string>)
    ensures !(collection == "directus_files" && imageSource == Some("$thumbnail")) ==>
      BaseFields(pk, collection, imageSource) == [pk] + (if TruthyText(imageSource) then ImagePaths(imageSource.value) else [])
    ensures collection == "directus_files" && imageSource == Some("$thumbnail") ==>
      BaseFields(pk, collection, imageSource) == [pk] + ImagePaths("$thumbnail") + ["modified_on", "type"]
  {
  }

  /** A set sort field is always requested, and exactly once more than it
      already was: added at the end if missing, otherwise left alone. */
  lemma SortFieldAddedOnce(fields: seq<string>, sort: string)
    ensures var r := AddSortField(fields, sort);
      (sort != "" ==> SortFieldName(sort) in r)
      && (sort == "" || SortFieldName(sort) in fields ==> r == fields)
      && (sort != "" && SortFieldName(sort) !in fields ==> r == fields + [SortFieldName(sort)])
  {
  }

  /** The options are appended after the sort field, in the order group,
      text, tags, date, whenever they are not `null` (even when one of them
      is already in the list), and the adjusted template fields come last. */
  lemma FieldsTail(host: Host, pk: Option<string>, collection: Option<string>, o: Resolved, sort: string)
    requires Guarded(pk, collection)
    ensures var r := FieldList(host, pk, collection, o, sort);
      var head := AddSortField(BaseFields(pk.value, collection.value, o.imageSource), sort);
      var tail := host.adjustFieldsForDisplays(TemplateFields(host, o.title), collection.value);
      r[..|head|] == head && r[|r| - |tail|..] == tail
      && r[|head|..|r| - |tail|] == PresentOptions([o.groupField, o.text, o.tagsField, o.dateField])
  {
    var opts := [o.groupField, o.text, o.tagsField, o.dateField];
    assert opts[..3][..2][..1][..0] == [];
  }

  /** The four options in the order they are appended. */
  lemma PresentOptionsOrder(g: Option<string>, t: Option<string>, tg: Option<string>, d: Option<string>)
    ensures PresentOptions([g, t, tg, d]) ==
      (if g.Some? then [g.value] else []) + (if t.Some? then [t.value] else [])
      + (if tg.Some? then [tg.value] else []) + (if d.Some? then [d.value] else [])
  {
    assert [g, t, tg, d][..3] == [g, t, tg];
    assert [g, t, tg][..2] == [g, t];
    assert [g, t][..1] == [g];
    assert [g][..0] == [];
    assert PresentOptions([g]) == (if g.Some? then [g.value] else []);
    assert PresentOptions([g, t]) == PresentOptions([g]) + (if t.Some? then [t.value] else []);
    assert PresentOptions([g, t, tg]) == PresentOptions([g, t]) + (if tg.Some? then [tg.value] else []);
  }

  /** Duplicates are not suppressed: an option naming the primary key is
      requested a second time. */
  lemma GroupFieldMayRepeatPrimaryKey(host: Host, o: Resolved)
    requires o.groupField == Some("id") && o.imageSource == None && o.text == None
    ensures var r := FieldList(host, Some("id"), Some("tasks"), o, "");
      |r| >= 2 && r[0] == "id" && r[1] == "id"
  {
    PresentOptionsOrder(o.groupField, o.text, o.tagsField, o.dateField);
  }
}
