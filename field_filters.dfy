/** The field-type filters of the layout (index.ts 48-83): which fields of the
    collection may supply a card's text, tags, date, column and image. */
module FieldFilters {
  import opened Js
  import opened KanbanTypes

  predicate IsTextType(f: FieldInfo) {
    f.fieldType == "string" || f.fieldType == "text"
  }

  predicate IsTagsType(f: FieldInfo) {
    f.fieldType == "json" || f.fieldType == "csv"
  }

  predicate IsDateType(f: FieldInfo) {
    f.fieldType in ["date", "time", "dateTime", "timestamp"]
  }

  /** Some relation of the store is classified many-to-one for this field. */
  predicate HasM2oRelation(host: Host, relations: seq<Relation>, collection: Option<string>, f: FieldInfo) {
    exists i :: 0 <= i < |relations| && host.relationType(relations[i], collection, f.field) == Some(M2o)
  }

  /** The thumbnail pseudo-field, or a relation of this collection and field
      that points at the files collection. */
  predicate IsFileField(relations: seq<Relation>, collection: Option<string>, f: FieldInfo) {
    f.field == "$thumbnail"
    || exists i :: 0 <= i < |relations| && IsFileRelation(relations[i], collection, f)
  }

  predicate IsFileRelation(r: Relation, collection: Option<string>, f: FieldInfo) {
    Some(r.collection) == collection && r.field == f.field
    && r.relatedCollection == Some("directus_files")
  }

  /** The test `groupFields` applies: `find` reaches a many-to-one relation. */
  function GroupFieldTest(host: Host, relations: seq<Relation>, collection: Option<string>): (t: FieldInfo -> bool)
    ensures forall f :: t(f) <==> HasM2oRelation(host, relations, collection, f)
  {
    (f: FieldInfo) => FindIndex(relations, (rel: Relation) => host.relationType(rel, collection, f.field) == Some(M2o)).Some?
  }

  /** The test `fileFields` applies. */
  function FileFieldTest(relations: seq<Relation>, collection: Option<string>): (t: FieldInfo -> bool)
    ensures forall f :: t(f) <==> IsFileField(relations, collection, f)
  {
    (f: FieldInfo) => f.field == "$thumbnail" || FindIndex(relations, (rel: Relation) => IsFileRelation(rel, collection, f)).Some?
  }

  function TextFields(fields: seq<FieldInfo>): (r: seq<FieldInfo>)
    ensures forall f :: f in r <==> f in fields && (f.fieldType == "string" || f.fieldType == "text")
    ensures forall f :: multiset(r)[f] == if IsTextType(f) then multiset(fields)[f] else 0
    ensures IsSubsequence(r, fields)
  {
    Filter(fields, IsTextType)
  }

  function TagsFields(fields: seq<FieldInfo>): (r: seq<FieldInfo>)
    ensures forall f :: f in r <==> f in fields && (f.fieldType == "json" || f.fieldType == "csv")
    ensures forall f :: multiset(r)[f] == if IsTagsType(f) then multiset(fields)[f] else 0
    ensures IsSubsequence(r, fields)
  {
    Filter(fields, IsTagsType)
  }

  function DateFields(fields: seq<FieldInfo>): (r: seq<FieldInfo>)
    ensures forall f :: f in r <==>
      (f in fields && (f.fieldType == "date" || f.fieldType == "time" || f.fieldType == "dateTime" || f.fieldType == "timestamp"))
    ensures forall f :: multiset(r)[f] == if IsDateType(f) then multiset(fields)[f] else 0
    ensures IsSubsequence(r, fields)
  {
    Filter(fields, IsDateType)
  }

  function GroupFields(host: Host, relations: seq<Relation>, collection: Option<string>, fields: seq<FieldInfo>): (r: seq<FieldInfo>)
    ensures forall f :: f in r <==> f in fields && HasM2oRelation(host, relations, collection, f)
    ensures forall f :: multiset(r)[f] == if HasM2oRelation(host, relations, collection, f) then multiset(fields)[f] else 0
    ensures IsSubsequence(r, fields)
  {
    Filter(fields, GroupFieldTest(host, relations, collection))
  }

  function FileFields(relations: seq<Relation>, collection: Option<string>, fields: seq<FieldInfo>): (r: seq<FieldInfo>)
    ensures forall f :: f in r <==> f in fields && IsFileField(relations, collection, f)
    ensures forall f :: multiset(r)[f] == if IsFileField(relations, collection, f) then multiset(fields)[f] else 0
    ensures IsSubsequence(r, fields)
  {
    Filter(fields, FileFieldTest(relations, collection))
  }
}
