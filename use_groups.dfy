/** Where the columns come from (app/src/layouts/kanban/useGroups.ts): the
    related collection of the group field, its title-field candidates, and the
    request that loads its records. */
module Groups {
  import opened Js
  import opened KanbanTypes
  import FieldFilters
  import Grouper
  import LayoutAccess

  /** The relation `find` stops at: the first one classified many-to-one. */
  function FirstM2o(host: Host, relations: seq<Relation>, collection: Option<string>, field: string): (r: Option<nat>)
    ensures r.None? ==> forall i :: 0 <= i < |relations| ==> host.relationType(relations[i], collection, field) != Some(M2o)
    ensures r.Some? ==> r.value < |relations| && host.relationType(relations[r.value], collection, field) == Some(M2o)
    ensures r.Some? ==> forall j :: 0 <= j < r.value ==> host.relationType(relations[j], collection, field) != Some(M2o)
  {
    FindIndex(relations, (rel: Relation) => host.relationType(rel, collection, field) == Some(M2o))
  }

  /** `relatedCollection`: null without a group field; otherwise the related
      collection of the first many-to-one relation, null if there is none or
      it has none. */
  function RelatedCollection(host: Host, relations: seq<Relation>, collection: Option<string>,
                             groupField: Option<string>): (r: Option<string>)
    ensures groupField.None? ==> r.None?
    ensures groupField.Some? && FirstM2o(host, relations, collection, groupField.value).None? ==> r.None?
    ensures groupField.Some? && FirstM2o(host, relations, collection, groupField.value).Some? ==>
      r == relations[FirstM2o(host, relations, collection, groupField.value).value].relatedCollection
  {
    if groupField.None? then None
    else match FirstM2o(host, relations, collection, groupField.value)
      case None => None
      case Some(i) => if relations[i].relatedCollection.None? then None else relations[i].relatedCollection
  }

  /** A related collection is one some many-to-one relation points at, and
      no earlier relation in the store is classified many-to-one. */
  lemma RelatedCollectionIsFirstM2o(host: Host, relations: seq<Relation>, collection: Option<string>,
                                    groupField: Option<string>)
    ensures var r := RelatedCollection(host, relations, collection, groupField);
      r.Some? ==> (groupField.Some? &&
        exists i :: (0 <= i < |relations|
          && host.relationType(relations[i], collection, groupField.value) == Some(M2o)
          && relations[i].relatedCollection == r
          && forall j :: 0 <= j < i ==> host.relationType(relations[j], collection, groupField.value) != Some(M2o)))
  {
  }

  /** `groupTitleFields`: the related fields typed string or text, in order. */
  function GroupTitleFields(relatedFields: seq<FieldInfo>): (r: seq<FieldInfo>)
    ensures forall f :: f in r <==> f in relatedFields && (f.fieldType == "string" || f.fieldType == "text")
    ensures forall f :: multiset(r)[f] == if FieldFilters.IsTextType(f) then multiset(relatedFields)[f] else 0
    ensures IsSubsequence(r, relatedFields)
  {
    Filter(relatedFields, FieldFilters.IsTextType)
  }

  /** `groupFieldsToLoad`: the related primary key and the title field, or
      nothing while either is unknown. */
  function GroupFieldsToLoad(relatedPk: Option<string>, groupTitle: Option<string>): (r: seq<string>)
    ensures r == [] <==> relatedPk.None? || groupTitle.None?
    ensures r != [] ==> r == [relatedPk.value, groupTitle.value]
  {
    if relatedPk.None? || groupTitle.None? then [] else [relatedPk.value, groupTitle.value]
  }

  /** The fixed query the columns are loaded with. */
  function GroupsQuery(fieldsToLoad: seq<string>): (q: ItemsQuery)
    ensures q.limit == 100 && q.page == 1 && q.sort == ""
    ensures q.filters == [] && q.searchQuery == None && q.fields == fieldsToLoad
  {
    ItemsQuery("", 100, 1, fieldsToLoad, [], None)
  }

  /** The request of `useGroups`: from the related collection, the fixed
      query over the fields to load. */
  datatype GroupsRequest = GroupsRequest(collection: Option<string>, query: ItemsQuery)

  function LoadGroups(host: Host, relations: seq<Relation>, collection: Option<string>,
                      groupField: Option<string>, relatedPk: Option<string>, groupTitle: Option<string>): (r: GroupsRequest)
    ensures r.collection == RelatedCollection(host, relations, collection, groupField)
    ensures r.query == GroupsQuery(GroupFieldsToLoad(relatedPk, groupTitle))
  {
    GroupsRequest(RelatedCollection(host, relations, collection, groupField),
                  GroupsQuery(GroupFieldsToLoad(relatedPk, groupTitle)))
  }

  /** The loader asks for fields exactly when the grouper's related-side
      inputs are known: when it asks for none, the board is empty. */
  lemma NothingLoadedMeansEmptyBoard(pk: Option<string>, gpk: Option<string>, o: LayoutAccess.Resolved,
                                     dateFields: seq<FieldInfo>, host: Host, recs: seq<Record>, items: seq<Record>)
    ensures GroupFieldsToLoad(gpk, o.groupTitle) == [] ==>
      Grouper.GroupItems(pk, gpk, o, dateFields, host, recs, items) == []
    ensures GroupFieldsToLoad(gpk, o.groupTitle) != [] && pk.Some? && o.groupField.Some? ==>
      Grouper.Resolvable(pk, gpk, o)
  {
  }
}
