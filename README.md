# Kanban layout of the Directus app — a verified model

The Kanban layout of the Directus admin app shows the items of a collection
as cards in columns. Each column is one record of the collection that the
layout's *group field* points at through a many-to-one relation. This project
models the data logic of that layout and proves what it promises:

- **Field filters.** These pick which fields of the collection may supply a
  card's text, tags, date, column and image (`field_filters.dfy`).
- **View-option and query accessors.** They read with defaults and write one
  key at a time (`layout_access.dfy`).
- **Field selector.** It builds the ordered list of field paths requested from
  the backend (`field_selector.dfy`).
- **Card image filter.** It gives an asset URL only for non-SVG images
  (`card_image.dfy`).
- **Item grouper.** It builds one column per related record and places each
  item's card in the column of its group-field value (`grouper.dfy`).
- **Group source.** It finds the related collection and the fixed request that
  loads the columns (`use_groups.dfy`).
- **Drag/change reconciler.** A `KanbanLayout` object holds the item table as
  an array, which `Change` updates in place. The calls it issues go into an
  effect log (`board.dfy`).

`js.dfy` holds the JavaScript values the layout reads: truthiness, `String()`
coercion, property reads, `startsWith`/`includes`, `filter` and `findIndex`.
`types.dfy` holds the shapes of `app/src/layouts/kanban/types.ts`. The moved
event in this model carries `oldIndex`. The declaration in types.ts leaves the
field out, but the reconciler reads it (index.ts:177).

The host helpers are whatever fields of a `Host` value the caller passes in.
These are `getRelationType`, `getFieldsFromTemplate`,
`adjustFieldsForDisplays`, `getRootPath` and `addTokenToURL`.

The outputs of the stores and composables are plain inputs:
- the field list
- the relations
- the primary-key field
- the related records
- the items

Imperative code is modelled as methods with loops, each proved equal to a
function. These are the selector (`FieldSelector.Fields`), the grouper
(`Grouper.GroupedItems` with its two loops) and the reconciler and setters of
`Board.KanbanLayout`. The lemmas prove their properties about those functions.

Two behaviours of the field selector are worth noting; the model follows the
code in both:

- `fields` drops a duplicate only for the sort field. An option naming a field
  already in the list is requested again (`FieldSelector.GroupFieldMayRepeatPrimaryKey`).
- For `directus_files` shown by `$thumbnail`, the bare `modified_on` and `type`
  come after the five nested paths. They do not replace them
  (`FieldSelector.FieldsImagePaths`).

## Model

| member | source | states |
|---|---|---|
| Js.Filter | app/src/layouts/kanban/index.ts:49 | `Array.prototype.filter`: an element is kept iff the predicate holds; each kept element appears as often as in the input; the input order is kept |
| Js.FindIndex | app/src/layouts/kanban/index.ts:179 | `findIndex`: the first index whose element satisfies the predicate, or none when no element does |
| Js.FilterFirst | app/src/layouts/kanban/index.ts:204-210 | `filter(p)[0]` is the element at `findIndex(p)`, and the filtered list is empty iff `findIndex` finds nothing |
| FieldFilters.TextFields | app/src/layouts/kanban/index.ts:48-50 | exactly the fields typed `string` or `text`, each as often as in the input, in field-list order |
| FieldFilters.TagsFields | app/src/layouts/kanban/index.ts:52-54 | exactly the fields typed `json` or `csv`, each as often as in the input, in field-list order |
| FieldFilters.DateFields | app/src/layouts/kanban/index.ts:56-58 | exactly the fields typed `date`, `time`, `dateTime` or `timestamp`, each as often as in the input, in field-list order |
| FieldFilters.GroupFields | app/src/layouts/kanban/index.ts:60-67 | exactly the fields for which some relation is classified many-to-one, each as often as in the input, in field-list order |
| FieldFilters.GroupFieldTest | app/src/layouts/kanban/index.ts:61-66 | the group-field predicate holds for a field iff some relation is classified many-to-one for it |
| FieldFilters.FileFields | app/src/layouts/kanban/index.ts:69-83 | exactly the `$thumbnail` field and the fields with a relation of this collection and field that points at `directus_files`, each as often as in the input, in order |
| FieldFilters.FileFieldTest | app/src/layouts/kanban/index.ts:70-82 | the file-field predicate holds for a field iff it is `$thumbnail` or has a relation of this collection and field that points at `directus_files` |
| LayoutAccess.ViewOption | app/src/layouts/kanban/index.ts:217-219 | a view option reads its stored value when the key is present, else the default |
| LayoutAccess.WithViewOption | app/src/layouts/kanban/index.ts:220-225 | the setter adds its own key with the new value; every other key keeps its value |
| LayoutAccess.WithTextOption | app/src/layouts/kanban/index.ts:220-225 | a string option's setter overwrites only that key of the stored options and leaves `crop` alone |
| LayoutAccess.WithCrop | app/src/layouts/kanban/index.ts:220-225 | the `crop` setter stores the new flag and leaves every string option alone |
| LayoutAccess.FirstFieldName | app/src/layouts/kanban/index.ts:204-210 | `fields[0]?.field ?? null`: none exactly for an empty list, else the first field's name |
| LayoutAccess.LayoutDefaults | app/src/layouts/kanban/index.ts:204-210 | each computed default (group, date, tags, image source) is null iff no field passes its filter, and otherwise names a field that passes it |
| LayoutAccess.FirstFilteredName | app/src/layouts/kanban/index.ts:204-210 | `fields.filter(p)[0]?.field ?? null` is null iff no field satisfies `p`; otherwise it names the first field that does |
| LayoutAccess.DefaultGroupFieldIsFirst | app/src/layouts/kanban/index.ts:204 | the group field's default is null iff no field has a many-to-one relation; otherwise it is the first such field's name |
| LayoutAccess.DefaultDateFieldIsFirst | app/src/layouts/kanban/index.ts:206 | the date field's default is null iff no field has a date type; otherwise it is the first such field's name |
| LayoutAccess.DefaultTagsFieldIsFirst | app/src/layouts/kanban/index.ts:207 | the tags field's default is null iff no field is typed `json` or `csv`; otherwise it is the first such field's name |
| LayoutAccess.DefaultImageSourceIsFirst | app/src/layouts/kanban/index.ts:210 | the image source's default is null iff no field is a file field; otherwise it is the first such field's name |
| LayoutAccess.Resolve | app/src/layouts/kanban/index.ts:203-218 | every string option reads its stored value when its key is present, else its default; `crop` reads its stored flag or true |
| LayoutAccess.UnsetOptionsReadFirstFields | app/src/layouts/kanban/index.ts:203-218 | with the defaults computed from the field list, an unset group field, date field, tags field or image source reads the first field of its filter |
| LayoutAccess.UnsetFieldOptionsReadDefaults | app/src/layouts/kanban/index.ts:203-218 | an unset group field, date field, tags field or image source reads its default |
| LayoutAccess.UnsetOptionsWithoutDefault | app/src/layouts/kanban/index.ts:205-209 | an unset group title, title or text reads null |
| LayoutAccess.TextOptionRoundTrip | app/src/layouts/kanban/index.ts:215-225 | writing an option and reading it back gives the value written; every other option and `crop` read as before |
| LayoutAccess.CropRoundTrip | app/src/layouts/kanban/index.ts:211-225 | writing `crop` reads back the flag written; the string options read as before |
| LayoutAccess.UnsetOptionsReadDefaults | app/src/layouts/kanban/index.ts:203-218 | with nothing stored, each option reads its default and `crop` is on |
| LayoutAccess.Page | app/src/layouts/kanban/index.ts:232-234 | the page is the stored page when that is non-zero, else 1 |
| LayoutAccess.Limit | app/src/layouts/kanban/index.ts:257-259 | the limit is the stored limit when that is non-zero, else 25 |
| LayoutAccess.Sort | app/src/layouts/kanban/index.ts:244-246 | the sort is the stored sort when non-empty, else the primary-key field when non-empty, else the empty string |
| LayoutAccess.WithPage | app/src/layouts/kanban/index.ts:235-240 | the page setter stores the page and keeps sort, limit and fields |
| LayoutAccess.WithSort | app/src/layouts/kanban/index.ts:247-253 | the sort setter stores the sort, sets the page to 1 and keeps limit and fields |
| LayoutAccess.WithLimit | app/src/layouts/kanban/index.ts:260-266 | the limit setter stores the limit, sets the page to 1 and keeps sort and fields |
| LayoutAccess.EmptyQueryDefaults | app/src/layouts/kanban/index.ts:231-258 | an empty query reads page 1, limit 25 and the primary key (or `''`) as sort |
| LayoutAccess.PageSetterLaw | app/src/layouts/kanban/index.ts:231-241 | after the page setter the page reads the new page (1 for 0); sort and limit read as before |
| LayoutAccess.SortSetterLaw | app/src/layouts/kanban/index.ts:243-254 | after the sort setter the page reads 1 and the limit as before; a non-empty sort reads back, while an empty one falls back as in an empty query |
| LayoutAccess.LimitSetterLaw | app/src/layouts/kanban/index.ts:256-267 | after the limit setter the page reads 1 and the sort as before; the limit reads the new value (25 for 0) |
| FieldSelector.ImagePaths | app/src/layouts/kanban/index.ts:273-279 | the image source contributes exactly five sub-paths |
| FieldSelector.SortFieldName | app/src/layouts/kanban/index.ts:287 | exactly one leading `-` is stripped from the sort; a sort without one is unchanged |
| FieldSelector.Fields | app/src/layouts/kanban/index.ts:269-305 | the push-by-push selector returns the segment composition: base fields, then the sort field if new, then the present options, then the adjusted template fields |
| FieldSelector.PushOptions | app/src/layouts/kanban/index.ts:294-296 | the `forEach` over the options leaves the list followed by exactly the non-null option values, in option order |
| FieldSelector.PresentOptionsMembers | app/src/layouts/kanban/index.ts:294-296 | a value is appended iff some option holds it, and one entry is appended per non-null option |
| FieldSelector.FieldsStartWithPrimaryKey | app/src/layouts/kanban/index.ts:270-271 | the list is empty iff there is no primary key or no collection; otherwise it starts with the primary key |
| FieldSelector.FieldsImagePaths | app/src/layouts/kanban/index.ts:273-284 | with an image source, positions 1-5 are `.modified_on`, `.type`, `.filename_disk`, `.storage`, `.id` of it; for `directus_files` shown by `$thumbnail`, positions 6-7 are `modified_on`, `type` |
| FieldSelector.BareFileFieldsOnlyForThumbnail | app/src/layouts/kanban/index.ts:281-284 | the bare `modified_on` and `type` are in the base segment only for `directus_files` with `$thumbnail`, and then after the five image paths |
| FieldSelector.SortFieldAddedOnce | app/src/layouts/kanban/index.ts:286-292 | a set sort field is always in the result; it is appended at the end iff it was missing; otherwise the list is unchanged |
| FieldSelector.FieldsTail | app/src/layouts/kanban/index.ts:294-304 | after the base and sort segment come exactly the non-null options; the adjusted template fields come last |
| FieldSelector.PresentOptionsOrder | app/src/layouts/kanban/index.ts:294-296 | the options are appended in the order group, text, tags, date, each iff non-null |
| FieldSelector.GroupFieldMayRepeatPrimaryKey | app/src/layouts/kanban/index.ts:294-296 | option values are not checked for duplicates: a group field named like the primary key is requested twice |
| CardImage.AssetUrl | app/src/layouts/kanban/index.ts:197-199 | the URL is the root path, `assets/`, the file's `id`, `?modified=`, its `modified_on`, then `&width=250&height=150` when cropping, else `&key=system-medium-contain` |
| CardImage.ParseUrl | app/src/layouts/kanban/index.ts:192-201 | a URL is returned iff the file is truthy and its type is a string that starts with `image` and does not contain `svg`; it is then the tokenised asset URL |
| CardImage.NoImageUnlessRaster | app/src/layouts/kanban/index.ts:193-195 | a falsy file, a missing type, a non-image type or a type containing `svg` each yield no URL |
| CardImage.SvgHasNoImage | app/src/layouts/kanban/index.ts:195 | any type with `svg` anywhere inside yields no URL |
| CardImage.SvgMimeTypeHasNoImage | app/src/layouts/kanban/index.ts:195 | `image/svg+xml` yields no URL |
| CardImage.PngHasImage | app/src/layouts/kanban/index.ts:192-200 | `image/png` yields the tokenised asset URL |
| Grouper.ColumnKeys | app/src/layouts/kanban/index.ts:113-116 | the column keys are distinct, and a key is present iff some related record has it |
| Grouper.LastWithKey | app/src/layouts/kanban/index.ts:113-116 | the record a column shows is the last one with its key; it is none iff no record has the key |
| Grouper.EmptyColumn | app/src/layouts/kanban/index.ts:114 | a column built for a key has that key as its id's key and no cards |
| Grouper.DateTypeOf | app/src/layouts/kanban/index.ts:126 | a date type is given iff the date option is set and some date field has that name; it is then the type of the first such field |
| Grouper.CardOf | app/src/layouts/kanban/index.ts:120-129 | a card carries its item, the item's primary key and the static title; text, date and tags are undefined when their option is unset; its image is the URL `parseUrl` gives for the item's file when the image option is set (so present iff that file is a raster image), else none; its date type is `DateTypeOf` of the date fields and the date option |
| Grouper.GroupedItems | app/src/layouts/kanban/index.ts:104-133 | the reduce, the item loop and the `Object.values` pass yield the board function of the inputs |
| Grouper.EmptyColumns | app/src/layouts/kanban/index.ts:113-116 | the reduce makes one empty column per distinct record key, in first-occurrence order, holding the last such record's id and title |
| Grouper.PlaceCards | app/src/layouts/kanban/index.ts:118-130 | after the item loop each column holds the cards of exactly the items of its key, in item order; no column is added |
| Grouper.ColumnItemsFilter | app/src/layouts/kanban/index.ts:118-130 | the records of a column's cards are exactly the item list filtered by the column's key |
| Grouper.ColumnCardsAreCards | app/src/layouts/kanban/index.ts:120-129 | every card of a column is the card built from its own item |
| Grouper.ColumnCardsSpec | app/src/layouts/kanban/index.ts:118-130 | a column holds an item iff the item's key is the column's; multiplicities and item-list order are kept; every card is built from its own item |
| Grouper.UnresolvedBoardIsEmpty | app/src/layouts/kanban/index.ts:111 | the board is empty iff the primary key, related primary key, group title or group field is missing, or there are no related records |
| Grouper.ColumnsComeFromRecords | app/src/layouts/kanban/index.ts:113-116 | columns have distinct keys; each takes `id` and `title` from one related record; with no items every column is empty |
| Grouper.OneColumnPerRecord | app/src/layouts/kanban/index.ts:113-116 | for records with distinct keys, the column keys are exactly the records' keys, one per record, in record order |
| Grouper.BoardHasOneColumnPerRecord | app/src/layouts/kanban/index.ts:111-116 | for records with distinct keys, there is one column per record, in order, with `id = record[gpk]` and `title = record[groupTitle]` |
| Grouper.ItemPlacement | app/src/layouts/kanban/index.ts:118-132 | an item is in a column iff its group-field value has that column's key; it is in at most one column, and in none iff no related record has its key |
| Grouper.CardFields | app/src/layouts/kanban/index.ts:120-129 | every card carries the static title and its item's primary key; text, date and tags are read from its item only when set; its image is the URL `parseUrl` gives for its item's file when the image option is set, else none; its date type is that of the first date field named by the date option |
| Grouper.TasksScenario | app/src/layouts/kanban/index.ts:104-133 | tasks 1 and 3 with status `A` form the `Todo` column in that order; task 2 with status `B` forms the `Doing` column |
| Groups.FirstM2o | app/src/layouts/kanban/useGroups.ts:13 | the relation `find` picks is the first classified many-to-one; none means no relation is |
| Groups.RelatedCollection | app/src/layouts/kanban/useGroups.ts:10-16 | null without a group field or a many-to-one relation; otherwise the related collection of the first such relation |
| Groups.RelatedCollectionIsFirstM2o | app/src/layouts/kanban/useGroups.ts:10-16 | a resolved related collection comes from a many-to-one relation of the group field, and no earlier relation is many-to-one |
| Groups.GroupTitleFields | app/src/layouts/kanban/useGroups.ts:20-22 | exactly the related fields typed `string` or `text`, each as often as in the input, in order |
| Groups.GroupFieldsToLoad | app/src/layouts/kanban/useGroups.ts:24-27 | empty iff the related primary key or the group title is null; otherwise exactly that key and then the title |
| Groups.GroupsQuery | app/src/layouts/kanban/useGroups.ts:29-39 | the columns are loaded with limit 100, page 1, empty sort, no filters and no search, over the fields to load |
| Groups.LoadGroups | app/src/layouts/kanban/useGroups.ts:29-39 | the column request goes to the related collection with the fixed query |
| Groups.NothingLoadedMeansEmptyBoard | app/src/layouts/kanban/useGroups.ts:24-27 | when no fields are loaded the board is empty; when some are and the item key and group field are known, the grouper's inputs are resolved |
| Board.RowOf | app/src/layouts/kanban/index.ts:179 | the row overwritten is the first whose primary key equals the element's id; none means no row has it |
| Board.KanbanLayout.constructor | app/src/layouts/kanban/index.ts:32-46 | the layout starts with the given collection, key, table, options and query, an empty effect log, and defaults computed by `LayoutAccess.LayoutDefaults` from the field filters: the first group, date, tags and file field |
| Board.KanbanLayout.SetTextOption | app/src/layouts/kanban/index.ts:220-225 | a string option's setter replaces the stored options by the one-key update and changes neither query nor log |
| Board.KanbanLayout.SetCrop | app/src/layouts/kanban/index.ts:220-225 | the `crop` setter replaces the stored options by the one-key update and changes neither query nor log |
| Board.KanbanLayout.SetPage | app/src/layouts/kanban/index.ts:235-240 | the page setter replaces the stored query by its page update and changes neither options nor log |
| Board.KanbanLayout.SetSort | app/src/layouts/kanban/index.ts:247-253 | the sort setter replaces the stored query by its sort update, with page 1 |
| Board.KanbanLayout.SetLimit | app/src/layouts/kanban/index.ts:260-266 | the limit setter replaces the stored query by its limit update, with page 1 |
| Board.KanbanLayout.Change | app/src/layouts/kanban/index.ts:170-190 | the table becomes the changed table and the log grows by the change's calls, in order; options and query are unchanged |
| Board.UnresolvedChangeDoesNothing | app/src/layouts/kanban/index.ts:171-174 | without a primary key or group field, no item changes and no call is issued |
| Board.MovedSendsOneSort | app/src/layouts/kanban/index.ts:176-177 | a `moved` event changes no item and issues one manual sort from the card at `oldIndex` to the card at `newIndex`; `added` and `removed` parts make no difference |
| Board.RemovedIsIgnored | app/src/layouts/kanban/index.ts:176-189 | an event with only a `removed` part is always handled, changes no item and issues no call |
| Board.AddedOverwritesOneField | app/src/layouts/kanban/index.ts:179-180 | an `added` event overwrites the group field of the matching row with the column id; no other row and no other field of that row changes |
| Board.AddedSendsOnePatch | app/src/layouts/kanban/index.ts:182-188 | an `added` event issues exactly one PATCH to `/items/<collection>/<id>` whose body has only the group field. A manual sort to the card at `newIndex` follows iff the column had cards |
| Board.AddedShowsOnTargetColumn | app/src/layouts/kanban/index.ts:178-180 | after an `added` event, the recomputed board shows the moved row exactly in the columns with the target column's key |
| Board.MovedScenario | app/src/layouts/kanban/index.ts:176-177 | moving the first of three cards to the end issues one manual sort from the first card to the third |
| Board.AddedToEmptyColumnScenario | app/src/layouts/kanban/index.ts:178-188 | moving item 7 into the empty column `B` issues one PATCH `/items/tasks/7` with `{status: "B"}` and no manual sort |

## Left out

- Vue reactivity is not modelled: `computed`, `useSync`, `toRefs`, the i18n helper and the layout's components (`kanban.vue`, `options.vue`, `sidebar.vue`, `actions.vue`). Each computed value is a function of its inputs.
- The fields and relations stores and the `useItems`/`useCollection` composables are not modelled. Their outputs are parameters: fields, relations, primary-key field, related records, items.
- The network is not modelled. `api.patch` and `changeManualSort` are recorded as `Effect`s in the order issued. The server's handling of them is not modelled.
- `getRelationType`, `getFieldsFromTemplate`, `adjustFieldsForDisplays`, `getRootPath` and `addTokenToURL` are not part of this model. They are arbitrary functions given in a `Host` value.
- Grouper.GroupedItems: columns come in the first-occurrence order of their keys. `Object.values` puts integer-like keys first in ascending order, and that ordering is not modelled.
- Grouper.PlaceCards: `item[group] in itemGroups` is only about the keys the reduce created. It ignores inherited properties such as `toString`, and a `__proto__` key.
- Grouper.GroupedItems: a card's `item` is a copy of the record. The sharing between a card and the item table is not modelled.
- CardImage.ParseUrl: a truthy `type` that is not a string makes the source throw. In the model that gives no URL.
- Board.KanbanLayout.Change: the cases where the source throws are preconditions, not modelled exceptions. These are an `added` element whose id no row has (`findIndex` gives -1), and an `oldIndex` or `newIndex` outside the column. An `added` event whose `newIndex` is outside a non-empty column throws only after the row has been overwritten and the PATCH issued (index.ts:180-187). The precondition also leaves out these partial effects.
- Board.RowOf: `===` on ids compares objects by identity in JavaScript. The model compares them by value.
- Numbers are unbounded integers. Fractions, `NaN`, the loss of integer precision above 2^53, and the exponent notation `String()` uses from 1e21 on are not modelled; `Show` always writes every digit.
- A `null` stored layout-options or layout-query value is modelled as the empty store. Both read and spread the same way.
- The `fields` entry of the stored layout query is carried but never read, as in the source.
- The selection, the filters and the search query are passed through to the items composable unchanged. Not modelled.
