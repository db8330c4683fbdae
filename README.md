# hifive-sync-server core, modelled in Dafny

The hifive sync server keeps data on a browser client and on a server in step. It does this through
"resources", one per data model. This project models four pieces of its core:

- **The resource registry** (`SyncResourceManager`), in `resource_registry.dfy`. At start-up it walks the
  candidate handler classes annotated with `@SyncResourceService`. It keeps each concrete subtype of
  `SeparatedCommonDataSyncResource` that names a non-empty data model. It fills three maps keyed by that
  data-model name: resource class, lock manager and update strategy. Afterwards it locates the
  resource for a name and lists all registered names. A class that cannot be loaded stops the scan
  with a `SyncException`.
- **Upload replies**, in `upload_responses.dfy`. The ordinary reply turns each sync response of an
  upload result into a message:
  - a "new data" message for a POST;
  - an ordinary message (sync data id plus action) for anything else.

  The on-conflict reply turns every response into a conflict message and copies the batch's result type.
- **The sample schedule entity** (`ScheduleBean`), in `schedule_bean.dfy`:
  - identity by schedule id, consistent with its 32-bit hash code;
  - the projections of participants and dates;
  - the in-place merge of a new list of dates into the existing date-bean objects.
- `wrappers.dfy` holds the `Option` type used for absent and null values.

The modelling choices:

- The registry is a class whose three maps are fields. Its start-up is a method with a loop, proved
  against `RegisterAll`, a fold of one registration step over the candidates.
- The schedule is a class whose date beans are objects whose dates are updated in place.
- Each loop of the source is a method with invariants, specified by a function on values. The
  properties the source promises are proved about those functions as lemmas.

## Model

Source paths are relative to the repository root.

| member | source | states |
|---|---|---|
| ResourceRegistry.SelectResource | hifiveSyncServer/src/main/java/com/htmlhifive/sync/resource/SyncResourceManager.java:120-134 | A class that cannot be loaded raises the SyncException "An Exception thrown by SyncResourceLocator", and only that case raises. A class is selected exactly when it is loadable, not an interface, not abstract and a subtype of SeparatedCommonDataSyncResource. The selected class is the candidate's own class. |
| ResourceRegistry.RegisteredName | hifiveSyncServer/src/main/java/com/htmlhifive/sync/resource/SyncResourceManager.java:89-101 | A candidate is registered exactly when it is selected and its annotation's data-model name is neither null nor empty. It is registered under that name. |
| ResourceRegistry.RegisterAllConsistent | hifiveSyncServer/src/main/java/com/htmlhifive/sync/resource/SyncResourceManager.java:102-108 | The three `put`s keep the resource, lock-manager and update-strategy maps on the same key set. The empty name never becomes a key. |
| ResourceRegistry.RegisteredKeys | hifiveSyncServer/src/main/java/com/htmlhifive/sync/resource/SyncResourceManager.java:87-110 | After the loop, a name is a key if and only if it was a key before or some candidate is registered under it. A name no candidate declares keeps all three of its entries unchanged. |
| ResourceRegistry.LastDeclarerWins | hifiveSyncServer/src/main/java/com/htmlhifive/sync/resource/SyncResourceManager.java:102-108 | A name's three entries all come from the last candidate registered under that name. Its `put`s overwrite those of earlier candidates. |
| ResourceRegistry.SkippedCandidateIsInert | hifiveSyncServer/src/main/java/com/htmlhifive/sync/resource/SyncResourceManager.java:89-101 | A candidate that is skipped (the `continue` branches) can be taken out of the scan without changing any of the three maps. |
| ResourceRegistry.SkippedCandidateAddsNothing | hifiveSyncServer/src/main/java/com/htmlhifive/sync/resource/SyncResourceManager.java:89-101 | Appending an interface, an abstract class, a non-separated resource, or one with a null or empty data-model name leaves the maps as they are. |
| ResourceRegistry.SyncResourceManager.constructor | hifiveSyncServer/src/main/java/com/htmlhifive/sync/resource/SyncResourceManager.java:68-73 | The map set-up at the start of the Java constructor: the three maps start empty and consistent. |
| ResourceRegistry.SyncResourceManager.Create | hifiveSyncServer/src/main/java/com/htmlhifive/sync/resource/SyncResourceManager.java:68-75 | The whole Java constructor: empty maps, then `init`. When a class cannot be loaded the SyncException escapes and no manager exists. Otherwise the new manager holds the registration of every candidate, in scan order, and its maps are consistent. |
| ResourceRegistry.SyncResourceManager.Init | hifiveSyncServer/src/main/java/com/htmlhifive/sync/resource/SyncResourceManager.java:81-111 | The maps end up as the registration of the candidates, in scan order, up to the first class that cannot be loaded. They stay consistent. The method reports an error exactly when such a class exists, and the error is that class's SyncException. The half-filled manager is then discarded by `Create`. |
| ResourceRegistry.SyncResourceManager.LocateSyncResource | hifiveSyncServer/src/main/java/com/htmlhifive/sync/resource/SyncResourceManager.java:143-158 | The result is null exactly for an unregistered name. Otherwise it is that name's resource, wired with that name's lock manager and update strategy. |
| ResourceRegistry.SyncResourceManager.GetAllDataModelNames | hifiveSyncServer/src/main/java/com/htmlhifive/sync/resource/SyncResourceManager.java:165-168 | The set holds exactly the names for which a resource can be located, and never the empty name. |
| ResourceRegistry.LocateFindsLastDeclarer | hifiveSyncServer/src/main/java/com/htmlhifive/sync/resource/SyncResourceManager.java:143-158 | After start-up, a name locates the resource of the last candidate registered under it, with that candidate's lock manager and update strategy. |
| ResourceRegistry.LocateUndeclaredIsNull | hifiveSyncServer/src/main/java/com/htmlhifive/sync/resource/SyncResourceManager.java:143-149 | After start-up, a name that no candidate declares locates nothing (null). |
| ResourceRegistry.AllNamesAreDeclaredNames | hifiveSyncServer/src/main/java/com/htmlhifive/sync/resource/SyncResourceManager.java:165-168 | After start-up, the data-model names are exactly the names some candidate is registered under, whatever the scan order. |
| UploadResponses.NewMessageOrdinary | hifiveSyncServer/src/main/java/com/htmlhifive/sync/jsonctrl/upload/UploadResponseMessageOrdinary.java:30-35 | The ordinary message carries the header's sync data id and the action that the converter gives for the header's sync method. |
| UploadResponses.MessageOrdinaryIgnoresBody | hifiveSyncServer/src/main/java/com/htmlhifive/sync/jsonctrl/upload/UploadResponseMessageOrdinary.java:30-35 | Two responses with the same sync data id and sync method give the same ordinary message. The body, result type and data-model name are not echoed. |
| UploadResponses.OrdinaryMessageFor | hifiveSyncServer/src/main/java/com/htmlhifive/sync/jsonctrl/upload/UploadResponseOrdinary.java:44-45 | The message is "new data" exactly for a POST, and it wraps the response. Otherwise it is the ordinary message of that response. |
| UploadResponses.OrdinaryDataList | hifiveSyncServer/src/main/java/com/htmlhifive/sync/jsonctrl/upload/UploadResponseOrdinary.java:40-48 | The loop builds one message per response, in order, each of the kind that the response's method selects. |
| UploadResponses.ConflictDataList | hifiveSyncServer/src/main/java/com/htmlhifive/sync/jsonctrl/upload/UploadResponseOnConflict.java:45-52 | The loop builds one conflict message per response, in order, whatever the response's method. |
| UploadResponses.OrdinaryListSplitsByMethod | hifiveSyncServer/src/main/java/com/htmlhifive/sync/jsonctrl/upload/UploadResponseOrdinary.java:38-51 | Reading an ordinary data list back gives exactly the POST responses from its new-data messages. It gives exactly the sync data ids of the other responses from its ordinary messages. Both come back in request order. |
| UploadResponses.ConflictListCarriesEveryResponse | hifiveSyncServer/src/main/java/com/htmlhifive/sync/jsonctrl/upload/UploadResponseOnConflict.java:43-56 | Reading a conflict data list back gives every response of the upload result, in order, and no ordinary message. |
| UploadResponses.PostSplitIsComplete | hifiveSyncServer/src/main/java/com/htmlhifive/sync/jsonctrl/upload/UploadResponseOrdinary.java:42-48 | The POST responses and the other responses together account for every item of the upload result. |
| UploadResponses.UploadResponseOrdinary.constructor | hifiveSyncServer/src/main/java/com/htmlhifive/sync/jsonctrl/upload/UploadResponseOrdinary.java:38-51 | The data list holds one message per item of the result data set, in order: new data for a POST, ordinary otherwise. |
| UploadResponses.UploadResponseOnConflict.constructor | hifiveSyncServer/src/main/java/com/htmlhifive/sync/jsonctrl/upload/UploadResponseOnConflict.java:43-56 | The data list holds one conflict message per item, in order. The conflict type is the upload result's result type. |
| UploadResponses.UploadResponseOnConflict.SetConflictType | hifiveSyncServer/src/main/java/com/htmlhifive/sync/jsonctrl/upload/UploadResponseOnConflict.java:61-70 | The getter then returns the new conflict type. The data list is not touched. |
| Schedule.ScheduleBean.constructor | hifiveSyncServer/src/main/java/com/htmlhifive/sync/sample/scd/ScheduleBean.java:112-115 | The new schedule has the given schedule id. |
| Schedule.ScheduleBean.Equals | hifiveSyncServer/src/main/java/com/htmlhifive/sync/sample/scd/ScheduleBean.java:123-135 | A schedule equals itself. Anything that is not a schedule, null included, is unequal. Two schedules are equal if and only if their schedule ids are. |
| Schedule.ScheduleBean.HashCode | hifiveSyncServer/src/main/java/com/htmlhifive/sync/sample/scd/ScheduleBean.java:140-144 | The hash is a Java `int`: 17 * 37 plus the schedule id's String hash, wrapped to 32 bits. |
| Schedule.EqualsIffSameId | hifiveSyncServer/src/main/java/com/htmlhifive/sync/sample/scd/ScheduleBean.java:123-135 | Schedule equality depends on the schedule id alone, in both directions. |
| Schedule.EqualsIsEquivalence | hifiveSyncServer/src/main/java/com/htmlhifive/sync/sample/scd/ScheduleBean.java:123-135 | Schedule equality is symmetric and transitive. |
| Schedule.EqualsImpliesEqualHashCode | hifiveSyncServer/src/main/java/com/htmlhifive/sync/sample/scd/ScheduleBean.java:123-144 | Equal schedules have equal hash codes, which is the equals/hashCode contract. |
| Schedule.ScheduleBean.GetUserIds | hifiveSyncServer/src/main/java/com/htmlhifive/sync/sample/scd/ScheduleBean.java:160-168 | The list holds one id per participant, in participant order. |
| Schedule.DatesOf | hifiveSyncServer/src/main/java/com/htmlhifive/sync/sample/scd/ScheduleBean.java:175-182 | The date strings of a list of date beans, one per bean, in order. |
| Schedule.ScheduleBean.GetDates | hifiveSyncServer/src/main/java/com/htmlhifive/sync/sample/scd/ScheduleBean.java:175-182 | The result is the dates of the date beans, in order. |
| Schedule.ScheduleBean.SetNewDateBeans | hifiveSyncServer/src/main/java/com/htmlhifive/sync/sample/scd/ScheduleBean.java:190-198 | The date beans are replaced by new, distinct beans, one per given date, in order, each owned by this schedule. Reading the dates back gives the given list. |
| Schedule.OverwriteDates | hifiveSyncServer/src/main/java/com/htmlhifive/sync/sample/scd/ScheduleBean.java:209-224 | The first loop overwrites the dates of the first min(beans, dates) beans pairwise. The remaining beans are set aside, in order, and left untouched. |
| Schedule.ScheduleBean.AppendNewBeans | hifiveSyncServer/src/main/java/com/htmlhifive/sync/sample/scd/ScheduleBean.java:227-230 | The second loop appends one new bean owned by this schedule for each remaining date, in order. The existing beans stay in front, and the list stays free of repeats. |
| Schedule.RemoveFirst | hifiveSyncServer/src/main/java/com/htmlhifive/sync/sample/scd/ScheduleBean.java:232-234 | `List.remove` leaves a list that does not hold the bean unchanged. |
| Schedule.RemoveFirstAt | hifiveSyncServer/src/main/java/com/htmlhifive/sync/sample/scd/ScheduleBean.java:232-234 | `List.remove` drops exactly the bean's first occurrence. |
| Schedule.ScheduleBean.RemoveBeans | hifiveSyncServer/src/main/java/com/htmlhifive/sync/sample/scd/ScheduleBean.java:232-234 | The third loop removes the beans that were set aside, one after another. Each removal takes the first occurrence. |
| Schedule.RemoveTrailingBeans | hifiveSyncServer/src/main/java/com/htmlhifive/sync/sample/scd/ScheduleBean.java:212-234 | Removing the trailing beans of a repeat-free list, one by one, leaves exactly the leading beans. |
| Schedule.MergedShape | hifiveSyncServer/src/main/java/com/htmlhifive/sync/sample/scd/ScheduleBean.java:206-234 | After the three loops, the list is the merged list cut to the number of dates. The leading beans are the old ones, in their old places, and there are no repeats. |
| Schedule.ScheduleBean.SetUpdatedDateBeans | hifiveSyncServer/src/main/java/com/htmlhifive/sync/sample/scd/ScheduleBean.java:206-235 | Reading the dates back gives exactly the new dates. The first min(old, new) beans are the same objects, in the same places. The beans beyond them are new and owned by this schedule. Old beans that were dropped are left untouched, and the list stays free of repeats. |
| Schedule.ScheduleBean.SetScheduleId | hifiveSyncServer/src/main/java/com/htmlhifive/sync/sample/scd/ScheduleBean.java:248-250 | Sets the schedule id and no other field. |
| Schedule.ScheduleBean.SetUserBeans | hifiveSyncServer/src/main/java/com/htmlhifive/sync/sample/scd/ScheduleBean.java:263-265 | Sets the participants and no other field. |
| Schedule.ScheduleBean.SetTitle | hifiveSyncServer/src/main/java/com/htmlhifive/sync/sample/scd/ScheduleBean.java:278-280 | Sets the title and no other field. |
| Schedule.ScheduleBean.SetCategory | hifiveSyncServer/src/main/java/com/htmlhifive/sync/sample/scd/ScheduleBean.java:293-295 | Sets the category and no other field. |
| Schedule.ScheduleBean.SetDateBeans | hifiveSyncServer/src/main/java/com/htmlhifive/sync/sample/scd/ScheduleBean.java:308-310 | Sets the date beans and no other field. |
| Schedule.ScheduleBean.SetStartTime | hifiveSyncServer/src/main/java/com/htmlhifive/sync/sample/scd/ScheduleBean.java:323-325 | Sets the start time and no other field. |
| Schedule.ScheduleBean.SetFinishTime | hifiveSyncServer/src/main/java/com/htmlhifive/sync/sample/scd/ScheduleBean.java:338-340 | Sets the finish time and no other field. |
| Schedule.ScheduleBean.SetDetail | hifiveSyncServer/src/main/java/com/htmlhifive/sync/sample/scd/ScheduleBean.java:353-355 | Sets the detail and no other field. |
| Schedule.ScheduleBean.SetPlace | hifiveSyncServer/src/main/java/com/htmlhifive/sync/sample/scd/ScheduleBean.java:368-370 | Sets the place and no other field. |

## Left out

- Classpath scanning, `Class.forName` and reflection on annotations are replaced by a sequence of candidate records. Each record carries what reflection reports about its class, so the scan order is arbitrary but fixed.
- The `found == null` test in `selectResource` is not modelled, because `Class.forName` never returns null.
- `ApplicationContext.getBean` is taken to return the bean for a class name, so a located resource is a value triple. The source calls `setLockManager` and `setUpdateStrategy` on whatever bean the context returns for the class (a shared singleton under Spring's default scope). Any sharing of that bean is not modelled, and neither are the lock-manager and update-strategy classes.
- ResourceRegistry.SyncResourceManager.constructor: models only the map set-up. `Create` is the Java constructor. A Dafny caller can still call the constructor and `Init` separately and keep a manager whose `Init` failed, which Java, where `init` is private and runs inside the constructor, never allows.
- ResourceRegistry.SyncResourceManager.GetAllDataModelNames: returns a snapshot set. The source returns the map's live key-set view, which would reflect later changes to the map.
- The converter `JsonDataConvertor.convertSyncMethodToAction` is a function parameter, because its mapping is not part of this model.
- `UploadResponseMessageForNewData` and `UploadResponseMessageOnConflict` are not part of this model. Their messages keep the whole response they were built from.
- `SyncUploadResult`, `SyncResponse` and its header are values holding only the fields read here. `SyncResultType` is kept opaque. `SyncMethod` has only the three methods uploads use.
- `UploadResponse.setDataList` and the getters (`getDataList`, `getConflictType`, and the field getters of `ScheduleBean`) are plain field reads and writes, so no contract is stated for them beyond the setters'.
- `ScheduleDateBean` and `PersonBean` are not part of this model beyond what is read here: a date bean's owner and date, and a person's id. `ScheduleDateBean.equals` is not part of this model either.
- Schedule.ScheduleBean.SetUpdatedDateBeans: `List.remove` is modelled as removal by object identity. The method requires that no bean object occurs twice in `dateBeans`. With a repeated object the source's merge does not keep the dates in order: beans [A, B, A] with dates [x, y] end as [B, A] reading [y, x].
- Schedule.ScheduleBean.SetUpdatedDateBeans: `dateBeans` is a sequence value, not a `List` object. `setDateBeans` stores the caller's list and `getDateBeans` hands out the live list, so in the source every holder of that list sees the merge's `add` and `remove`. The model does not capture that aliasing.
- Schedule.ScheduleBean.SetUpdatedDateBeans: on an unmodifiable list the source's `add` and `remove` throw `UnsupportedOperationException`. The model treats `dateBeans` as always modifiable.
- Schedule.ScheduleBean.SetDateBeans: stores a copy of the sequence value, so later changes through the caller's list, or through this schedule's merge, are not shared between the two.
- Schedule.OverwriteDates: requires the same absence of repeated bean objects as SetUpdatedDateBeans.
- Schedule.ScheduleBean.constructor: the new schedule starts with empty participant and date lists. In the source these fields are null, and null fields and null arguments are not modelled anywhere.
- Schedule.ScheduleBean.HashCode: a string is hashed over its characters as code points. Java hashes UTF-16 code units, so strings with characters outside the Basic Multilingual Plane hash differently. A null schedule id is not modelled.
- `toString`, the no-argument JPA constructor and the persistence annotations are left out.
- Concurrency is left out: start-up and the entity methods are modelled as single-threaded.
