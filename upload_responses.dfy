/**
 * Assembly of the reply to an upload: an upload result (one sync response per
 * uploaded item, in request order, and a batch-level result type) becomes either
 * an ordinary response or an on-conflict response, each holding a `dataList` of
 * response messages.
 */
module UploadResponses {

  /** The sync method of an item, as carried in its header. */
  datatype SyncMethod = POST | PUT | DELETE

  /** The header fields of a sync response that response assembly reads. */
  datatype SyncResponseHeader = SyncResponseHeader(
    dataModelName: string,
    syncDataId: string,
    syncMethod: SyncMethod)

  /** A result classification; the set of classifications is open, so it is kept opaque. */
  datatype SyncResultType = SyncResultType(name: string)

  /** The outcome of one uploaded item; `body` is the entity state, owned by the data model. */
  datatype SyncResponse<T> = SyncResponse(
    header: SyncResponseHeader,
    resultType: SyncResultType,
    body: T)

  /** An upload result: the responses in request order and the batch-level result type. */
  datatype SyncUploadResult<T> = SyncUploadResult(
    resultDataSet: seq<SyncResponse<T>>,
    resultType: SyncResultType)

  /**
   * The three kinds of response message. The message for new data and the
   * conflict message are built from a whole response; what they then echo is
   * decided by classes that are not part of this model, so they carry that response.
   */
  datatype UploadResponseMessage<T> =
    | MessageForNewData(response: SyncResponse<T>)
    | MessageOrdinary(syncDataId: string, action: string)
    | MessageOnConflict(response: SyncResponse<T>)

  /**
   * The UploadResponseMessageOrdinary constructor: the message echoes the header's
   * sync data id and the action that `convertSyncMethodToAction` gives for the
   * header's sync method.
   */
  function NewMessageOrdinary<T>(response: SyncResponse<T>, convertSyncMethodToAction: SyncMethod -> string)
    : (m: UploadResponseMessage<T>)
    ensures m.MessageOrdinary?
    ensures m.syncDataId == response.header.syncDataId
    ensures m.action == convertSyncMethodToAction(response.header.syncMethod)
  {
    MessageOrdinary(response.header.syncDataId, convertSyncMethodToAction(response.header.syncMethod))
  }

  /**
   * An ordinary message depends on the header's sync data id and sync method only:
   * neither the body, the result type nor the data-model name is echoed.
   */
  lemma MessageOrdinaryIgnoresBody<T>(r1: SyncResponse<T>, r2: SyncResponse<T>, convert: SyncMethod -> string)
    requires r1.header.syncDataId == r2.header.syncDataId
    requires r1.header.syncMethod == r2.header.syncMethod
    ensures NewMessageOrdinary(r1, convert) == NewMessageOrdinary(r2, convert)
  {
  }

  /** The message the ordinary response builds for one response: new data for POST, ordinary otherwise. */
  function OrdinaryMessageFor<T>(response: SyncResponse<T>, convert: SyncMethod -> string)
    : (m: UploadResponseMessage<T>)
    ensures m.MessageForNewData? <==> response.header.syncMethod == POST
    ensures m.MessageForNewData? ==> m.response == response
    ensures m.MessageOrdinary? <==> response.header.syncMethod != POST
    ensures m.MessageOrdinary? ==> m == NewMessageOrdinary(response, convert)
  {
    if response.header.syncMethod == POST then MessageForNewData(response)
    else NewMessageOrdinary(response, convert)
  }

  /**
   * The loop of the UploadResponseOrdinary constructor: one message per response,
   * in the same order, of the kind the response's sync method selects.
   */
  method OrdinaryDataList<T>(results: seq<SyncResponse<T>>, convert: SyncMethod -> string)
    returns (dataList: seq<UploadResponseMessage<T>>)
    ensures |dataList| == |results|
    ensures forall i :: 0 <= i < |results| ==> dataList[i] == OrdinaryMessageFor(results[i], convert)
  {
    dataList := [];
    for i := 0 to |results|
      invariant |dataList| == i
      invariant forall k :: 0 <= k < i ==> dataList[k] == OrdinaryMessageFor(results[k], convert)
    {
      var response := results[i];
      var message := if response.header.syncMethod == POST then MessageForNewData(response)
                     else NewMessageOrdinary(response, convert);
      dataList := dataList + [message];
    }
  }

  /**
   * The loop of the UploadResponseOnConflict constructor: every response, whatever
   * its method or its own outcome, becomes a conflict message, in the same order.
   */
  method ConflictDataList<T>(results: seq<SyncResponse<T>>) returns (dataList: seq<UploadResponseMessage<T>>)
    ensures |dataList| == |results|
    ensures forall i :: 0 <= i < |results| ==> dataList[i] == MessageOnConflict(results[i])
  {
    dataList := [];
    for i := 0 to |results|
      invariant |dataList| == i
      invariant forall k :: 0 <= k < i ==> dataList[k] == MessageOnConflict(results[k])
    {
      var message := MessageOnConflict(results[i]);
      dataList := dataList + [message];
    }
  }

  /** The responses carried by the messages built from whole responses, in order. */
  function CarriedResponses<T>(messages: seq<UploadResponseMessage<T>>): seq<SyncResponse<T>>
    decreases |messages|
  {
    if messages == [] then []
    else
      var rest := CarriedResponses(messages[1..]);
      match messages[0]
      case MessageOrdinary(_, _) => rest
      case MessageForNewData(r) => [r] + rest
      case MessageOnConflict(r) => [r] + rest
  }

  /** The sync data ids echoed by the ordinary messages, in order. */
  function OrdinaryIds<T>(messages: seq<UploadResponseMessage<T>>): seq<string>
    decreases |messages|
  {
    if messages == [] then []
    else if messages[0].MessageOrdinary? then [messages[0].syncDataId] + OrdinaryIds(messages[1..])
    else OrdinaryIds(messages[1..])
  }

  /** The POST responses of an upload result, in order. */
  function PostResponses<T>(results: seq<SyncResponse<T>>): seq<SyncResponse<T>>
    decreases |results|
  {
    if results == [] then []
    else if results[0].header.syncMethod == POST then [results[0]] + PostResponses(results[1..])
    else PostResponses(results[1..])
  }

  /** The sync data ids of the responses that are not POST, in order. */
  function NonPostIds<T>(results: seq<SyncResponse<T>>): seq<string>
    decreases |results|
  {
    if results == [] then []
    else if results[0].header.syncMethod != POST then [results[0].header.syncDataId] + NonPostIds(results[1..])
    else NonPostIds(results[1..])
  }

  /**
   * Reading an ordinary data list back: its new-data messages give back exactly the
   * POST responses, and its ordinary messages exactly the sync data ids of the other
   * responses, each in request order.
   */
  lemma {:induction false} OrdinaryListSplitsByMethod<T>(
    results: seq<SyncResponse<T>>, dataList: seq<UploadResponseMessage<T>>, convert: SyncMethod -> string)
    requires |dataList| == |results|
    requires forall i :: 0 <= i < |results| ==> dataList[i] == OrdinaryMessageFor(results[i], convert)
    ensures CarriedResponses(dataList) == PostResponses(results)
    ensures OrdinaryIds(dataList) == NonPostIds(results)
    decreases |results|
  {
    if results != [] {
      OrdinaryListSplitsByMethod(results[1..], dataList[1..], convert);
    }
  }

  /** Reading a conflict data list back gives every response of the upload result, in order. */
  lemma {:induction false} ConflictListCarriesEveryResponse<T>(
    results: seq<SyncResponse<T>>, dataList: seq<UploadResponseMessage<T>>)
    requires |dataList| == |results|
    requires forall i :: 0 <= i < |results| ==> dataList[i] == MessageOnConflict(results[i])
    ensures CarriedResponses(dataList) == results
    ensures OrdinaryIds(dataList) == []
    decreases |results|
  {
    if results != [] {
      ConflictListCarriesEveryResponse(results[1..], dataList[1..]);
    }
  }

  /** Every item is either POST or not: the two readings of an ordinary list account for all of it. */
  lemma {:induction false} PostSplitIsComplete<T>(results: seq<SyncResponse<T>>)
    ensures |PostResponses(results)| + |NonPostIds(results)| == |results|
    decreases |results|
  {
    if results != [] {
      PostSplitIsComplete(results[1..]);
    }
  }

  /** The reply when every item was applied. */
  class UploadResponseOrdinary<T> {
    var dataList: seq<UploadResponseMessage<T>>

    /** Builds `dataList` from the upload result; the result itself is a value and is left as it is. */
    constructor(uploadResult: SyncUploadResult<T>, convert: SyncMethod -> string)
      ensures |dataList| == |uploadResult.resultDataSet|
      ensures forall i :: 0 <= i < |dataList| ==>
        dataList[i] == OrdinaryMessageFor(uploadResult.resultDataSet[i], convert)
    {
      var list := OrdinaryDataList(uploadResult.resultDataSet, convert);
      dataList := list;
    }

    function GetDataList(): seq<UploadResponseMessage<T>>
      reads this
    {
      dataList
    }
  }

  /** The reply when at least one item conflicted. */
  class UploadResponseOnConflict<T> {
    var dataList: seq<UploadResponseMessage<T>>
    var conflictType: SyncResultType

    /** Builds `dataList` from the upload result and copies its batch-level result type. */
    constructor(uploadResult: SyncUploadResult<T>)
      ensures |dataList| == |uploadResult.resultDataSet|
      ensures forall i :: 0 <= i < |dataList| ==> dataList[i] == MessageOnConflict(uploadResult.resultDataSet[i])
      ensures conflictType == uploadResult.resultType
    {
      var list := ConflictDataList(uploadResult.resultDataSet);
      dataList := list;
      conflictType := uploadResult.resultType;
    }

    function GetDataList(): seq<UploadResponseMessage<T>>
      reads this
    {
      dataList
    }

    function GetConflictType(): SyncResultType
      reads this
    {
      conflictType
    }

    /** Changes the conflict type and nothing else; `dataList` stays as it was. */
    method SetConflictType(conflictType: SyncResultType)
      modifies this`conflictType
      ensures this.conflictType == conflictType
      ensures GetConflictType() == conflictType
    {
      this.conflictType := conflictType;
    }
  }
}
