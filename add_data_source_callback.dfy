/**
 * AddDataSourceCallback: the callback of automated ingest that a data source
 * processor calls when it finishes. It notifies the case, records the
 * processor's output in the job's data source, appends the content list to
 * itself, and wakes the job processing thread waiting on the lock.
 *
 * The case, the data source and the lock are objects whose effect is the step
 * recorded in the callback's log; the content list is the caller's list object,
 * which the callback mutates in place.
 */
module AddDataSourceCallbackModel {
  import opened IngestCommon

  type TaskId = nat

  /** A java.util.List<Content> handed to the callback; `items` are its elements. */
  class ContentList {
    var items: seq<Content>

    constructor (items: seq<Content>)
      ensures this.items == items
    {
      this.items := items;
    }

    /**
     * addAll: appends the elements `other` had when the call started; with
     * `other == this` the list is doubled.
     */
    method AddAll(other: ContentList)
      modifies this
      ensures items == old(items) + old(other.items)
    {
      items := items + other.items;
    }
  }

  /** What the job's data source records of the processor's run; it keeps the list object itself. */
  datatype ProcessorOutput = ProcessorOutput(result: ProcessorResult, errorMessages: seq<Message>, contents: ContentList)

  /** The job's data source (DataSource in automated ingest). */
  class DataSourceInfo {
    var output: Option<ProcessorOutput>

    constructor ()
      ensures output == None
    {
      output := None;
    }

    method SetDataSourceProcessorOutput(result: ProcessorResult, errorMessages: seq<Message>, contents: ContentList)
      modifies this
      ensures output == Some(ProcessorOutput(result, errorMessages, contents))
    {
      output := Some(ProcessorOutput(result, errorMessages, contents));
    }
  }

  /** The calls done makes on the case, the data source and the lock, in order. */
  datatype Step =
    | NotifyDataSourceAdded(content: Content, taskId: TaskId)
    | NotifyFailedAddingDataSource(taskId: TaskId)
    | RecordOutput(result: ProcessorResult, errorMessages: seq<Message>, contents: ContentList)
    | NotifyLock
  {
    predicate IsCaseNotification() { NotifyDataSourceAdded? || NotifyFailedAddingDataSource? }
  }

  /** Lines 57-61: the case event for a content list: the first content if there is one, a failure otherwise. */
  function CaseNotification(contents: seq<Content>, taskId: TaskId): (s: Step)
    ensures s.IsCaseNotification() && s.taskId == taskId
    ensures s.NotifyDataSourceAdded? <==> contents != []
    ensures s.NotifyDataSourceAdded? ==> s.content == contents[0]
  {
    if contents != [] then NotifyDataSourceAdded(contents[0], taskId) else NotifyFailedAddingDataSource(taskId)
  }

  /** The steps of one call of done on a content list holding `contents`. */
  function DoneSteps(result: ProcessorResult, errorMessages: seq<Message>, list: ContentList, contents: seq<Content>,
                     taskId: TaskId): seq<Step>
  {
    [CaseNotification(contents, taskId), RecordOutput(result, errorMessages, list), NotifyLock]
  }

  class AddDataSourceCallback {
    const dataSourceInfo: DataSourceInfo
    const taskId: TaskId
    /** The steps taken on the case, the data source and the lock so far. */
    var log: seq<Step>

    constructor (dataSourceInfo: DataSourceInfo, taskId: TaskId)
      ensures this.dataSourceInfo == dataSourceInfo && this.taskId == taskId && log == []
    {
      this.dataSourceInfo := dataSourceInfo;
      this.taskId := taskId;
      log := [];
    }

    /**
     * done: one case notification decided by the emptiness of the content list,
     * the output recorded with the list object itself, the list appended to
     * itself, and then the waiting thread notified.
     */
    method Done(result: ProcessorResult, errorMessages: seq<Message>, dataSourceContent: ContentList)
      modifies this`log, dataSourceInfo, dataSourceContent
      ensures log == old(log) + DoneSteps(result, errorMessages, dataSourceContent, old(dataSourceContent.items), taskId)
      ensures dataSourceInfo.output == Some(ProcessorOutput(result, errorMessages, dataSourceContent))
      ensures dataSourceContent.items == old(dataSourceContent.items) + old(dataSourceContent.items)
      // the recorded output holds the same list object, so it sees the doubling too
      ensures dataSourceInfo.output.value.contents.items == old(dataSourceContent.items) + old(dataSourceContent.items)
      // so the recorded output holds every content the processor returned twice as often as it was returned
      ensures forall c :: multiset(dataSourceInfo.output.value.contents.items)[c] == 2 * multiset(old(dataSourceContent.items))[c]
    {
      var step := if dataSourceContent.items != []
        then NotifyDataSourceAdded(dataSourceContent.items[0], taskId)
        else NotifyFailedAddingDataSource(taskId);
      log := log + [step];
      dataSourceInfo.SetDataSourceProcessorOutput(result, errorMessages, dataSourceContent);
      log := log + [RecordOutput(result, errorMessages, dataSourceContent)];
      dataSourceContent.AddAll(dataSourceContent);
      log := log + [NotifyLock];
    }

    /** doneEDT: the same as done. */
    method DoneEDT(result: ProcessorResult, errorMessages: seq<Message>, dataSources: ContentList)
      modifies this`log, dataSourceInfo, dataSources
      ensures log == old(log) + DoneSteps(result, errorMessages, dataSources, old(dataSources.items), taskId)
      ensures dataSourceInfo.output == Some(ProcessorOutput(result, errorMessages, dataSources))
      ensures dataSources.items == old(dataSources.items) + old(dataSources.items)
    {
      Done(result, errorMessages, dataSources);
    }
  }

  /**
   * Lines 57-66: each call of done issues exactly one case notification, first;
   * the output is recorded with the given result, messages and list next; the
   * waiting thread is notified last, after the output has been recorded.
   */
  lemma DoneStepOrder(result: ProcessorResult, errorMessages: seq<Message>, list: ContentList,
                      contents: seq<Content>, taskId: TaskId)
    ensures var s := DoneSteps(result, errorMessages, list, contents, taskId);
            && |s| == 3
            && (forall i :: 0 <= i < |s| ==> (s[i].IsCaseNotification() <==> i == 0))
            && (contents != [] ==> s[0] == NotifyDataSourceAdded(contents[0], taskId))
            && (s[0] == NotifyFailedAddingDataSource(taskId) <==> contents == [])
            && s[1] == RecordOutput(result, errorMessages, list)
            && (forall i :: 0 <= i < |s| ==> (s[i] == NotifyLock <==> i == 2))
  {
  }
}
