/**
 * AddMemoryImageTask: adds one memory image file to a case database and runs the
 * Volatility post-processing on the new data source.
 *
 * Whether the image file exists is a parameter; how addImageInfo and the
 * Volatility run end (normally, with a TskCoreException, or with an unchecked
 * exception) are two StepOutcome parameters. The Volatility run is otherwise
 * recorded as a call and not modelled further.
 */
module MemoryImageTask {
  import opened IngestCommon

  /** Lines 139-152: the try block ends in its catch clause, on a TskCoreException of either call. */
  predicate CoreErrorCaught(fileExists: bool, addImageInfo: StepOutcome, volatility: StepOutcome)
  {
    fileExists && (addImageInfo.StepCoreError? || (addImageInfo.StepOk? && volatility.StepCoreError?))
  }

  /** An unchecked exception of either call passes the finally block and leaves run(). */
  predicate Escapes(fileExists: bool, addImageInfo: StepOutcome, volatility: StepOutcome)
  {
    fileExists && (addImageInfo.StepUnchecked? || (addImageInfo.StepOk? && volatility.StepUnchecked?))
  }

  /** The calls addImageToCase makes: the lock, addImageInfo, Volatility and the release. */
  function AddImageCalls(path: Path, fileExists: bool, addImageInfo: StepOutcome): seq<Call>
  {
    [AcquireExclusiveLock]
    + (if !fileExists then []
       else [AddImageInfo(path)] + (if addImageInfo.StepOk? then [RunVolatility(Image(path))] else [])
            + [ReleaseExclusiveLock])
  }

  /** Line 144: the image is added to the list as soon as addImageInfo returns it, before Volatility runs. */
  function AddImageDataSources(path: Path, fileExists: bool, addImageInfo: StepOutcome): seq<Content>
  {
    if fileExists && addImageInfo.StepOk? then [Image(path)] else []
  }

  function AddImageMessages(path: Path, fileExists: bool, addImageInfo: StepOutcome, volatility: StepOutcome)
    : seq<Message>
  {
    if !fileExists then [Message(Critical, MissingImageFile, path)]
    else if CoreErrorCaught(fileExists, addImageInfo, volatility) then [Message(Critical, MemoryImageError, path)]
    else []
  }

  /** Everything one call of run does: its calls, what the callback sees, and the flag afterwards. */
  datatype MemoryRecord = MemoryRecord(calls: seq<Call>, status: Status, criticalAfter: bool)

  /** The effect of run on a task whose flag is `criticalBefore`. */
  function MemoryRun(path: Path, fileExists: bool, addImageInfo: StepOutcome, volatility: StepOutcome,
                     criticalBefore: bool): MemoryRecord
  {
    var prefix := [SetIndeterminate(true), SetProgress(0)] + AddImageCalls(path, fileExists, addImageInfo);
    if Escapes(fileExists, addImageInfo, volatility) then
      MemoryRecord(prefix, Aborted, criticalBefore)
    else
      var dataSources := AddImageDataSources(path, fileExists, addImageInfo);
      var messages := AddImageMessages(path, fileExists, addImageInfo, volatility);
      var result := Classify(criticalBefore || !fileExists || CoreErrorCaught(fileExists, addImageInfo, volatility),
                             messages);
      MemoryRecord(prefix + [SetProgress(100), Done(result, messages, dataSources)],
                   Completed(result, messages, dataSources), false)
  }

  class AddMemoryImageTask {
    const deviceId: string
    const imageFilePath: Path
    var criticalErrorOccurred: bool
    /** The calls made so far on the case database, the progress monitor, Volatility and the callback. */
    var calls: seq<Call>

    constructor (deviceId: string, imageFilePath: Path)
      ensures this.deviceId == deviceId && this.imageFilePath == imageFilePath
      ensures !criticalErrorOccurred && calls == []
    {
      this.deviceId := deviceId;
      this.imageFilePath := imageFilePath;
      criticalErrorOccurred := false;
      calls := [];
    }

    /**
     * addImageToCase: takes the exclusive lock, then either returns early for a
     * missing file, or adds the image and runs Volatility inside a try whose
     * catch records a TskCoreException and whose finally releases the lock;
     * `thrown` reports an unchecked exception leaving the method.
     */
    method AddImageToCase(fileExists: bool, addImageInfo: StepOutcome, volatility: StepOutcome,
                          dataSources: seq<Content>, errorMessages: seq<Message>)
      returns (dataSourcesAfter: seq<Content>, messagesAfter: seq<Message>, thrown: bool)
      modifies this`criticalErrorOccurred, this`calls
      ensures dataSourcesAfter == dataSources + AddImageDataSources(imageFilePath, fileExists, addImageInfo)
      ensures messagesAfter == errorMessages + AddImageMessages(imageFilePath, fileExists, addImageInfo, volatility)
      ensures criticalErrorOccurred ==
                (old(criticalErrorOccurred) || !fileExists || CoreErrorCaught(fileExists, addImageInfo, volatility))
      ensures calls == old(calls) + AddImageCalls(imageFilePath, fileExists, addImageInfo)
      ensures thrown == Escapes(fileExists, addImageInfo, volatility)
    {
      dataSourcesAfter, messagesAfter, thrown := dataSources, errorMessages, false;
      calls := calls + [AcquireExclusiveLock];
      if !fileExists {
        messagesAfter := messagesAfter + [Message(Critical, MissingImageFile, imageFilePath)];
        criticalErrorOccurred := true;
        return;
      }
      calls := calls + [AddImageInfo(imageFilePath)];
      var caught := false;
      match addImageInfo {
        case StepCoreError => caught := true;
        case StepUnchecked => thrown := true;
        case StepOk =>
          dataSourcesAfter := dataSourcesAfter + [Image(imageFilePath)];
          calls := calls + [RunVolatility(Image(imageFilePath))];
          match volatility {
            case StepCoreError => caught := true;
            case StepUnchecked => thrown := true;
            case StepOk =>
          }
      }
      if caught {
        messagesAfter := messagesAfter + [Message(Critical, MemoryImageError, imageFilePath)];
        criticalErrorOccurred := true;
      }
      // the finally block runs on every path out of the try
      calls := calls + [ReleaseExclusiveLock];
    }

    /**
     * run: progress, addImageToCase, then, unless an unchecked exception left
     * addImageToCase, progress 100, the classification, the callback and the
     * reset of the flag.
     */
    method Run(fileExists: bool, addImageInfo: StepOutcome, volatility: StepOutcome) returns (status: Status)
      modifies this`criticalErrorOccurred, this`calls
      ensures var r := MemoryRun(imageFilePath, fileExists, addImageInfo, volatility, old(criticalErrorOccurred));
              calls == old(calls) + r.calls && status == r.status && criticalErrorOccurred == r.criticalAfter
    {
      ghost var calls0, criticalBefore := calls, criticalErrorOccurred;
      calls := calls + [SetIndeterminate(true), SetProgress(0)];
      var newDataSources, errorMessages, thrown := AddImageToCase(fileExists, addImageInfo, volatility, [], []);
      ghost var middle := [SetIndeterminate(true), SetProgress(0)] + AddImageCalls(imageFilePath, fileExists, addImageInfo);
      assert calls == calls0 + middle;
      if thrown {
        status := Aborted;
        return;
      }
      assert newDataSources == AddImageDataSources(imageFilePath, fileExists, addImageInfo);
      assert errorMessages == AddImageMessages(imageFilePath, fileExists, addImageInfo, volatility);
      status := FinishRun(newDataSources, errorMessages);
      MemoryRunParts(imageFilePath, fileExists, addImageInfo, volatility, criticalBefore, calls0, middle);
    }

    /** Lines 90-105: progress 100, the classification, the callback and the reset of the flag. */
    method FinishRun(newDataSources: seq<Content>, errorMessages: seq<Message>) returns (status: Status)
      modifies this`criticalErrorOccurred, this`calls
      ensures var result := Classify(old(criticalErrorOccurred), errorMessages);
              && calls == old(calls) + [SetProgress(100), Done(result, errorMessages, newDataSources)]
              && status == Completed(result, errorMessages, newDataSources)
              && !criticalErrorOccurred
    {
      calls := calls + [SetProgress(100)];
      var result := Classify(criticalErrorOccurred, errorMessages);
      calls := calls + [Done(result, errorMessages, newDataSources)];
      criticalErrorOccurred := false;
      status := Completed(result, errorMessages, newDataSources);
    }
  }

  /** MemoryRun of a run that completes, taken apart: the calls before, inside and after addImageToCase. */
  lemma MemoryRunParts(path: Path, fileExists: bool, addImageInfo: StepOutcome, volatility: StepOutcome,
                       criticalBefore: bool, calls0: seq<Call>, middle: seq<Call>)
    requires !Escapes(fileExists, addImageInfo, volatility)
    requires middle == [SetIndeterminate(true), SetProgress(0)] + AddImageCalls(path, fileExists, addImageInfo)
    ensures var r := MemoryRun(path, fileExists, addImageInfo, volatility, criticalBefore);
            var ds := AddImageDataSources(path, fileExists, addImageInfo);
            var ms := AddImageMessages(path, fileExists, addImageInfo, volatility);
            var result := Classify(criticalBefore || !fileExists || CoreErrorCaught(fileExists, addImageInfo, volatility), ms);
            && calls0 + middle + [SetProgress(100), Done(result, ms, ds)] == calls0 + r.calls
            && r.status == Completed(result, ms, ds) && !r.criticalAfter
  {
  }

  /**
   * Lines 127-155: the lock is acquired once, as the first call of
   * addImageToCase, but released (once, as the last call of addImageToCase)
   * only when the image file exists: the early return for a missing file is
   * outside the try whose finally releases it. An unchecked exception still
   * passes the finally, so an aborted run ends with the release.
   */
  lemma MemoryLockAsymmetry(path: Path, fileExists: bool, addImageInfo: StepOutcome, volatility: StepOutcome,
                            criticalBefore: bool)
    ensures var r := MemoryRun(path, fileExists, addImageInfo, volatility, criticalBefore);
            var k := 2 + |AddImageCalls(path, fileExists, addImageInfo)|;
            && k <= |r.calls|
            && r.calls[2] == AcquireExclusiveLock
            && CountWhere(r.calls, IsAcquire) == 1
            && CountWhere(r.calls, IsRelease) == (if fileExists then 1 else 0)
            && (fileExists ==> r.calls[k - 1] == ReleaseExclusiveLock)
            && (r.status.Aborted? ==> fileExists && k == |r.calls| && r.calls[|r.calls| - 1] == ReleaseExclusiveLock)
  {
    var r := MemoryRun(path, fileExists, addImageInfo, volatility, criticalBefore);
    var k := 2 + |AddImageCalls(path, fileExists, addImageInfo)|;
    CountWhereOne(r.calls, IsAcquire, 2);
    if fileExists {
      CountWhereOne(r.calls, IsRelease, k - 1);
    } else {
      CountWhereNone(r.calls, IsRelease);
    }
  }

  /**
   * Lines 129-135: a missing image file yields exactly one critical message,
   * no data source and no call of addImageInfo or Volatility, and the result is
   * CRITICAL_ERRORS.
   */
  lemma MemoryMissingFile(path: Path, addImageInfo: StepOutcome, volatility: StepOutcome, criticalBefore: bool)
    ensures var r := MemoryRun(path, false, addImageInfo, volatility, criticalBefore);
            && r.status == Completed(CriticalErrors, [Message(Critical, MissingImageFile, path)], [])
            && AddImageInfo(path) !in r.calls
            && RunVolatility(Image(path)) !in r.calls
  {
  }

  /**
   * Lines 137-155, addImageInfo: for an existing file it is called once, right
   * after the lock. When it returns, the image is appended and Volatility is
   * run on it right after. A TskCoreException gives no data source, one
   * critical message and no Volatility; an unchecked exception gives no
   * Volatility and no callback.
   */
  lemma MemoryAddImageInfo(path: Path, addImageInfo: StepOutcome, volatility: StepOutcome, criticalBefore: bool)
    ensures var r := MemoryRun(path, true, addImageInfo, volatility, criticalBefore);
            && r.calls[3] == AddImageInfo(path)
            && (addImageInfo.StepOk? ==>
                  && r.calls[4] == RunVolatility(Image(path))
                  && (r.status.Completed? ==> r.status.dataSources == [Image(path)]))
            && (addImageInfo.StepCoreError? ==>
                  && r.status == Completed(CriticalErrors, [Message(Critical, MemoryImageError, path)], [])
                  && RunVolatility(Image(path)) !in r.calls)
            && (addImageInfo.StepUnchecked? ==>
                  && r.status == Aborted && r.criticalAfter == criticalBefore
                  && RunVolatility(Image(path)) !in r.calls)
  {
  }

  /**
   * Lines 147-152, the Volatility run on an added image: a TskCoreException is
   * caught like one of addImageInfo, so the image is still handed back, with
   * one critical message, and the result is CRITICAL_ERRORS; an unchecked
   * exception releases the lock and leaves run without calling the callback
   * and without resetting the flag.
   */
  lemma MemoryVolatility(path: Path, volatility: StepOutcome, criticalBefore: bool)
    ensures var r := MemoryRun(path, true, StepOk, volatility, criticalBefore);
            && (volatility.StepOk? ==>
                  r.status == Completed(Classify(criticalBefore, []), [], [Image(path)]))
            && (volatility.StepCoreError? ==>
                  r.status == Completed(CriticalErrors, [Message(Critical, MemoryImageError, path)], [Image(path)]))
            && (volatility.StepUnchecked? ==>
                  && r.status == Aborted && r.criticalAfter == criticalBefore
                  && r.calls == [SetIndeterminate(true), SetProgress(0), AcquireExclusiveLock, AddImageInfo(path),
                                 RunVolatility(Image(path)), ReleaseExclusiveLock])
  {
  }

  /**
   * Lines 87-89 and 143-144: a completed run hands back at most one data
   * source, the image, and it does so exactly when the file exists and
   * addImageInfo returns, whatever Volatility then does; a run is aborted
   * exactly when an unchecked exception escapes one of the two calls.
   */
  lemma MemoryAtMostOneDataSource(path: Path, fileExists: bool, addImageInfo: StepOutcome, volatility: StepOutcome,
                                  criticalBefore: bool)
    ensures var r := MemoryRun(path, fileExists, addImageInfo, volatility, criticalBefore);
            && (r.status.Aborted? <==> Escapes(fileExists, addImageInfo, volatility))
            && (r.status.Completed? ==>
                  && |r.status.dataSources| <= 1
                  && (r.status.dataSources == [Image(path)] <==> fileExists && addImageInfo.StepOk?)
                  && (r.status.dataSources == [] <==> !(fileExists && addImageInfo.StepOk?)))
  {
  }

  /**
   * Lines 96-105: a completed run is CRITICAL_ERRORS exactly when the flag was
   * set or a critical message was collected, that is, exactly when the flag
   * was set, the file is missing, or a TskCoreException was caught; every
   * message of this task is critical, so the result is never
   * NONCRITICAL_ERRORS; the flag is reset afterwards. An aborted run leaves
   * the flag as it was.
   */
  lemma MemoryResultTier(path: Path, fileExists: bool, addImageInfo: StepOutcome, volatility: StepOutcome,
                         criticalBefore: bool)
    ensures var r := MemoryRun(path, fileExists, addImageInfo, volatility, criticalBefore);
            r.status.Completed? ==>
              && (r.status.result == CriticalErrors <==> criticalBefore || HasCritical(r.status.errorMessages))
              && (r.status.result == CriticalErrors <==>
                    criticalBefore || !fileExists || CoreErrorCaught(fileExists, addImageInfo, volatility))
              && r.status.result != NonCriticalErrors
              && (r.status.result == NoErrors <==> !criticalBefore && r.status.errorMessages == [])
              && !r.criticalAfter
    ensures var r := MemoryRun(path, fileExists, addImageInfo, volatility, criticalBefore);
            r.status.Aborted? ==> r.criticalAfter == criticalBefore
  {
    var r := MemoryRun(path, fileExists, addImageInfo, volatility, criticalBefore);
    if r.status.Completed? && r.status.errorMessages != [] {
      assert r.status.errorMessages[0].severity == Critical;
    }
  }

  /**
   * Lines 85-91 and 104: progress is set indeterminate and to 0 before
   * addImageToCase and to 100 after it, and a completed run calls the
   * callback exactly once, last, with what run collected; addImageInfo and
   * Volatility fall strictly between. An aborted run never calls it.
   */
  lemma MemoryProgressOrder(path: Path, fileExists: bool, addImageInfo: StepOutcome, volatility: StepOutcome,
                            criticalBefore: bool)
    ensures var r := MemoryRun(path, fileExists, addImageInfo, volatility, criticalBefore);
            var n := |r.calls|;
            r.status.Completed? ==>
              && n >= 5
              && r.calls[0] == SetIndeterminate(true) && r.calls[1] == SetProgress(0)
              && r.calls[n - 2] == SetProgress(100)
              && r.calls[n - 1] == Done(r.status.result, r.status.errorMessages, r.status.dataSources)
              && CountWhere(r.calls, IsDone) == 1
              && (forall j :: 0 <= j < n && (r.calls[j].AddImageInfo? || r.calls[j].RunVolatility?) ==> 2 < j < n - 2)
    ensures var r := MemoryRun(path, fileExists, addImageInfo, volatility, criticalBefore);
            r.status.Aborted? ==> CountWhere(r.calls, IsDone) == 0
  {
    var r := MemoryRun(path, fileExists, addImageInfo, volatility, criticalBefore);
    if r.status.Completed? {
      CountWhereOne(r.calls, IsDone, |r.calls| - 1);
    } else {
      CountWhereNone(r.calls, IsDone);
    }
  }
}
