/**
 * Types shared by the data-source-processor tasks: the data sources a task hands
 * back, its error messages (a severity and a cause instead of formatted text),
 * the three-tier result of DataSourceProcessorCallback, and the calls a task
 * makes on the case database, the progress monitor and the callback.
 */
module IngestCommon {

  type Path = string

  datatype Option<T> = None | Some(value: T)

  /** A data source returned by the case database. */
  datatype Content =
    | Image(imagePath: Path)                              // an image committed by the add-image process
    | LocalFilesRoot(deviceId: string, files: seq<Path>)  // root directory of a local/logical files set

  datatype Severity = Critical | NonCritical

  /** Which error a message reports. */
  datatype Cause =
    | AddImageError       // the add-image run failed with a core error other than "no file system"
    | RevertError         // reverting the add-image process failed
    | DataReadError       // the add-image run reported a recoverable data error
    | ImageSizeMismatch   // the size verification of a committed image returned a non-empty string
    | CommitError         // the commit or the lookup of the committed image failed
    | LocalFilesError     // the fallback local/logical files data source could not be added
    | MissingImageFile    // the memory image file does not exist
    | MemoryImageError    // addImageInfo or the Volatility run threw a TskCoreException

  /** An error message: its severity, its cause and the image path or device id it names. */
  datatype Message = Message(severity: Severity, cause: Cause, subject: string)

  predicate HasCritical(messages: seq<Message>)
  {
    exists i :: 0 <= i < |messages| && messages[i].severity == Critical
  }

  lemma HasCriticalAppend(a: seq<Message>, b: seq<Message>)
    ensures HasCritical(a + b) == (HasCritical(a) || HasCritical(b))
  {
    if HasCritical(a + b) {
      var i :| 0 <= i < |a + b| && (a + b)[i].severity == Critical;
      if i >= |a| { assert b[i - |a|] == (a + b)[i]; }
    }
    if HasCritical(a) {
      var i :| 0 <= i < |a| && a[i].severity == Critical;
      assert (a + b)[i] == a[i];
    }
    if HasCritical(b) {
      var i :| 0 <= i < |b| && b[i].severity == Critical;
      assert (a + b)[|a| + i] == b[i];
    }
  }

  /** DataSourceProcessorCallback.DataSourceProcessorResult */
  datatype ProcessorResult = NoErrors | NonCriticalErrors | CriticalErrors

  /** The order of the three tiers: a higher rank is a worse result. */
  function Rank(r: ProcessorResult): nat
  {
    match r
    case NoErrors => 0
    case NonCriticalErrors => 1
    case CriticalErrors => 2
  }

  /**
   * The result both tasks compute before calling the callback: the critical flag
   * decides first, then whether any message was collected.
   */
  function Classify(criticalErrorOccurred: bool, errorMessages: seq<Message>): (r: ProcessorResult)
    ensures (r == CriticalErrors) == criticalErrorOccurred
    ensures (r == NonCriticalErrors) == (!criticalErrorOccurred && errorMessages != [])
    ensures (r == NoErrors) == (!criticalErrorOccurred && errorMessages == [])
  {
    if criticalErrorOccurred then CriticalErrors
    else if errorMessages != [] then NonCriticalErrors
    else NoErrors
  }

  /**
   * The tiers are a strict priority: appending messages or raising the critical
   * flag never yields a better result, and one critical error dominates any
   * number of non-critical ones.
   */
  lemma ClassifyNeverDowngrades(critical: bool, messages: seq<Message>, critical': bool, extra: seq<Message>)
    requires critical ==> critical'
    ensures Rank(Classify(critical, messages)) <= Rank(Classify(critical', messages + extra))
    ensures critical' ==> Classify(critical', messages + extra) == CriticalErrors
  {
  }

  /** How one call on the case database or on an external processor ends. */
  datatype StepOutcome =
    | StepOk          // the call returns normally
    | StepCoreError   // the call throws a TskCoreException
    | StepUnchecked   // the call throws an unchecked exception

  /** What the callback finally observes of one run. */
  datatype Status =
    | Completed(result: ProcessorResult, errorMessages: seq<Message>, dataSources: seq<Content>)
    | Aborted   // an unchecked exception left run() before the callback was called

  /** The calls a task makes on its collaborators, in the order it makes them. */
  datatype Call =
    | AcquireExclusiveLock
    | ReleaseExclusiveLock
    | SetIndeterminate(on: bool)
    | SetProgress(percent: int)
    | RunAddImage(path: Path)
    | RevertAddImage(path: Path)
    | CommitAddImage(path: Path)
    | AddLocalFilesDataSource(files: seq<Path>)
    | AddImageInfo(path: Path)
    | RunVolatility(dataSource: Content)
    | Done(result: ProcessorResult, errorMessages: seq<Message>, dataSources: seq<Content>)
  {
    /** A call of the add-image protocol on one image. */
    predicate IsAddImageStep()
    {
      RunAddImage? || RevertAddImage? || CommitAddImage?
    }
  }

  predicate IsAcquire(c: Call) { c.AcquireExclusiveLock? }
  predicate IsRelease(c: Call) { c.ReleaseExclusiveLock? }
  predicate IsDone(c: Call) { c.Done? }

  /** The number of calls in `calls` that satisfy `p`. */
  function CountWhere(calls: seq<Call>, p: Call -> bool): (n: nat)
    ensures n <= |calls|
    decreases |calls|
  {
    if calls == [] then 0
    else CountWhere(calls[..|calls| - 1], p) + (if p(calls[|calls| - 1]) then 1 else 0)
  }

  lemma {:induction false} CountWhereAppend(a: seq<Call>, b: seq<Call>, p: Call -> bool)
    ensures CountWhere(a + b, p) == CountWhere(a, p) + CountWhere(b, p)
    decreases |b|
  {
    if b == [] {
      assert a + b == a;
    } else {
      var b' := b[..|b| - 1];
      assert (a + b)[..|a + b| - 1] == a + b';
      CountWhereAppend(a, b', p);
    }
  }

  lemma {:induction false} CountWhereNone(calls: seq<Call>, p: Call -> bool)
    requires forall i :: 0 <= i < |calls| ==> !p(calls[i])
    ensures CountWhere(calls, p) == 0
    decreases |calls|
  {
    if calls != [] {
      CountWhereNone(calls[..|calls| - 1], p);
    }
  }

  /** A sequence in which exactly one call satisfies `p` counts one. */
  lemma CountWhereOne(calls: seq<Call>, p: Call -> bool, k: nat)
    requires k < |calls| && p(calls[k])
    requires forall j :: 0 <= j < |calls| && j != k ==> !p(calls[j])
    ensures CountWhere(calls, p) == 1
  {
    var before, after := calls[..k], calls[k + 1..];
    assert calls == before + [calls[k]] + after;
    CountWhereNone(before, p);
    CountWhereNone(after, p);
    CountWhereAppend(before, [calls[k]], p);
    CountWhereAppend(before + [calls[k]], after, p);
    assert [calls[k]][..0] == [];
  }
}
