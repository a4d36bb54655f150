/**
 * AddCellebriteAndroidImageTask: adds the image files of a Cellebrite UFED
 * output folder to a case database under one exclusive lock; files in which no
 * file system is found are added afterwards as one local/logical files data
 * source named by the device id.
 *
 * The case database and the add-image process are not modelled; what each of
 * their calls does for the i-th image file is read from an outcome oracle.
 */
module CellebriteImageTask {
  import opened IngestCommon

  /** How addImageProcess.run ends. */
  datatype RunOutcome =
    | RunOk
    | NoFileSystem       // TskCoreException whose message contains "Cannot determine file system type"
    | CoreFailure        // any other TskCoreException
    | DataFailure        // TskDataException
    | UncheckedFailure   // an unchecked exception, which no catch clause of addImageToCase handles

  /** How commit, getImageById and verifyImageSize end. */
  datatype CommitOutcome =
    | Committed(sizeMismatch: bool)   // the image was found; sizeMismatch: verifyImageSize returned a non-empty string
    | CommitFails
    | LookupFails

  /** What the case database does for one image file. */
  datatype AttemptOutcome = AttemptOutcome(run: RunOutcome, revertOk: bool, commit: CommitOutcome)

  /** One call of addImageToCase: the image file and what the case database did with it. */
  datatype Attempt = Attempt(path: Path, outcome: AttemptOutcome)

  /** Every TskCoreException from run leads to a revert. */
  predicate Reverts(o: AttemptOutcome) { o.run.NoFileSystem? || o.run.CoreFailure? }

  /** A successful run and a run with a data error both go on to commit. */
  predicate ReachesCommit(o: AttemptOutcome) { o.run.RunOk? || o.run.DataFailure? }

  predicate AddsImage(o: AttemptOutcome) { ReachesCommit(o) && o.commit.Committed? }

  predicate Defers(o: AttemptOutcome) { o.run.NoFileSystem? }

  predicate Throws(o: AttemptOutcome) { o.run.UncheckedFailure? }

  /** The outcomes on which addImageToCase sets criticalErrorOccurred. */
  predicate SetsCritical(o: AttemptOutcome)
  {
    o.run.CoreFailure? || (Reverts(o) && !o.revertOk) || (ReachesCommit(o) && !o.commit.Committed?)
  }

  /** The add-image protocol calls addImageToCase makes for one image file. */
  function AttemptCalls(a: Attempt): seq<Call>
  {
    [RunAddImage(a.path)]
    + (if Reverts(a.outcome) then [RevertAddImage(a.path)] else [])
    + (if ReachesCommit(a.outcome) then [CommitAddImage(a.path)] else [])
  }

  /**
   * Lines 182-238: addImageToCase calls run first, then revert exactly on a
   * TskCoreException and commit exactly on success or a TskDataException, all
   * on its own image file.
   */
  lemma AttemptCallsShape(a: Attempt)
    ensures var r := AttemptCalls(a);
            && 1 <= |r| <= 2 && r[0] == RunAddImage(a.path)
            && (forall i :: 0 <= i < |r| ==> r[i].IsAddImageStep() && r[i].path == a.path)
            && ((RevertAddImage(a.path) in r) == Reverts(a.outcome))
            && ((CommitAddImage(a.path) in r) == ReachesCommit(a.outcome))
  {
  }

  function AttemptImages(a: Attempt): seq<Content>
  {
    if AddsImage(a.outcome) then [Image(a.path)] else []
  }

  function AttemptDeferred(a: Attempt): seq<Path>
  {
    if Defers(a.outcome) then [a.path] else []
  }

  function RevertMessages(path: Path, revertOk: bool): seq<Message>
  {
    if revertOk then [] else [Message(Critical, RevertError, path)]
  }

  function CommitMessages(path: Path, commit: CommitOutcome): seq<Message>
  {
    match commit
    case Committed(mismatch) => if mismatch then [Message(NonCritical, ImageSizeMismatch, path)] else []
    case CommitFails => [Message(Critical, CommitError, path)]
    case LookupFails => [Message(Critical, CommitError, path)]
  }

  /** The messages addImageToCase appends for one image file. */
  function AttemptMessages(a: Attempt): seq<Message>
  {
    var p, o := a.path, a.outcome;
    match o.run
    case CoreFailure => [Message(Critical, AddImageError, p)] + RevertMessages(p, o.revertOk)
    case NoFileSystem => RevertMessages(p, o.revertOk)
    case DataFailure => [Message(NonCritical, DataReadError, p)] + CommitMessages(p, o.commit)
    case RunOk => CommitMessages(p, o.commit)
    case UncheckedFailure => []
  }

  /**
   * Lines 182-238: at most two messages per image file, all naming it; one of
   * them is critical exactly when addImageToCase sets the critical flag; a
   * clean success, and a deferral whose revert succeeds, add none.
   */
  lemma AttemptMessagesShape(a: Attempt)
    ensures var r := AttemptMessages(a);
            && |r| <= 2
            && (forall i :: 0 <= i < |r| ==> r[i].subject == a.path)
            && HasCritical(r) == SetsCritical(a.outcome)
            && (a.outcome.run.RunOk? && a.outcome.commit == Committed(false) ==> r == [])
            && (Defers(a.outcome) && a.outcome.revertOk ==> r == [])
  {
    var p, o := a.path, a.outcome;
    match o.run
    case CoreFailure =>
      assert ([Message(Critical, AddImageError, p)] + RevertMessages(p, o.revertOk))[0].severity == Critical;
      HasCriticalAppend([Message(Critical, AddImageError, p)], RevertMessages(p, o.revertOk));
    case NoFileSystem =>
      if !o.revertOk { assert RevertMessages(p, o.revertOk)[0].severity == Critical; }
    case DataFailure =>
      HasCriticalAppend([Message(NonCritical, DataReadError, p)], CommitMessages(p, o.commit));
      if !o.commit.Committed? { assert CommitMessages(p, o.commit)[0].severity == Critical; }
    case RunOk =>
      if !o.commit.Committed? { assert CommitMessages(p, o.commit)[0].severity == Critical; }
    case UncheckedFailure =>
  }

  /**
   * Lines 182-238, one image file at a time: what each outcome of the case
   * database leads to.
   */
  lemma AddImageToCaseRules(a: Attempt)
    ensures var o := a.outcome;
            Defers(o) ==>
              && AttemptDeferred(a) == [a.path] && AttemptImages(a) == []
              && (SetsCritical(o) <==> !o.revertOk)
    ensures var o := a.outcome;
            o.run.CoreFailure? ==>
              && AttemptDeferred(a) == [] && AttemptImages(a) == [] && SetsCritical(o)
              && AttemptMessages(a)[0] == Message(Critical, AddImageError, a.path)
    ensures var o := a.outcome;
            Reverts(o) ==>
              && RevertAddImage(a.path) in AttemptCalls(a) && CommitAddImage(a.path) !in AttemptCalls(a)
              && AttemptImages(a) == []
              && (!o.revertOk ==> SetsCritical(o) && Message(Critical, RevertError, a.path) in AttemptMessages(a))
    ensures var o := a.outcome;
            o.run.DataFailure? ==>
              && AttemptMessages(a)[0] == Message(NonCritical, DataReadError, a.path)
              && CommitAddImage(a.path) in AttemptCalls(a)
              && (SetsCritical(o) <==> !o.commit.Committed?)
    ensures var o := a.outcome;
            ReachesCommit(o) && o.commit.Committed? ==>
              && AttemptImages(a) == [Image(a.path)] && !SetsCritical(o)
              && (o.commit.sizeMismatch <==> Message(NonCritical, ImageSizeMismatch, a.path) in AttemptMessages(a))
    ensures var o := a.outcome;
            ReachesCommit(o) && !o.commit.Committed? ==>
              && AttemptImages(a) == [] && SetsCritical(o)
              && Message(Critical, CommitError, a.path) in AttemptMessages(a)
  {
  }

  /** Each image file contributes at most one data source or one deferred path. */
  lemma AttemptContributesAtMostOne(a: Attempt)
    ensures |AttemptImages(a)| + |AttemptDeferred(a)| <= 1
    ensures Throws(a.outcome) ==> AttemptImages(a) == [] && AttemptDeferred(a) == [] && AttemptMessages(a) == []
  {
  }

  /** The concatenation of `part` over the attempts, in order. */
  function Flatten<T>(attempts: seq<Attempt>, part: Attempt -> seq<T>): seq<T>
    decreases |attempts|
  {
    if attempts == [] then []
    else Flatten(attempts[..|attempts| - 1], part) + part(attempts[|attempts| - 1])
  }

  lemma FlattenSnoc<T>(attempts: seq<Attempt>, a: Attempt, part: Attempt -> seq<T>)
    ensures Flatten(attempts + [a], part) == Flatten(attempts, part) + part(a)
  {
    assert (attempts + [a])[..|attempts|] == attempts;
  }

  predicate AnyCritical(attempts: seq<Attempt>)
  {
    exists i :: 0 <= i < |attempts| && SetsCritical(attempts[i].outcome)
  }

  lemma AnyCriticalSnoc(attempts: seq<Attempt>, a: Attempt)
    ensures AnyCritical(attempts + [a]) == (AnyCritical(attempts) || SetsCritical(a.outcome))
  {
    assert forall j :: 0 <= j < |attempts| ==> (attempts + [a])[j] == attempts[j];
    assert (attempts + [a])[|attempts|] == a;
  }

  /** The first `n` image files paired with what the case database did for each. */
  function Attempts(paths: seq<Path>, outcome: nat -> AttemptOutcome, n: nat): (r: seq<Attempt>)
    requires n <= |paths|
    ensures |r| == n
    ensures forall i :: 0 <= i < n ==> r[i] == Attempt(paths[i], outcome(i))
  {
    seq(n, i requires 0 <= i < n => Attempt(paths[i], outcome(i)))
  }

  lemma AttemptsSnoc(paths: seq<Path>, outcome: nat -> AttemptOutcome, n: nat)
    requires n < |paths|
    ensures Attempts(paths, outcome, n + 1) == Attempts(paths, outcome, n) + [Attempt(paths[n], outcome(n))]
  {
  }

  /** The index of the first of the first `n` image files whose attempt throws, or `n` if none does. */
  function FirstThrow(outcome: nat -> AttemptOutcome, n: nat): (f: nat)
    ensures f <= n
    ensures forall j :: 0 <= j < f ==> !Throws(outcome(j))
    ensures f < n ==> Throws(outcome(f))
    decreases n
  {
    if n == 0 then 0
    else
      var f := FirstThrow(outcome, n - 1);
      if f < n - 1 then f
      else if Throws(outcome(n - 1)) then n - 1
      else n
  }

  /** The postcondition of FirstThrow determines its value. */
  lemma FirstThrowUnique(outcome: nat -> AttemptOutcome, n: nat, f: nat)
    requires f <= n
    requires forall j :: 0 <= j < f ==> !Throws(outcome(j))
    requires f < n ==> Throws(outcome(f))
    ensures FirstThrow(outcome, n) == f
  {
  }

  function Min(a: nat, b: nat): nat { if a <= b then a else b }

  /**
   * The number of image files for which the loop finds `cancelled` false, if no
   * attempt throws: none if the task was cancelled before run started, otherwise
   * those before the iteration at which the cancellation arrives.
   */
  function IterationsBeforeCancel(wasCancelled: bool, cancelArrival: nat, n: nat): (m: nat)
    ensures m <= n
  {
    if wasCancelled then 0 else Min(cancelArrival, n)
  }

  /** The number of image files for which addImageToCase is called. */
  function AttemptCount(paths: seq<Path>, outcome: nat -> AttemptOutcome, wasCancelled: bool, cancelArrival: nat): (n: nat)
    ensures n <= IterationsBeforeCancel(wasCancelled, cancelArrival, |paths|) <= |paths|
  {
    var limit := IterationsBeforeCancel(wasCancelled, cancelArrival, |paths|);
    var f := FirstThrow(outcome, limit);
    if f < limit then f + 1 else limit
  }

  /** What holds before and after each iteration of the locked loop of lines 96-100. */
  ghost predicate LoopInvariant(paths: seq<Path>, outcome: nat -> AttemptOutcome, wasCancelled: bool, cancelArrival: nat,
                                criticalBefore: bool, calls0: seq<Call>,
                                i: nat, attempted: nat, done: seq<Attempt>, thrown: bool, cancelled: bool,
                                dataSources: seq<Content>, deferred: seq<Path>, messages: seq<Message>,
                                critical: bool, calls: seq<Call>)
  {
    && CountInvariant(paths, outcome, wasCancelled, cancelArrival, i, attempted, thrown, cancelled)
    && done == Attempts(paths, outcome, attempted)
    && dataSources == Flatten(done, AttemptImages)
    && deferred == Flatten(done, AttemptDeferred)
    && messages == Flatten(done, AttemptMessages)
    && critical == (criticalBefore || AnyCritical(done))
    && calls == calls0 + [AcquireExclusiveLock, SetIndeterminate(true)] + Flatten(done, AttemptCalls)
  }

  /** The part of LoopInvariant about how many image files have been attempted. */
  ghost predicate CountInvariant(paths: seq<Path>, outcome: nat -> AttemptOutcome, wasCancelled: bool, cancelArrival: nat,
                                 i: nat, attempted: nat, thrown: bool, cancelled: bool)
  {
    && attempted <= IterationsBeforeCancel(wasCancelled, cancelArrival, i) && i <= |paths|
    && cancelled == (wasCancelled || cancelArrival < i)
    && (!thrown ==> attempted == IterationsBeforeCancel(wasCancelled, cancelArrival, i))
    && (thrown ==> attempted > 0 && Throws(outcome(attempted - 1)) && !cancelled)
    && (forall j :: 0 <= j < attempted - (if thrown then 1 else 0) ==> !Throws(outcome(j)))
  }

  /** An attempt of the i-th image file, made because `cancelled` was false, keeps the loop invariant. */
  lemma AttemptKeepsInvariant(paths: seq<Path>, outcome: nat -> AttemptOutcome, wasCancelled: bool, cancelArrival: nat,
                              criticalBefore: bool, calls0: seq<Call>, i: nat, attempted: nat, done: seq<Attempt>,
                              calls: seq<Call>, critical: bool,
                              dataSources: seq<Content>, deferred: seq<Path>, messages: seq<Message>)
    requires i < |paths| && !(wasCancelled || cancelArrival <= i)
    requires LoopInvariant(paths, outcome, wasCancelled, cancelArrival, criticalBefore, calls0,
                           i, attempted, done, false, wasCancelled || cancelArrival < i,
                           dataSources, deferred, messages, critical, calls)
    ensures var a := Attempt(paths[i], outcome(i));
            LoopInvariant(paths, outcome, wasCancelled, cancelArrival, criticalBefore, calls0,
                          i + 1, attempted + 1, done + [a], Throws(a.outcome), false,
                          dataSources + AttemptImages(a), deferred + AttemptDeferred(a),
                          messages + AttemptMessages(a), critical || SetsCritical(a.outcome),
                          calls + AttemptCalls(a))
  {
    var a := Attempt(paths[i], outcome(i));
    assert attempted == i;
    AttemptsSnoc(paths, outcome, attempted);
    FlattenSnoc(done, a, AttemptImages);
    FlattenSnoc(done, a, AttemptDeferred);
    FlattenSnoc(done, a, AttemptMessages);
    FlattenSnoc(done, a, AttemptCalls);
    AnyCriticalSnoc(done, a);
  }

  /** At the exit of the locked loop, the loop has attempted exactly AttemptCount image files. */
  lemma LoopExitCount(paths: seq<Path>, outcome: nat -> AttemptOutcome, wasCancelled: bool, cancelArrival: nat,
                      i: nat, attempted: nat, thrown: bool)
    requires !(i < |paths| && !thrown)
    requires CountInvariant(paths, outcome, wasCancelled, cancelArrival, i, attempted, thrown, wasCancelled || cancelArrival < i)
    ensures attempted == AttemptCount(paths, outcome, wasCancelled, cancelArrival)
    ensures thrown == (attempted > 0 && Throws(outcome(attempted - 1)))
    ensures (wasCancelled || cancelArrival < i) == (wasCancelled || (!thrown && cancelArrival < |paths|))
  {
    var limit := IterationsBeforeCancel(wasCancelled, cancelArrival, |paths|);
    if thrown {
      FirstThrowUnique(outcome, limit, attempted - 1);
    } else {
      FirstThrowUnique(outcome, limit, attempted);
    }
  }

  /** The loop invariant at the exit of the locked loop, followed by the release, gives Locked. */
  lemma LoopExit(paths: seq<Path>, outcome: nat -> AttemptOutcome, wasCancelled: bool, cancelArrival: nat,
                 criticalBefore: bool, calls0: seq<Call>,
                 i: nat, attempted: nat, done: seq<Attempt>, thrown: bool, cancelled: bool,
                 dataSources: seq<Content>, deferred: seq<Path>, messages: seq<Message>,
                 critical: bool, calls: seq<Call>)
    requires !(i < |paths| && !thrown)
    requires LoopInvariant(paths, outcome, wasCancelled, cancelArrival, criticalBefore, calls0,
                           i, attempted, done, thrown, cancelled, dataSources, deferred, messages, critical, calls)
    ensures var l := Locked(paths, outcome, wasCancelled, cancelArrival, criticalBefore);
            && thrown == l.thrown && dataSources == l.dataSources && deferred == l.deferred
            && messages == l.messages && critical == l.critical
            && calls + [ReleaseExclusiveLock] == calls0 + l.calls && cancelled == l.cancelled
  {
    LoopExitCount(paths, outcome, wasCancelled, cancelArrival, i, attempted, thrown);
  }

  /** What the locked loop of lines 93-103 leaves behind: its calls, the three lists and the two flags. */
  datatype LockedRecord = LockedRecord(calls: seq<Call>, dataSources: seq<Content>, deferred: seq<Path>,
                                       messages: seq<Message>, critical: bool, thrown: bool, cancelled: bool)

  /**
   * The effect of the locked loop, stated from the per-file parts above.
   * `cancelArrival` is the iteration before which another thread's cancelTask
   * takes effect (equal to the number of files: before the fallback check;
   * larger: never).
   */
  function Locked(paths: seq<Path>, outcome: nat -> AttemptOutcome, wasCancelled: bool, cancelArrival: nat,
                  criticalBefore: bool): LockedRecord
  {
    var n := AttemptCount(paths, outcome, wasCancelled, cancelArrival);
    var attempts := Attempts(paths, outcome, n);
    var thrown := n > 0 && Throws(outcome(n - 1));
    LockedRecord([AcquireExclusiveLock, SetIndeterminate(true)] + Flatten(attempts, AttemptCalls) + [ReleaseExclusiveLock],
                 Flatten(attempts, AttemptImages), Flatten(attempts, AttemptDeferred), Flatten(attempts, AttemptMessages),
                 criticalBefore || AnyCritical(attempts), thrown,
                 wasCancelled || (!thrown && cancelArrival < |paths|))
  }

  /** Everything one call of run does: its calls, what the callback sees, and the two flags afterwards. */
  datatype RunRecord = RunRecord(calls: seq<Call>, status: Status, criticalAfter: bool, cancelledAfter: bool)

  /** The effect of run: the locked loop, then (unless it threw) the steps after it. */
  function RunEffects(deviceId: string, paths: seq<Path>, outcome: nat -> AttemptOutcome, localFilesOk: bool,
                      wasCancelled: bool, cancelArrival: nat, criticalBefore: bool): RunRecord
  {
    AfterLock(deviceId, |paths|, cancelArrival, localFilesOk, Locked(paths, outcome, wasCancelled, cancelArrival, criticalBefore))
  }

  /**
   * Lines 104-143, from what the locked loop `l` left: an exception ends run;
   * otherwise a cancellation arriving after the last iteration is seen by the
   * fallback check, and Finish follows.
   */
  function AfterLock(deviceId: string, fileCount: nat, cancelArrival: nat, localFilesOk: bool, l: LockedRecord): RunRecord
  {
    if l.thrown then
      RunRecord(l.calls, Aborted, l.critical, l.cancelled)
    else
      var cancelled := l.cancelled || cancelArrival == fileCount;
      var fin := Finish(deviceId, l.dataSources, l.deferred, l.messages, l.critical, cancelled, localFilesOk);
      RunRecord(l.calls + fin.calls, fin.status, false, cancelled)
  }

  datatype FinishRecord = FinishRecord(calls: seq<Call>, status: Status)

  /**
   * Lines 110-142, from the lists and flags the locked loop leaves: the fallback
   * local/logical files data source for the deferred files, progress 100, the
   * classification and the callback.
   */
  function Finish(deviceId: string, dataSources: seq<Content>, deferred: seq<Path>, messages: seq<Message>,
                  critical: bool, cancelled: bool, localFilesOk: bool): FinishRecord
  {
    var fallback := !cancelled && deferred != [];
    var dataSources' := dataSources + (if fallback && localFilesOk then [LocalFilesRoot(deviceId, deferred)] else []);
    var messages' := messages + (if fallback && !localFilesOk then [Message(Critical, LocalFilesError, deviceId)] else []);
    var result := Classify(critical || (fallback && !localFilesOk), messages');
    FinishRecord((if fallback then [AddLocalFilesDataSource(deferred)] else [])
                   + [SetProgress(0)] + [SetProgress(100)] + [Done(result, messages', dataSources')],
                 Completed(result, messages', dataSources'))
  }

  class AddCellebriteAndroidImageTask {
    const deviceId: string
    const imageFilePaths: seq<Path>
    var criticalErrorOccurred: bool
    var cancelled: bool
    /** The calls made so far on the case database, the progress monitor and the callback. */
    var calls: seq<Call>

    constructor (deviceId: string, imageFilePaths: seq<Path>)
      ensures this.deviceId == deviceId && this.imageFilePaths == imageFilePaths
      ensures !criticalErrorOccurred && !cancelled && calls == []
    {
      this.deviceId := deviceId;
      this.imageFilePaths := imageFilePaths;
      criticalErrorOccurred := false;
      cancelled := false;
      calls := [];
    }

    /** cancelTask only raises the flag; the loop and the fallback step read it. */
    method CancelTask()
      modifies this`cancelled
      ensures cancelled
    {
      cancelled := true;
    }

    /** addImageToCase: one add-image attempt, appending to the caller's three lists. */
    method AddImageToCase(imageFilePath: Path, o: AttemptOutcome,
                          newDataSources: seq<Content>, localFileDataSourcePaths: seq<Path>, errorMessages: seq<Message>)
      returns (dataSourcesAfter: seq<Content>, deferredAfter: seq<Path>, messagesAfter: seq<Message>, thrown: bool)
      modifies this`criticalErrorOccurred, this`calls
      ensures dataSourcesAfter == newDataSources + AttemptImages(Attempt(imageFilePath, o))
      ensures deferredAfter == localFileDataSourcePaths + AttemptDeferred(Attempt(imageFilePath, o))
      ensures messagesAfter == errorMessages + AttemptMessages(Attempt(imageFilePath, o))
      ensures criticalErrorOccurred == (old(criticalErrorOccurred) || SetsCritical(o))
      ensures calls == old(calls) + AttemptCalls(Attempt(imageFilePath, o))
      ensures thrown == Throws(o)
    {
      dataSourcesAfter, deferredAfter, messagesAfter, thrown := newDataSources, localFileDataSourcePaths, errorMessages, false;
      calls := calls + [RunAddImage(imageFilePath)];
      match o.run {
        case UncheckedFailure =>
          thrown := true;
          return;
        case NoFileSystem =>
          deferredAfter := deferredAfter + [imageFilePath];
          RevertAfterFailedRun(imageFilePath, o.revertOk);
          messagesAfter := messagesAfter + RevertMessages(imageFilePath, o.revertOk);
          return;
        case CoreFailure =>
          messagesAfter := messagesAfter + [Message(Critical, AddImageError, imageFilePath)];
          criticalErrorOccurred := true;
          RevertAfterFailedRun(imageFilePath, o.revertOk);
          messagesAfter := messagesAfter + RevertMessages(imageFilePath, o.revertOk);
          return;
        case DataFailure =>
          messagesAfter := messagesAfter + [Message(NonCritical, DataReadError, imageFilePath)];
        case RunOk =>
      }
      calls := calls + [CommitAddImage(imageFilePath)];
      match o.commit {
        case Committed(mismatch) =>
          dataSourcesAfter := dataSourcesAfter + [Image(imageFilePath)];
          if mismatch {
            messagesAfter := messagesAfter + [Message(NonCritical, ImageSizeMismatch, imageFilePath)];
          }
        case CommitFails =>
          messagesAfter := messagesAfter + [Message(Critical, CommitError, imageFilePath)];
          criticalErrorOccurred := true;
        case LookupFails =>
          messagesAfter := messagesAfter + [Message(Critical, CommitError, imageFilePath)];
          criticalErrorOccurred := true;
      }
    }

    /** The revert that follows every TskCoreException from run; its own failure is critical. */
    method RevertAfterFailedRun(imageFilePath: Path, revertOk: bool)
      modifies this`criticalErrorOccurred, this`calls
      ensures calls == old(calls) + [RevertAddImage(imageFilePath)]
      ensures criticalErrorOccurred == (old(criticalErrorOccurred) || !revertOk)
    {
      calls := calls + [RevertAddImage(imageFilePath)];
      if !revertOk {
        criticalErrorOccurred := true;
      }
    }

    /**
     * Lines 93-103: under the exclusive lock, addImageToCase for each image file
     * while `cancelled` is false; an exception thrown by an iteration leaves the
     * loop, and the lock is released in either case.
     */
    method AddImagesUnderLock(outcome: nat -> AttemptOutcome, cancelArrival: nat)
      returns (newDataSources: seq<Content>, localFileDataSourcePaths: seq<Path>, errorMessages: seq<Message>, thrown: bool)
      modifies this`criticalErrorOccurred, this`cancelled, this`calls
      ensures var l := Locked(imageFilePaths, outcome, old(cancelled), cancelArrival, old(criticalErrorOccurred));
              && thrown == l.thrown && newDataSources == l.dataSources && localFileDataSourcePaths == l.deferred
              && errorMessages == l.messages && criticalErrorOccurred == l.critical
              && calls == old(calls) + l.calls && cancelled == l.cancelled
    {
      ghost var wasCancelled, criticalBefore, calls0 := cancelled, criticalErrorOccurred, calls;
      newDataSources, localFileDataSourcePaths, errorMessages := [], [], [];
      calls := calls + [AcquireExclusiveLock];
      calls := calls + [SetIndeterminate(true)];
      var i := 0;
      thrown := false;
      ghost var attempted := 0;
      ghost var done: seq<Attempt> := [];
      while i < |imageFilePaths| && !thrown
        invariant i <= |imageFilePaths|
        invariant LoopInvariant(imageFilePaths, outcome, wasCancelled, cancelArrival, criticalBefore, calls0,
                                i, attempted, done, thrown, cancelled,
                                newDataSources, localFileDataSourcePaths, errorMessages, criticalErrorOccurred, calls)
      {
        newDataSources, localFileDataSourcePaths, errorMessages, thrown, attempted, done :=
          LoopIteration(outcome, cancelArrival, i, newDataSources, localFileDataSourcePaths, errorMessages,
                        wasCancelled, criticalBefore, calls0, attempted, done);
        i := i + 1;
      }
      LoopExit(imageFilePaths, outcome, wasCancelled, cancelArrival, criticalBefore, calls0,
               i, attempted, done, thrown, cancelled,
               newDataSources, localFileDataSourcePaths, errorMessages, criticalErrorOccurred, calls);
      // the finally block of lines 101-103
      calls := calls + [ReleaseExclusiveLock];
    }

    /** One iteration of the loop of lines 96-100, with the arrival of a cancellation before it. */
    method LoopIteration(outcome: nat -> AttemptOutcome, cancelArrival: nat, i: nat,
                         newDataSources: seq<Content>, localFileDataSourcePaths: seq<Path>, errorMessages: seq<Message>,
                         ghost wasCancelled: bool, ghost criticalBefore: bool, ghost calls0: seq<Call>,
                         ghost attempted: nat, ghost done: seq<Attempt>)
      returns (dataSourcesAfter: seq<Content>, deferredAfter: seq<Path>, messagesAfter: seq<Message>, thrown: bool,
               ghost attemptedAfter: nat, ghost doneAfter: seq<Attempt>)
      requires i < |imageFilePaths|
      requires LoopInvariant(imageFilePaths, outcome, wasCancelled, cancelArrival, criticalBefore, calls0,
                             i, attempted, done, false, cancelled,
                             newDataSources, localFileDataSourcePaths, errorMessages, criticalErrorOccurred, calls)
      modifies this`criticalErrorOccurred, this`cancelled, this`calls
      ensures LoopInvariant(imageFilePaths, outcome, wasCancelled, cancelArrival, criticalBefore, calls0,
                            i + 1, attemptedAfter, doneAfter, thrown, cancelled,
                            dataSourcesAfter, deferredAfter, messagesAfter, criticalErrorOccurred, calls)
    {
      dataSourcesAfter, deferredAfter, messagesAfter, thrown := newDataSources, localFileDataSourcePaths, errorMessages, false;
      attemptedAfter, doneAfter := attempted, done;
      if i == cancelArrival {
        CancelTask();
      }
      if !cancelled {
        ghost var a := Attempt(imageFilePaths[i], outcome(i));
        dataSourcesAfter, deferredAfter, messagesAfter, thrown :=
          AddImageToCase(imageFilePaths[i], outcome(i), newDataSources, localFileDataSourcePaths, errorMessages);
        AttemptKeepsInvariant(imageFilePaths, outcome, wasCancelled, cancelArrival, criticalBefore, calls0,
                              i, attempted, done, old(calls), old(criticalErrorOccurred),
                              newDataSources, localFileDataSourcePaths, errorMessages);
        attemptedAfter, doneAfter := attempted + 1, done + [a];
      }
    }

    /**
     * run: the locked loop, the local/logical files fallback for the deferred
     * files, the classification, the callback, and the reset of the flag.
     */
    method Run(outcome: nat -> AttemptOutcome, localFilesOk: bool, cancelArrival: nat) returns (status: Status)
      modifies this`criticalErrorOccurred, this`cancelled, this`calls
      ensures var r := RunEffects(deviceId, imageFilePaths, outcome, localFilesOk,
                                  old(cancelled), cancelArrival, old(criticalErrorOccurred));
              calls == old(calls) + r.calls && status == r.status
              && criticalErrorOccurred == r.criticalAfter && cancelled == r.cancelledAfter
    {
      ghost var l := Locked(imageFilePaths, outcome, cancelled, cancelArrival, criticalErrorOccurred);
      ghost var calls0 := calls;
      var newDataSources, localFileDataSourcePaths, errorMessages, thrown := AddImagesUnderLock(outcome, cancelArrival);
      status := AfterLoop(newDataSources, localFileDataSourcePaths, errorMessages, thrown, localFilesOk, cancelArrival,
                          l, calls0);
    }

    /**
     * Lines 104-143, what run does once the locked loop is over: an exception
     * from the loop propagates; otherwise a cancellation may still arrive, and
     * then come the fallback, the classification and the callback.
     */
    method AfterLoop(newDataSources: seq<Content>, localFileDataSourcePaths: seq<Path>, errorMessages: seq<Message>,
                     thrown: bool, localFilesOk: bool, cancelArrival: nat, ghost l: LockedRecord, ghost calls0: seq<Call>)
      returns (status: Status)
      requires thrown == l.thrown && newDataSources == l.dataSources && localFileDataSourcePaths == l.deferred
      requires errorMessages == l.messages && criticalErrorOccurred == l.critical
      requires calls == calls0 + l.calls && cancelled == l.cancelled
      modifies this`criticalErrorOccurred, this`cancelled, this`calls
      ensures var r := AfterLock(deviceId, |imageFilePaths|, cancelArrival, localFilesOk, l);
              calls == calls0 + r.calls && status == r.status
              && criticalErrorOccurred == r.criticalAfter && cancelled == r.cancelledAfter
    {
      if thrown {
        status := Aborted;
        return;        // the exception propagates out of run
      }
      if cancelArrival == |imageFilePaths| {
        CancelTask();
      }
      ghost var calls1 := calls;
      status := FinishRun(newDataSources, localFileDataSourcePaths, errorMessages, localFilesOk);
      ghost var fin := Finish(deviceId, l.dataSources, l.deferred, l.messages, l.critical, cancelled, localFilesOk);
      assert calls == calls0 + (l.calls + fin.calls);
    }

    /** Lines 110-143: the fallback, progress 100, the classification, the callback and the reset of the flag. */
    method FinishRun(newDataSources: seq<Content>, localFileDataSourcePaths: seq<Path>, errorMessages: seq<Message>,
                     localFilesOk: bool) returns (status: Status)
      modifies this`criticalErrorOccurred, this`calls
      ensures var fin := Finish(deviceId, newDataSources, localFileDataSourcePaths, errorMessages,
                                old(criticalErrorOccurred), cancelled, localFilesOk);
              calls == old(calls) + fin.calls && status == fin.status && !criticalErrorOccurred
    {
      var dataSources, messages := newDataSources, errorMessages;
      ghost var calls1 := calls;
      if !cancelled && |localFileDataSourcePaths| > 0 {
        calls := calls + [AddLocalFilesDataSource(localFileDataSourcePaths)];
        if localFilesOk {
          dataSources := dataSources + [LocalFilesRoot(deviceId, localFileDataSourcePaths)];
        } else {
          messages := messages + [Message(Critical, LocalFilesError, deviceId)];
          criticalErrorOccurred := true;
        }
      }
      calls := calls + [SetProgress(0)];
      calls := calls + [SetProgress(100)];
      var result := Classify(criticalErrorOccurred, messages);
      calls := calls + [Done(result, messages, dataSources)];
      criticalErrorOccurred := false;
      status := Completed(result, messages, dataSources);
      ghost var fin := Finish(deviceId, newDataSources, localFileDataSourcePaths, errorMessages,
                              old(criticalErrorOccurred), cancelled, localFilesOk);
      assert status == fin.status;
      assert calls[|calls1|..] == fin.calls;
    }
  }

  // ---------------------------------------------------------------------------
  // Properties of run
  // ---------------------------------------------------------------------------

  /** The paths handed to addImageProcess.run, in the order of the calls. */
  function RunPaths(calls: seq<Call>): (r: seq<Path>)
    ensures |r| <= |calls|
    decreases |calls|
  {
    if calls == [] then []
    else
      var last := calls[|calls| - 1];
      RunPaths(calls[..|calls| - 1]) + (if last.RunAddImage? then [last.path] else [])
  }

  lemma {:induction false} RunPathsAppend(a: seq<Call>, b: seq<Call>)
    ensures RunPaths(a + b) == RunPaths(a) + RunPaths(b)
    decreases |b|
  {
    if b == [] {
      assert a + b == a;
    } else {
      assert (a + b)[..|a + b| - 1] == a + b[..|b| - 1];
      RunPathsAppend(a, b[..|b| - 1]);
    }
  }

  lemma RunPathsNone(calls: seq<Call>)
    requires forall j :: 0 <= j < |calls| ==> !calls[j].RunAddImage?
    ensures RunPaths(calls) == []
    decreases |calls|
  {
    if calls != [] {
      RunPathsNone(calls[..|calls| - 1]);
    }
  }

  /** One attempt calls run once, on its own path. */
  lemma AttemptRunPaths(a: Attempt)
    ensures RunPaths(AttemptCalls(a)) == [a.path]
  {
    var r := AttemptCalls(a);
    RunPathsAppend([r[0]], r[1..]);
    assert [r[0]] + r[1..] == r;
    assert RunPaths([r[0]]) == [a.path] by {
      assert [r[0]][..0] == [];
    }
    if |r| == 2 {
      assert r[1..] == [r[1]] && [r[1]][..0] == [];
    }
  }

  /** The calls of the attempts are all add-image steps. */
  lemma {:induction false} FlattenCallsAreSteps(attempts: seq<Attempt>)
    ensures forall j :: 0 <= j < |Flatten(attempts, AttemptCalls)| ==> Flatten(attempts, AttemptCalls)[j].IsAddImageStep()
    decreases |attempts|
  {
    if attempts != [] {
      var init, a := attempts[..|attempts| - 1], attempts[|attempts| - 1];
      FlattenCallsAreSteps(init);
      var f0 := Flatten(init, AttemptCalls);
      var f := f0 + AttemptCalls(a);
      assert Flatten(attempts, AttemptCalls) == f;
      forall j | 0 <= j < |f|
        ensures f[j].IsAddImageStep()
      {
        if j >= |f0| {
          var c := AttemptCalls(a);
          assert f[j] == c[j - |f0|];
          assert c[j - |f0|].IsAddImageStep();
        } else {
          assert f[j] == f0[j];
          assert f0[j].IsAddImageStep();
        }
      }
    }
  }

  /** The paths of the attempts, in order. */
  function PathsOf(attempts: seq<Attempt>): (r: seq<Path>)
    ensures |r| == |attempts|
    decreases |attempts|
  {
    if attempts == [] then [] else PathsOf(attempts[..|attempts| - 1]) + [attempts[|attempts| - 1].path]
  }

  /** The calls of the attempts run the attempts' paths, in order. */
  lemma {:induction false} FlattenRunPaths(attempts: seq<Attempt>)
    ensures RunPaths(Flatten(attempts, AttemptCalls)) == PathsOf(attempts)
    decreases |attempts|
  {
    if attempts != [] {
      var init, a := attempts[..|attempts| - 1], attempts[|attempts| - 1];
      FlattenRunPaths(init);
      RunPathsAppend(Flatten(init, AttemptCalls), AttemptCalls(a));
      AttemptRunPaths(a);
    }
  }

  lemma {:induction false} PathsOfAttempts(paths: seq<Path>, outcome: nat -> AttemptOutcome, n: nat)
    requires n <= |paths|
    ensures PathsOf(Attempts(paths, outcome, n)) == paths[..n]
    decreases n
  {
    if n > 0 {
      PathsOfAttempts(paths, outcome, n - 1);
      AttemptsSnoc(paths, outcome, n - 1);
      assert Attempts(paths, outcome, n)[..n - 1] == Attempts(paths, outcome, n - 1);
      assert paths[..n] == paths[..n - 1] + [paths[n - 1]];
    }
  }

  /** The loop runs the first AttemptCount paths, in input order. */
  lemma AttemptedPaths(paths: seq<Path>, outcome: nat -> AttemptOutcome, n: nat)
    requires n <= |paths|
    ensures RunPaths(Flatten(Attempts(paths, outcome, n), AttemptCalls)) == paths[..n]
  {
    FlattenRunPaths(Attempts(paths, outcome, n));
    PathsOfAttempts(paths, outcome, n);
  }

  /** What the steps after the locked loop call: no lock and no add-image step, and the callback last. */
  lemma FinishFacts(deviceId: string, dataSources: seq<Content>, deferred: seq<Path>, messages: seq<Message>,
                    critical: bool, cancelled: bool, localFilesOk: bool)
    ensures var fin := Finish(deviceId, dataSources, deferred, messages, critical, cancelled, localFilesOk);
            && fin.status.Completed?
            && (forall j :: 0 <= j < |fin.calls| ==>
                  !IsAcquire(fin.calls[j]) && !IsRelease(fin.calls[j]) && !fin.calls[j].IsAddImageStep())
            && CountWhere(fin.calls, IsDone) == 1
            && fin.calls[|fin.calls| - 1]
               == Done(fin.status.result, fin.status.errorMessages, fin.status.dataSources)
            && ((exists j :: 0 <= j < |fin.calls| && fin.calls[j].AddLocalFilesDataSource?)
                == (!cancelled && deferred != []))
  {
    var fin := Finish(deviceId, dataSources, deferred, messages, critical, cancelled, localFilesOk);
    var k := |fin.calls| - 1;
    var pre := fin.calls[..k];
    CountWhereNone(pre, IsDone);
    CountWhereAppend(pre, [fin.calls[k]], IsDone);
    assert pre + [fin.calls[k]] == fin.calls;
    assert [fin.calls[k]][..0] == [];
    if !cancelled && deferred != [] {
      assert fin.calls[0].AddLocalFilesDataSource?;
    }
  }

  lemma CountLocked(head: seq<Call>, f: seq<Call>, tail: seq<Call>, p: Call -> bool)
    requires forall j :: 0 <= j < |f| ==> f[j].IsAddImageStep()
    requires forall c: Call :: c.IsAddImageStep() ==> !p(c)
    ensures CountWhere(head + f + tail, p) == CountWhere(head, p) + CountWhere(tail, p)
  {
    CountWhereNone(f, p);
    CountWhereAppend(head, f, p);
    CountWhereAppend(head + f, tail, p);
  }

  /** The calls of the locked loop: the acquire first, the release last, the add-image steps between. */
  lemma LockedCallsFacts(l: LockedRecord, paths: seq<Path>, outcome: nat -> AttemptOutcome, wasCancelled: bool,
                         cancelArrival: nat, criticalBefore: bool)
    requires l == Locked(paths, outcome, wasCancelled, cancelArrival, criticalBefore)
    ensures |l.calls| >= 3
    ensures l.calls[0] == AcquireExclusiveLock && l.calls[|l.calls| - 1] == ReleaseExclusiveLock
    ensures CountWhere(l.calls, IsAcquire) == 1 && CountWhere(l.calls, IsRelease) == 1
    ensures CountWhere(l.calls, IsDone) == 0
    ensures forall j :: 0 <= j < |l.calls| && l.calls[j].IsAddImageStep() ==> 1 < j < |l.calls| - 1
  {
    var n := AttemptCount(paths, outcome, wasCancelled, cancelArrival);
    LockedShape(l, paths, outcome, wasCancelled, cancelArrival, criticalBefore);
    LoopCallsFacts(Attempts(paths, outcome, n), l.calls);
  }

  /** The calls of the locked loop, taken apart. */
  lemma LockedShape(l: LockedRecord, paths: seq<Path>, outcome: nat -> AttemptOutcome, wasCancelled: bool,
                    cancelArrival: nat, criticalBefore: bool)
    requires l == Locked(paths, outcome, wasCancelled, cancelArrival, criticalBefore)
    ensures var n := AttemptCount(paths, outcome, wasCancelled, cancelArrival);
            && n <= |paths|
            && l.calls == [AcquireExclusiveLock, SetIndeterminate(true)] + Flatten(Attempts(paths, outcome, n), AttemptCalls)
                          + [ReleaseExclusiveLock]
  {
  }

  /** The lock facts of LockedCallsFacts, for any sequence of attempts between the acquire and the release. */
  lemma LoopCallsFacts(attempts: seq<Attempt>, calls: seq<Call>)
    requires calls == [AcquireExclusiveLock, SetIndeterminate(true)] + Flatten(attempts, AttemptCalls) + [ReleaseExclusiveLock]
    ensures |calls| >= 3
    ensures calls[0] == AcquireExclusiveLock && calls[|calls| - 1] == ReleaseExclusiveLock
    ensures CountWhere(calls, IsAcquire) == 1 && CountWhere(calls, IsRelease) == 1
    ensures CountWhere(calls, IsDone) == 0
    ensures forall j :: 0 <= j < |calls| && calls[j].IsAddImageStep() ==> 1 < j < |calls| - 1
  {
    var f := Flatten(attempts, AttemptCalls);
    FlattenCallsAreSteps(attempts);
    var head := [AcquireExclusiveLock, SetIndeterminate(true)];
    var tail := [ReleaseExclusiveLock];
    CountLocked(head, f, tail, IsAcquire);
    CountLocked(head, f, tail, IsRelease);
    CountLocked(head, f, tail, IsDone);
    assert head[..1] == [AcquireExclusiveLock] && [AcquireExclusiveLock][..0] == [];
    assert tail[..0] == [];
  }

  /** The calls run makes after the locked loop, when no attempt threw. */
  lemma RunCallsSplit(deviceId: string, paths: seq<Path>, outcome: nat -> AttemptOutcome, localFilesOk: bool,
                      wasCancelled: bool, cancelArrival: nat, criticalBefore: bool, l: LockedRecord, fin: FinishRecord)
    requires l == Locked(paths, outcome, wasCancelled, cancelArrival, criticalBefore) && !l.thrown
    requires fin == Finish(deviceId, l.dataSources, l.deferred, l.messages, l.critical,
                           l.cancelled || cancelArrival == |paths|, localFilesOk)
    ensures var r := RunEffects(deviceId, paths, outcome, localFilesOk, wasCancelled, cancelArrival, criticalBefore);
            r.calls == l.calls + fin.calls && r.status == fin.status
  {
  }

  /**
   * Lines 93-103: the exclusive lock is acquired once, as the first call, and
   * released once, after every add-image step of the loop, whether or not an
   * attempt throws.
   */
  lemma RunLockBalanced(deviceId: string, paths: seq<Path>, outcome: nat -> AttemptOutcome, localFilesOk: bool,
                        wasCancelled: bool, cancelArrival: nat, criticalBefore: bool)
    ensures var r := RunEffects(deviceId, paths, outcome, localFilesOk, wasCancelled, cancelArrival, criticalBefore);
            var k := |Locked(paths, outcome, wasCancelled, cancelArrival, criticalBefore).calls| - 1;
            && 0 < k < |r.calls|
            && r.calls[0] == AcquireExclusiveLock && r.calls[k] == ReleaseExclusiveLock
            && CountWhere(r.calls, IsAcquire) == 1 && CountWhere(r.calls, IsRelease) == 1
            && (forall j :: 0 <= j < |r.calls| && r.calls[j].IsAddImageStep() ==> 1 < j < k)
  {
    var l := Locked(paths, outcome, wasCancelled, cancelArrival, criticalBefore);
    LockedCallsFacts(l, paths, outcome, wasCancelled, cancelArrival, criticalBefore);
    if !l.thrown {
      var cancelled := l.cancelled || cancelArrival == |paths|;
      var fin := Finish(deviceId, l.dataSources, l.deferred, l.messages, l.critical, cancelled, localFilesOk);
      RunCallsSplit(deviceId, paths, outcome, localFilesOk, wasCancelled, cancelArrival, criticalBefore, l, fin);
      FinishFacts(deviceId, l.dataSources, l.deferred, l.messages, l.critical, cancelled, localFilesOk);
      LockFactsAppend(l.calls, fin.calls);
    }
  }

  /** Calls that neither lock nor add an image, appended after the locked loop, keep its lock facts. */
  lemma LockFactsAppend(a: seq<Call>, b: seq<Call>)
    requires |a| >= 3 && a[0] == AcquireExclusiveLock && a[|a| - 1] == ReleaseExclusiveLock
    requires CountWhere(a, IsAcquire) == 1 && CountWhere(a, IsRelease) == 1
    requires forall j :: 0 <= j < |a| && a[j].IsAddImageStep() ==> 1 < j < |a| - 1
    requires forall j :: 0 <= j < |b| ==> !IsAcquire(b[j]) && !IsRelease(b[j]) && !b[j].IsAddImageStep()
    ensures (a + b)[0] == AcquireExclusiveLock && (a + b)[|a| - 1] == ReleaseExclusiveLock
    ensures CountWhere(a + b, IsAcquire) == 1 && CountWhere(a + b, IsRelease) == 1
    ensures forall j :: 0 <= j < |a + b| && (a + b)[j].IsAddImageStep() ==> 1 < j < |a| - 1
  {
    CountWhereNone(b, IsAcquire);
    CountWhereNone(b, IsRelease);
    CountWhereAppend(a, b, IsAcquire);
    CountWhereAppend(a, b, IsRelease);
    var c := a + b;
    forall j | 0 <= j < |c| && c[j].IsAddImageStep()
      ensures 1 < j < |a| - 1
    {
      if j < |a| { assert c[j] == a[j]; }
    }
  }

  /**
   * Line 142: the callback is called exactly once, as the last call, when run
   * completes; when an attempt throws it is not called and the release of the
   * lock is the last call.
   */
  lemma RunCallbackOnce(deviceId: string, paths: seq<Path>, outcome: nat -> AttemptOutcome, localFilesOk: bool,
                        wasCancelled: bool, cancelArrival: nat, criticalBefore: bool)
    ensures var r := RunEffects(deviceId, paths, outcome, localFilesOk, wasCancelled, cancelArrival, criticalBefore);
            && (r.status.Completed? ==>
                  CountWhere(r.calls, IsDone) == 1
                  && r.calls[|r.calls| - 1] == Done(r.status.result, r.status.errorMessages, r.status.dataSources))
            && (r.status.Aborted? ==> CountWhere(r.calls, IsDone) == 0 && r.calls[|r.calls| - 1] == ReleaseExclusiveLock)
  {
    var l := Locked(paths, outcome, wasCancelled, cancelArrival, criticalBefore);
    LockedCallsFacts(l, paths, outcome, wasCancelled, cancelArrival, criticalBefore);
    CallbackOnceAfterLock(deviceId, |paths|, cancelArrival, localFilesOk, l);
  }

  /** The callback part of RunCallbackOnce, from the facts about the locked calls alone. */
  lemma CallbackOnceAfterLock(deviceId: string, fileCount: nat, cancelArrival: nat, localFilesOk: bool, l: LockedRecord)
    requires |l.calls| >= 1 && l.calls[|l.calls| - 1] == ReleaseExclusiveLock && CountWhere(l.calls, IsDone) == 0
    ensures var r := AfterLock(deviceId, fileCount, cancelArrival, localFilesOk, l);
            && (r.status.Completed? ==>
                  CountWhere(r.calls, IsDone) == 1
                  && r.calls[|r.calls| - 1] == Done(r.status.result, r.status.errorMessages, r.status.dataSources))
            && (r.status.Aborted? ==> CountWhere(r.calls, IsDone) == 0 && r.calls[|r.calls| - 1] == ReleaseExclusiveLock)
  {
    if !l.thrown {
      var cancelled := l.cancelled || cancelArrival == fileCount;
      var fin := Finish(deviceId, l.dataSources, l.deferred, l.messages, l.critical, cancelled, localFilesOk);
      FinishFacts(deviceId, l.dataSources, l.deferred, l.messages, l.critical, cancelled, localFilesOk);
      CountWhereAppend(l.calls, fin.calls, IsDone);
    }
  }

  /** The critical flag of the attempts is raised exactly when one of them appended a critical message. */
  lemma {:induction false} FlattenMessagesCritical(attempts: seq<Attempt>)
    ensures HasCritical(Flatten(attempts, AttemptMessages)) == AnyCritical(attempts)
    decreases |attempts|
  {
    if attempts != [] {
      var init, a := attempts[..|attempts| - 1], attempts[|attempts| - 1];
      FlattenMessagesCritical(init);
      HasCriticalAppend(Flatten(init, AttemptMessages), AttemptMessages(a));
      AttemptMessagesShape(a);
      assert init + [a] == attempts;
      AnyCriticalSnoc(init, a);
    }
  }

  /**
   * Each attempt yields at most one image data source or one deferred path,
   * and every image data source is the image of an attempted path.
   */
  lemma {:induction false} FlattenContributions(attempts: seq<Attempt>)
    ensures |Flatten(attempts, AttemptImages)| + |Flatten(attempts, AttemptDeferred)| <= |attempts|
    ensures forall j :: 0 <= j < |Flatten(attempts, AttemptImages)| ==>
              Flatten(attempts, AttemptImages)[j].Image?
              && Flatten(attempts, AttemptImages)[j].imagePath in PathsOf(attempts)
    decreases |attempts|
  {
    if attempts != [] {
      var init, a := attempts[..|attempts| - 1], attempts[|attempts| - 1];
      FlattenContributions(init);
      AttemptContributesAtMostOne(a);
      var f0 := Flatten(init, AttemptImages);
      var f := f0 + AttemptImages(a);
      assert PathsOf(attempts) == PathsOf(init) + [a.path];
      forall j | 0 <= j < |f|
        ensures f[j].Image? && f[j].imagePath in PathsOf(attempts)
      {
        if j < |f0| { assert f[j] == f0[j]; } else { assert f[j] == Image(a.path); }
      }
    }
  }

  /** The image data sources of the given paths, in order. */
  function ImagesOf(paths: seq<Path>): (r: seq<Content>)
    ensures |r| == |paths| && forall i :: 0 <= i < |r| ==> r[i] == Image(paths[i])
  {
    seq(|paths|, i requires 0 <= i < |paths| => Image(paths[i]))
  }

  /** An attempt whose run and commit succeed and whose size check is clean. */
  predicate Clean(o: AttemptOutcome) { o.run.RunOk? && o.commit == Committed(false) }

  /** Attempts that all succeed cleanly add every image, in order, and nothing else. */
  lemma {:induction false} FlattenClean(attempts: seq<Attempt>)
    requires forall j :: 0 <= j < |attempts| ==> Clean(attempts[j].outcome)
    ensures Flatten(attempts, AttemptImages) == ImagesOf(PathsOf(attempts))
    ensures Flatten(attempts, AttemptDeferred) == [] && Flatten(attempts, AttemptMessages) == []
    ensures !AnyCritical(attempts)
    decreases |attempts|
  {
    if attempts != [] {
      var init, a := attempts[..|attempts| - 1], attempts[|attempts| - 1];
      FlattenClean(init);
      assert PathsOf(attempts) == PathsOf(init) + [a.path];
      assert ImagesOf(PathsOf(attempts)) == ImagesOf(PathsOf(init)) + [Image(a.path)];
      assert init + [a] == attempts;
      AnyCriticalSnoc(init, a);
    }
  }

  /**
   * Lines 96-99 and 150-153: the number of attempted image files. None if the
   * task was cancelled before run, none from the iteration at which the
   * cancellation arrives, and none after an attempt that throws; otherwise
   * every file before the cancellation.
   */
  lemma AttemptCountBounds(paths: seq<Path>, outcome: nat -> AttemptOutcome, wasCancelled: bool, cancelArrival: nat)
    ensures var n := AttemptCount(paths, outcome, wasCancelled, cancelArrival);
            && n <= |paths|
            && (wasCancelled ==> n == 0)
            && (!wasCancelled ==> n <= cancelArrival)
            && (forall j :: 0 <= j < n - 1 ==> !Throws(outcome(j)))
            && ((n > 0 && Throws(outcome(n - 1))) || n == IterationsBeforeCancel(wasCancelled, cancelArrival, |paths|))
  {
  }

  /**
   * Lines 93-103: run hands the image files to the add-image process strictly
   * in input order, each at most once: exactly the first AttemptCount of them.
   * It does not complete exactly when the last of those throws.
   */
  lemma RunAttemptsInOrder(deviceId: string, paths: seq<Path>, outcome: nat -> AttemptOutcome, localFilesOk: bool,
                           wasCancelled: bool, cancelArrival: nat, criticalBefore: bool)
    ensures var r := RunEffects(deviceId, paths, outcome, localFilesOk, wasCancelled, cancelArrival, criticalBefore);
            var n := AttemptCount(paths, outcome, wasCancelled, cancelArrival);
            && RunPaths(r.calls) == paths[..n]
            && (r.status.Aborted? <==> n > 0 && Throws(outcome(n - 1)))
  {
    var l := Locked(paths, outcome, wasCancelled, cancelArrival, criticalBefore);
    LockedRunPaths(l, paths, outcome, wasCancelled, cancelArrival, criticalBefore);
    if !l.thrown {
      var cancelled := l.cancelled || cancelArrival == |paths|;
      var fin := Finish(deviceId, l.dataSources, l.deferred, l.messages, l.critical, cancelled, localFilesOk);
      RunCallsSplit(deviceId, paths, outcome, localFilesOk, wasCancelled, cancelArrival, criticalBefore, l, fin);
      FinishFacts(deviceId, l.dataSources, l.deferred, l.messages, l.critical, cancelled, localFilesOk);
      RunPathsNone(fin.calls);
      RunPathsAppend(l.calls, fin.calls);
    }
  }

  /** The locked loop runs the first AttemptCount paths. */
  lemma LockedRunPaths(l: LockedRecord, paths: seq<Path>, outcome: nat -> AttemptOutcome, wasCancelled: bool,
                       cancelArrival: nat, criticalBefore: bool)
    requires l == Locked(paths, outcome, wasCancelled, cancelArrival, criticalBefore)
    ensures RunPaths(l.calls) == paths[..AttemptCount(paths, outcome, wasCancelled, cancelArrival)]
  {
    LockedShape(l, paths, outcome, wasCancelled, cancelArrival, criticalBefore);
    LoopRunPaths(paths, outcome, AttemptCount(paths, outcome, wasCancelled, cancelArrival), l.calls);
  }

  /** The calls of a locked loop over the first n paths run exactly those paths. */
  lemma LoopRunPaths(paths: seq<Path>, outcome: nat -> AttemptOutcome, n: nat, calls: seq<Call>)
    requires n <= |paths|
    requires calls == [AcquireExclusiveLock, SetIndeterminate(true)] + Flatten(Attempts(paths, outcome, n), AttemptCalls)
                      + [ReleaseExclusiveLock]
    ensures RunPaths(calls) == paths[..n]
  {
    var f := Flatten(Attempts(paths, outcome, n), AttemptCalls);
    var head := [AcquireExclusiveLock, SetIndeterminate(true)];
    var tail := [ReleaseExclusiveLock];
    AttemptedPaths(paths, outcome, n);
    RunPathsAppend(head, f);
    RunPathsAppend(head + f, tail);
    RunPathsNone(head);
    RunPathsNone(tail);
  }

  /**
   * Lines 110-142, with the tier rule of lines 134-141: when run completes,
   * the result is CRITICAL_ERRORS exactly when the flag was already set or a
   * critical message was collected, NONCRITICAL_ERRORS when only non-critical
   * messages were, and NO_ERRORS when there are none; a failed fallback is
   * critical; the flag is reset afterwards, and it stays set when an attempt
   * throws.
   */
  lemma RunResultTier(deviceId: string, paths: seq<Path>, outcome: nat -> AttemptOutcome, localFilesOk: bool,
                      wasCancelled: bool, cancelArrival: nat, criticalBefore: bool)
    ensures var r := RunEffects(deviceId, paths, outcome, localFilesOk, wasCancelled, cancelArrival, criticalBefore);
            var l := Locked(paths, outcome, wasCancelled, cancelArrival, criticalBefore);
            && (r.status.Completed? ==>
                  && !r.criticalAfter
                  && (r.status.result == CriticalErrors <==> criticalBefore || HasCritical(r.status.errorMessages))
                  && (r.status.result == NonCriticalErrors <==>
                        !criticalBefore && !HasCritical(r.status.errorMessages) && r.status.errorMessages != [])
                  && (r.status.result == NoErrors <==> !criticalBefore && r.status.errorMessages == [])
                  && (!localFilesOk && !r.cancelledAfter && l.deferred != [] ==> r.status.result == CriticalErrors))
            && (r.status.Aborted? ==> r.criticalAfter == (criticalBefore || HasCritical(l.messages)))
  {
    var l := Locked(paths, outcome, wasCancelled, cancelArrival, criticalBefore);
    var n := AttemptCount(paths, outcome, wasCancelled, cancelArrival);
    FlattenMessagesCritical(Attempts(paths, outcome, n));
    if !l.thrown {
      var cancelled := l.cancelled || cancelArrival == |paths|;
      var fin := Finish(deviceId, l.dataSources, l.deferred, l.messages, l.critical, cancelled, localFilesOk);
      RunCallsSplit(deviceId, paths, outcome, localFilesOk, wasCancelled, cancelArrival, criticalBefore, l, fin);
      var fallback := !cancelled && l.deferred != [];
      var extra := if fallback && !localFilesOk then [Message(Critical, LocalFilesError, deviceId)] else [];
      HasCriticalAppend(l.messages, extra);
      if extra != [] { assert extra[0].severity == Critical; }
    }
  }

  /**
   * Lines 110-121 and 217-220: the data sources handed to the callback are the
   * images of attempted paths, at most one per attempt, in order, followed by
   * the local/logical files data source of the deferred paths, which is added
   * exactly when run was not cancelled, some path was deferred and the case
   * database accepted it.
   */
  lemma RunDataSources(deviceId: string, paths: seq<Path>, outcome: nat -> AttemptOutcome, localFilesOk: bool,
                       wasCancelled: bool, cancelArrival: nat, criticalBefore: bool)
    ensures var r := RunEffects(deviceId, paths, outcome, localFilesOk, wasCancelled, cancelArrival, criticalBefore);
            var l := Locked(paths, outcome, wasCancelled, cancelArrival, criticalBefore);
            var n := AttemptCount(paths, outcome, wasCancelled, cancelArrival);
            var fallback := !r.cancelledAfter && l.deferred != [];
            r.status.Completed? ==>
              && r.cancelledAfter == (wasCancelled || cancelArrival <= |paths|)
              && |l.dataSources| + |l.deferred| <= n
              && (forall j :: 0 <= j < |l.dataSources| ==> l.dataSources[j].Image? && l.dataSources[j].imagePath in paths[..n])
              && r.status.dataSources
                 == l.dataSources + (if fallback && localFilesOk then [LocalFilesRoot(deviceId, l.deferred)] else [])
              && ((exists j :: 0 <= j < |r.calls| && r.calls[j] == AddLocalFilesDataSource(l.deferred)) <==> fallback)
  {
    var l := Locked(paths, outcome, wasCancelled, cancelArrival, criticalBefore);
    var n := AttemptCount(paths, outcome, wasCancelled, cancelArrival);
    FlattenContributions(Attempts(paths, outcome, n));
    PathsOfAttempts(paths, outcome, n);
    LockedCallsAreNotFallback(l, paths, outcome, wasCancelled, cancelArrival, criticalBefore);
    DataSourcesAfterLock(deviceId, |paths|, cancelArrival, localFilesOk, l);
  }

  /** The data-source part of RunDataSources, from the fact that the locked calls include no fallback. */
  lemma DataSourcesAfterLock(deviceId: string, fileCount: nat, cancelArrival: nat, localFilesOk: bool, l: LockedRecord)
    requires forall j :: 0 <= j < |l.calls| ==> !l.calls[j].AddLocalFilesDataSource?
    ensures var r := AfterLock(deviceId, fileCount, cancelArrival, localFilesOk, l);
            var fallback := !r.cancelledAfter && l.deferred != [];
            r.status.Completed? ==>
              && r.cancelledAfter == (l.cancelled || cancelArrival == fileCount)
              && r.status.dataSources
                 == l.dataSources + (if fallback && localFilesOk then [LocalFilesRoot(deviceId, l.deferred)] else [])
              && ((exists j :: 0 <= j < |r.calls| && r.calls[j] == AddLocalFilesDataSource(l.deferred)) <==> fallback)
  {
    if !l.thrown {
      var cancelled := l.cancelled || cancelArrival == fileCount;
      var fin := Finish(deviceId, l.dataSources, l.deferred, l.messages, l.critical, cancelled, localFilesOk);
      FinishFacts(deviceId, l.dataSources, l.deferred, l.messages, l.critical, cancelled, localFilesOk);
      var c := l.calls + fin.calls;
      if exists j :: 0 <= j < |c| && c[j] == AddLocalFilesDataSource(l.deferred) {
        var j :| 0 <= j < |c| && c[j] == AddLocalFilesDataSource(l.deferred);
        assert j >= |l.calls|;
        assert fin.calls[j - |l.calls|].AddLocalFilesDataSource?;
      }
      if !cancelled && l.deferred != [] {
        assert c[|l.calls|] == fin.calls[0];
      }
    }
  }

  /** The locked loop makes no call of the fallback. */
  lemma LockedCallsAreNotFallback(l: LockedRecord, paths: seq<Path>, outcome: nat -> AttemptOutcome, wasCancelled: bool,
                                  cancelArrival: nat, criticalBefore: bool)
    requires l == Locked(paths, outcome, wasCancelled, cancelArrival, criticalBefore)
    ensures forall j :: 0 <= j < |l.calls| ==> !l.calls[j].AddLocalFilesDataSource?
  {
    var n := AttemptCount(paths, outcome, wasCancelled, cancelArrival);
    var f := Flatten(Attempts(paths, outcome, n), AttemptCalls);
    FlattenCallsAreSteps(Attempts(paths, outcome, n));
    var head := [AcquireExclusiveLock, SetIndeterminate(true)];
    assert l.calls == head + f + [ReleaseExclusiveLock];
    forall j | 2 <= j < 2 + |f|
      ensures !l.calls[j].AddLocalFilesDataSource?
    {
      assert l.calls[j] == f[j - 2];
    }
  }

  /**
   * A run that is not cancelled, in which every image file is added cleanly,
   * hands back every image in input order with NO_ERRORS and no message.
   */
  lemma RunClean(deviceId: string, paths: seq<Path>, outcome: nat -> AttemptOutcome, localFilesOk: bool,
                 cancelArrival: nat)
    requires |paths| <= cancelArrival
    requires forall i :: 0 <= i < |paths| ==> Clean(outcome(i))
    ensures var r := RunEffects(deviceId, paths, outcome, localFilesOk, false, cancelArrival, false);
            r.status == Completed(NoErrors, [], ImagesOf(paths)) && !r.criticalAfter
  {
    var n := AttemptCount(paths, outcome, false, cancelArrival);
    FirstThrowUnique(outcome, |paths|, |paths|);
    assert n == |paths|;
    var attempts := Attempts(paths, outcome, n);
    FlattenClean(attempts);
    PathsOfAttempts(paths, outcome, n);
    assert paths[..n] == paths;
  }
}
