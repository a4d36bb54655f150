# Autopsy data-source ingestion and auto-ingest settings, modelled in Dafny

This project models five pieces of the Autopsy forensic platform and proves what they promise.

- **AddCellebriteAndroidImageTask** adds the image files of a Cellebrite UFED output folder to a case database, in order, under one exclusive lock. Each file is run through the add-image process. On a TskCoreException the process is reverted; otherwise it is committed. Files in which no file system is found are deferred. After the loop, the deferred files are added as one local/logical files data source named by the device id. The result is classified into three tiers and handed to the callback once.
- **AddMemoryImageTask** adds one memory image, then runs the Volatility post-processing on it. It uses the same three-tier classification. Its early return for a missing file leaves the exclusive lock held.
- **AddDataSourceCallback** is the automated-ingest callback. It notifies the case, records the processor's output, appends the content list to itself, and wakes the waiting job thread.
- **CompoundFilter** is the timeline filter that keeps its sub-filters' active and disabled flags in step with its own.
- **AutoIngestSettingsPanel** covers the following decision logic:
  - trailing-space normalisation of paths;
  - the controls each mode enables;
  - the mode read from the radio buttons;
  - the shared-configuration checks;
  - the per-mode validation that guards Save.

The tasks are classes whose fields the source mutates: `criticalErrorOccurred`, `cancelled`, and the lists passed to `addImageToCase` (modelled as in/out parameters). A `calls` trace field records these calls, in order:
- the exclusive lock's acquire and release;
- the add-image process's run, revert and commit;
- addImageInfo and addLocalFilesDataSource;
- the progress monitor's indeterminate flag and percentages;
- the Volatility run;
- the callback's done.

makeAddImageProcess, getImageById, verifyImageSize and the progress texts are not traced. Their effect is folded into the outcome of the traced call they follow. What the case database does is read from oracle parameters:
- Cellebrite: an `outcome` function of the file's position;
- memory task: `fileExists`, and a `StepOutcome` each for addImageInfo and the Volatility run (returns, throws a TskCoreException, or throws an unchecked exception);
- fallback: `localFilesOk`.

Each task method is proved against a pure function of its inputs (`Locked`, `RunEffects`, `MemoryRun`). The properties of the source are lemmas about those functions.

A cancellation arriving from another thread is the parameter `cancelArrival`. It is the iteration before which `cancelTask` takes effect. Equal to the number of files means after the loop but before the fallback check; larger means never.

The settings panel is a class whose fields are:
- the set of enabled controls;
- the radio buttons;
- the path texts;
- the error labels;
- the checks run;
- the modes written by store.

The file system is two oracles: `isFolder` and `hasAccess`.

Files:
- `ingest_common.dfy`: shared types, the three-tier classification and call counting.
- `cellebrite_task.dfy`, `memory_task.dfy`, `add_data_source_callback.dfy`, `compound_filter.dfy`, `auto_ingest_settings.dfy`: one per source class.

## Model

| member | source | states |
|---|---|---|
| IngestCommon.Classify | Experimental/src/org/sleuthkit/autopsy/experimental/cellex/datasourceprocessors/AddCellebriteAndroidImageTask.java:134-141 | CRITICAL_ERRORS exactly when the critical flag is set; NONCRITICAL_ERRORS exactly when it is not and some message was collected; NO_ERRORS exactly when neither holds |
| IngestCommon.ClassifyNeverDowngrades | Core/src/org/sleuthkit/autopsy/datasourceprocessors/AddMemoryImageTask.java:96-103 | the tiers are a strict priority: raising the flag or adding messages never gives a better result, and a set flag always gives CRITICAL_ERRORS |
| CellebriteImageTask.AttemptCallsShape | Experimental/src/org/sleuthkit/autopsy/experimental/cellex/datasourceprocessors/AddCellebriteAndroidImageTask.java:180-238 | for one image file, run is called first, revert exactly on a TskCoreException, commit exactly on success or a TskDataException, all on that file and never both revert and commit |
| CellebriteImageTask.AttemptMessagesShape | Experimental/src/org/sleuthkit/autopsy/experimental/cellex/datasourceprocessors/AddCellebriteAndroidImageTask.java:183-238 | at most two messages per file, all naming it; one of them is critical exactly when addImageToCase sets the critical flag; a clean success adds none, and neither does a deferral whose revert succeeds |
| CellebriteImageTask.AddImageToCaseRules | Experimental/src/org/sleuthkit/autopsy/experimental/cellex/datasourceprocessors/AddCellebriteAndroidImageTask.java:184-238 | "no file system" defers the path and is critical only if the revert fails; any other core error adds a critical message; every core error reverts, returns before commit and adds no data source; a data error adds a non-critical message and still commits; a successful commit adds exactly the image, with a non-critical message exactly on a size mismatch; a failed commit or lookup is critical and adds nothing |
| CellebriteImageTask.AttemptContributesAtMostOne | Experimental/src/org/sleuthkit/autopsy/experimental/cellex/datasourceprocessors/AddCellebriteAndroidImageTask.java:191-220 | each file contributes at most one data source or one deferred path; an unchecked exception contributes nothing |
| CellebriteImageTask.FirstThrow | Experimental/src/org/sleuthkit/autopsy/experimental/cellex/datasourceprocessors/AddCellebriteAndroidImageTask.java:96-100 | the position of the first attempt that throws out of the loop: no earlier attempt throws, and the one at that position does |
| CellebriteImageTask.AttemptCountBounds | Experimental/src/org/sleuthkit/autopsy/experimental/cellex/datasourceprocessors/AddCellebriteAndroidImageTask.java:96-99 | no file is attempted if the task was cancelled before run; none from the iteration at which the cancel arrives; the loop stops after an attempt that throws and otherwise attempts every file before the cancellation |
| CellebriteImageTask.AddCellebriteAndroidImageTask.constructor | Experimental/src/org/sleuthkit/autopsy/experimental/cellex/datasourceprocessors/AddCellebriteAndroidImageTask.java:76-83 | keeps the device id and the paths; both flags start false and no call has been made |
| CellebriteImageTask.AddCellebriteAndroidImageTask.CancelTask | Experimental/src/org/sleuthkit/autopsy/experimental/cellex/datasourceprocessors/AddCellebriteAndroidImageTask.java:150-153 | cancelTask sets the cancelled flag and changes nothing else |
| CellebriteImageTask.AddCellebriteAndroidImageTask.AddImageToCase | Experimental/src/org/sleuthkit/autopsy/experimental/cellex/datasourceprocessors/AddCellebriteAndroidImageTask.java:172-239 | appends to the caller's three lists, the flag and the call trace exactly that file's data source, deferral, messages, critical outcome and add-image calls; reports whether an unchecked exception left it |
| CellebriteImageTask.AddCellebriteAndroidImageTask.RevertAfterFailedRun | Experimental/src/org/sleuthkit/autopsy/experimental/cellex/datasourceprocessors/AddCellebriteAndroidImageTask.java:199-204 | the revert call is made, and the critical flag is raised exactly when it fails |
| CellebriteImageTask.AddCellebriteAndroidImageTask.AddImagesUnderLock | Experimental/src/org/sleuthkit/autopsy/experimental/cellex/datasourceprocessors/AddCellebriteAndroidImageTask.java:90-103 | the locked loop leaves the lists, both flags and the call trace as `Locked` states them: acquire, then the attempts of the first AttemptCount files, then the release even when an attempt throws |
| CellebriteImageTask.AddCellebriteAndroidImageTask.LoopIteration | Experimental/src/org/sleuthkit/autopsy/experimental/cellex/datasourceprocessors/AddCellebriteAndroidImageTask.java:96-100 | one iteration, with a cancellation possibly arriving before it, keeps the loop invariant: what has been collected is the flattening of the attempts made so far |
| CellebriteImageTask.LoopExit | Experimental/src/org/sleuthkit/autopsy/experimental/cellex/datasourceprocessors/AddCellebriteAndroidImageTask.java:96-103 | at loop exit the invariant, plus the release of the finally block, gives exactly `Locked` |
| CellebriteImageTask.AddCellebriteAndroidImageTask.Run | Experimental/src/org/sleuthkit/autopsy/experimental/cellex/datasourceprocessors/AddCellebriteAndroidImageTask.java:86-144 | run's calls, the status the callback sees and both flags afterwards are those of `RunEffects` |
| CellebriteImageTask.AddCellebriteAndroidImageTask.AfterLoop | Experimental/src/org/sleuthkit/autopsy/experimental/cellex/datasourceprocessors/AddCellebriteAndroidImageTask.java:104-143 | after the loop, an exception ends run before the callback; otherwise a late cancellation is seen by the fallback check, and the fallback, progress, classification and callback follow |
| CellebriteImageTask.AddCellebriteAndroidImageTask.FinishRun | Experimental/src/org/sleuthkit/autopsy/experimental/cellex/datasourceprocessors/AddCellebriteAndroidImageTask.java:110-143 | the fallback (only when not cancelled and some path was deferred), progress 0 and 100, the tiered result, the single callback with the collected lists, and the reset of the flag |
| CellebriteImageTask.FinishFacts | Experimental/src/org/sleuthkit/autopsy/experimental/cellex/datasourceprocessors/AddCellebriteAndroidImageTask.java:110-142 | after the lock the task makes no lock call and no add-image call; it calls the callback once, as its last call; it calls the fallback exactly when not cancelled and some path was deferred |
| CellebriteImageTask.LockedCallsFacts | Experimental/src/org/sleuthkit/autopsy/experimental/cellex/datasourceprocessors/AddCellebriteAndroidImageTask.java:93-103 | the locked loop's calls acquire first and release last, once each, with every add-image step strictly between and no callback |
| CellebriteImageTask.RunLockBalanced | Experimental/src/org/sleuthkit/autopsy/experimental/cellex/datasourceprocessors/AddCellebriteAndroidImageTask.java:93-103 | over the whole of run: the lock is acquired once, as the first call, and released once, after every add-image step, whether or not an attempt throws |
| CellebriteImageTask.RunCallbackOnce | Experimental/src/org/sleuthkit/autopsy/experimental/cellex/datasourceprocessors/AddCellebriteAndroidImageTask.java:142 | a completed run calls the callback exactly once, last, with its result, messages and data sources; a run aborted by an exception never calls it and ends with the release |
| CellebriteImageTask.FlattenMessagesCritical | Experimental/src/org/sleuthkit/autopsy/experimental/cellex/datasourceprocessors/AddCellebriteAndroidImageTask.java:184-237 | the attempts raise the critical flag exactly when they appended a critical message |
| CellebriteImageTask.FlattenContributions | Experimental/src/org/sleuthkit/autopsy/experimental/cellex/datasourceprocessors/AddCellebriteAndroidImageTask.java:191-220 | over all attempts, data sources plus deferred paths are at most the number of attempts, and every data source is the image of an attempted path |
| CellebriteImageTask.AttemptedPaths | Experimental/src/org/sleuthkit/autopsy/experimental/cellex/datasourceprocessors/AddCellebriteAndroidImageTask.java:96-99 | the attempts of the first n files call run on exactly those files, in input order |
| CellebriteImageTask.RunAttemptsInOrder | Experimental/src/org/sleuthkit/autopsy/experimental/cellex/datasourceprocessors/AddCellebriteAndroidImageTask.java:93-103 | run hands the image files to the add-image process strictly in input order, each at most once, exactly the first AttemptCount of them; run is aborted exactly when the last of them throws |
| CellebriteImageTask.LockedRunPaths | Experimental/src/org/sleuthkit/autopsy/experimental/cellex/datasourceprocessors/AddCellebriteAndroidImageTask.java:96-100 | the locked loop runs exactly the first AttemptCount paths, in order |
| CellebriteImageTask.RunResultTier | Experimental/src/org/sleuthkit/autopsy/experimental/cellex/datasourceprocessors/AddCellebriteAndroidImageTask.java:110-143 | a completed run is CRITICAL_ERRORS exactly when the flag was set before or a critical message was collected, NONCRITICAL_ERRORS exactly when only non-critical messages were, NO_ERRORS exactly when none were; a failed fallback is critical; the flag is reset, and an aborted run leaves it set by what was collected |
| CellebriteImageTask.RunDataSources | Experimental/src/org/sleuthkit/autopsy/experimental/cellex/datasourceprocessors/AddCellebriteAndroidImageTask.java:110-121 | the data sources handed back are the images of attempted paths, at most one per attempt, followed by the local/logical files root of the deferred paths; the fallback is called exactly when run was not cancelled and some path was deferred, and its root is added when it succeeds |
| CellebriteImageTask.RunClean | Experimental/src/org/sleuthkit/autopsy/experimental/cellex/datasourceprocessors/AddCellebriteAndroidImageTask.java:86-144 | an uncancelled run in which every file is added cleanly hands back every image, in input order, with NO_ERRORS and no message |
| MemoryImageTask.AddMemoryImageTask.constructor | Core/src/org/sleuthkit/autopsy/datasourceprocessors/AddMemoryImageTask.java:68-75 | keeps the device id and the image path; the flag starts false and no call has been made |
| MemoryImageTask.AddMemoryImageTask.AddImageToCase | Core/src/org/sleuthkit/autopsy/datasourceprocessors/AddMemoryImageTask.java:123-156 | appends to the caller's lists the image as soon as addImageInfo returns it, and one critical message for a missing file or for a TskCoreException of addImageInfo or Volatility; sets the flag in exactly those cases; records acquire, addImageInfo, Volatility (only after addImageInfo returned) and the release of the finally block; reports an unchecked exception of either call |
| MemoryImageTask.AddMemoryImageTask.Run | Core/src/org/sleuthkit/autopsy/datasourceprocessors/AddMemoryImageTask.java:81-106 | run's calls, status and flag afterwards are those of `MemoryRun`: an unchecked exception leaves run before progress 100 and the callback, with the flag untouched |
| MemoryImageTask.AddMemoryImageTask.FinishRun | Core/src/org/sleuthkit/autopsy/datasourceprocessors/AddMemoryImageTask.java:91-105 | progress 100, the tiered result, the callback with the collected lists, then the reset of the flag |
| MemoryImageTask.MemoryLockAsymmetry | Core/src/org/sleuthkit/autopsy/datasourceprocessors/AddMemoryImageTask.java:127-155 | the lock is acquired exactly once, but released (once, as the last call of addImageToCase) exactly when the image file exists: the early return for a missing file leaves it held, while an unchecked exception still releases it and ends the run |
| MemoryImageTask.MemoryMissingFile | Core/src/org/sleuthkit/autopsy/datasourceprocessors/AddMemoryImageTask.java:129-135 | a missing file yields exactly one critical message, no data source, no addImageInfo and no Volatility, and CRITICAL_ERRORS, whatever the two calls would have done |
| MemoryImageTask.MemoryAddImageInfo | Core/src/org/sleuthkit/autopsy/datasourceprocessors/AddMemoryImageTask.java:137-152 | for an existing file addImageInfo is called right after the lock; when it returns, Volatility runs on the image next and a completed run hands back exactly the image; a TskCoreException gives CRITICAL_ERRORS, one critical message, no data source and no Volatility; an unchecked exception aborts the run without Volatility and leaves the flag as it was |
| MemoryImageTask.MemoryVolatility | Core/src/org/sleuthkit/autopsy/datasourceprocessors/AddMemoryImageTask.java:147-152 | after addImageInfo returned: a normal Volatility run hands back the image with no message; a TskCoreException of Volatility is caught like one of addImageInfo, so the image is still handed back, with one critical message and CRITICAL_ERRORS; an unchecked exception releases the lock and ends the run with no callback and the flag unchanged |
| MemoryImageTask.MemoryAtMostOneDataSource | Core/src/org/sleuthkit/autopsy/datasourceprocessors/AddMemoryImageTask.java:87-89 | a run is aborted exactly when an unchecked exception escapes addImageInfo or Volatility; a completed run hands back at most one data source, the image, exactly when the file exists and addImageInfo returned, whatever Volatility did |
| MemoryImageTask.MemoryResultTier | Core/src/org/sleuthkit/autopsy/datasourceprocessors/AddMemoryImageTask.java:96-105 | a completed run is CRITICAL_ERRORS exactly when the flag was set or a critical message was collected, equivalently when the flag was set, the file is missing or a TskCoreException of addImageInfo or Volatility was caught; never NONCRITICAL_ERRORS; NO_ERRORS exactly when nothing went wrong; the flag is reset; an aborted run leaves the flag as it was |
| MemoryImageTask.MemoryProgressOrder | Core/src/org/sleuthkit/autopsy/datasourceprocessors/AddMemoryImageTask.java:85-104 | in a completed run indeterminate and 0 come first and 100 second to last, the callback is called once, last, with what run collected, and addImageInfo and Volatility fall strictly between; an aborted run never calls the callback |
| AddDataSourceCallbackModel.ContentList.AddAll | Experimental/src/org/sleuthkit/autopsy/experimental/autoingest/AddDataSourceCallback.java:63 | appends the elements the other list had at the start of the call, so adding a list to itself doubles it |
| AddDataSourceCallbackModel.DataSourceInfo.SetDataSourceProcessorOutput | Experimental/src/org/sleuthkit/autopsy/experimental/autoingest/AddDataSourceCallback.java:62 | the recorded output is exactly the given result, messages and list object |
| AddDataSourceCallbackModel.CaseNotification | Experimental/src/org/sleuthkit/autopsy/experimental/autoingest/AddDataSourceCallback.java:57-61 | one case notification with the task id: data source added, with element 0, exactly when the list is non-empty; adding failed otherwise |
| AddDataSourceCallbackModel.AddDataSourceCallback.constructor | Experimental/src/org/sleuthkit/autopsy/experimental/autoingest/AddDataSourceCallback.java:38-43 | keeps the data source and the task id; nothing has been done yet |
| AddDataSourceCallbackModel.AddDataSourceCallback.Done | Experimental/src/org/sleuthkit/autopsy/experimental/autoingest/AddDataSourceCallback.java:56-67 | the steps of done in order (a notification decided by the list as it was on entry, the output recorded with the list object, then the notify); the list doubled in place; the recorded output sees the doubling through the shared object, so it holds every content the processor returned exactly twice as often as it was returned |
| AddDataSourceCallbackModel.AddDataSourceCallback.DoneEDT | Experimental/src/org/sleuthkit/autopsy/experimental/autoingest/AddDataSourceCallback.java:81-83 | doneEDT has exactly the effect of done on the same arguments |
| AddDataSourceCallbackModel.DoneStepOrder | Experimental/src/org/sleuthkit/autopsy/experimental/autoingest/AddDataSourceCallback.java:57-66 | done issues exactly one case notification, first; the output is recorded second; the waiting thread is notified last, after the output has been recorded |
| CompoundFilterModel.AfterActiveChange | Timeline/src/org/sleuthkit/autopsy/advancedtimeline/filters/CompoundFilter.java:73-94 | becoming active with no active sub-filter activates all; otherwise becoming active changes no sub-filter's active flag; becoming inactive with all active deactivates all, otherwise none change; each sub-filter's disabled flag ends as the negation of the new value |
| CompoundFilterModel.AfterDisabledChange | Timeline/src/org/sleuthkit/autopsy/advancedtimeline/filters/CompoundFilter.java:59-70 | becoming disabled disables every sub-filter; becoming enabled sets each one's disabled flag to "parent not active"; active flags are untouched |
| CompoundFilterModel.SubFilterChangeKeepsActives | Timeline/src/org/sleuthkit/autopsy/advancedtimeline/filters/CompoundFilter.java:100-103 | a sub-filter change sets the parent active exactly when some sub-filter is active, without changing any sub-filter's active flag; disabled flags change only when the parent's active flag does |
| CompoundFilterModel.SubFilterChangeConsistent | Timeline/src/org/sleuthkit/autopsy/advancedtimeline/filters/CompoundFilter.java:100-103 | after a sub-filter change the parent is active exactly when one of its sub-filters is |
| CompoundFilterModel.ActivationCascades | Timeline/src/org/sleuthkit/autopsy/advancedtimeline/filters/CompoundFilter.java:74-93 | activating a parent whose sub-filters are all inactive makes each active and enabled; deactivating one whose sub-filters are all active makes each inactive and disabled |
| CompoundFilterModel.CompoundFilter.constructor | Timeline/src/org/sleuthkit/autopsy/advancedtimeline/filters/CompoundFilter.java:43-56 | the given sub-filters, each given the sub-filter listener; the parent's own flags are those the superclass constructor leaves, taken as parameters and not changed by the constructor |
| CompoundFilterModel.CompoundFilter.AddListeners | Timeline/src/org/sleuthkit/autopsy/advancedtimeline/filters/CompoundFilter.java:97-105 | registers the listener on each given filter, in order |
| CompoundFilterModel.CompoundFilter.AddSubFilters | Timeline/src/org/sleuthkit/autopsy/advancedtimeline/filters/CompoundFilter.java:48-53 | filters added to the list are appended and get the listener |
| CompoundFilterModel.CompoundFilter.RemoveSubFilter | Timeline/src/org/sleuthkit/autopsy/advancedtimeline/filters/CompoundFilter.java:51 | a removed filter leaves the list but keeps its listener |
| CompoundFilterModel.CompoundFilter.SetAllSubActive | Timeline/src/org/sleuthkit/autopsy/advancedtimeline/filters/CompoundFilter.java:77-86 | every sub-filter's active flag is set to the value, disabled flags untouched |
| CompoundFilterModel.CompoundFilter.SetAllSubDisabled | Timeline/src/org/sleuthkit/autopsy/advancedtimeline/filters/CompoundFilter.java:91-93 | every sub-filter's disabled flag is set to the value, active flags untouched |
| CompoundFilterModel.CompoundFilter.OnActiveChanged | Timeline/src/org/sleuthkit/autopsy/advancedtimeline/filters/CompoundFilter.java:73-94 | the sub-filters' states after the active listener are AfterActiveChange of their states before |
| CompoundFilterModel.CompoundFilter.OnDisabledChanged | Timeline/src/org/sleuthkit/autopsy/advancedtimeline/filters/CompoundFilter.java:59-70 | the sub-filters' states after the disabled listener are AfterDisabledChange of their states before |
| CompoundFilterModel.CompoundFilter.SetActive | Timeline/src/org/sleuthkit/autopsy/advancedtimeline/filters/CompoundFilter.java:73 | setting the parent's active flag runs its listener only when the value changes |
| CompoundFilterModel.CompoundFilter.SetDisabled | Timeline/src/org/sleuthkit/autopsy/advancedtimeline/filters/CompoundFilter.java:59 | setting the parent's disabled flag runs its listener only when the value changes |
| CompoundFilterModel.CompoundFilter.SubFilterActiveChanged | Timeline/src/org/sleuthkit/autopsy/advancedtimeline/filters/CompoundFilter.java:100-103 | a change on a filter that was given the listener, removed ones included, applies the rule of SubFilterChangeStep; a change on any other filter does nothing |
| AutoIngestSettings.StrippedShape | Experimental/src/org/sleuthkit/autopsy/experimental/configuration/AutoIngestSettingsPanel.java:386-396 | normalizePath returns a prefix of its input that does not end in ' ', and the part it drops is nothing but ' ' |
| AutoIngestSettings.NormalizePath | Experimental/src/org/sleuthkit/autopsy/experimental/configuration/AutoIngestSettingsPanel.java:386-396 | the while loop returns the input without its trailing spaces |
| AutoIngestSettings.NormalizeUnique | Experimental/src/org/sleuthkit/autopsy/experimental/configuration/AutoIngestSettingsPanel.java:386-396 | any prefix that does not end in ' ' and leaves only ' ' behind is the result of normalizePath |
| AutoIngestSettings.NormalizeIdempotent | Experimental/src/org/sleuthkit/autopsy/experimental/configuration/AutoIngestSettingsPanel.java:388-394 | normalizing twice gives the same as normalizing once |
| AutoIngestSettings.NormalizeOnlySpaces | Experimental/src/org/sleuthkit/autopsy/experimental/configuration/AutoIngestSettingsPanel.java:388-394 | only the space character is stripped: a path ending in any other character (a tab, say) is unchanged, and a trailing space is always removed |
| AutoIngestSettings.TrimFacts | Experimental/src/org/sleuthkit/autopsy/experimental/configuration/AutoIngestSettingsPanel.java:450-452 | the trimmed text is empty exactly when every character is at most ' ', starts and ends above ' ' otherwise, and is left unchanged by normalizePath |
| AutoIngestSettings.FolderCheckSeesTrimmedText | Experimental/src/org/sleuthkit/autopsy/experimental/configuration/AutoIngestSettingsPanel.java:406-408 | the folder check on trimmed text asks the file system about exactly that text |
| AutoIngestSettings.PathCheck | Experimental/src/org/sleuthkit/autopsy/experimental/configuration/AutoIngestSettingsPanel.java:448-474 | the error a path validator shows: unspecified exactly when the trimmed text is empty; invalid exactly when it is not a folder; no access exactly when it is a folder without access; none exactly when all three checks pass. The trailing-space normalisation of isFolderPathValid changes nothing on trimmed text |
| AutoIngestSettings.PathCheckMeaning | Experimental/src/org/sleuthkit/autopsy/experimental/configuration/AutoIngestSettingsPanel.java:448-474 | a path field passes exactly when its trimmed text is non-empty, a folder and accessible; it is reported unspecified exactly when it holds only characters at most ' ' |
| AutoIngestSettings.ModeFromRadioButtons | Experimental/src/org/sleuthkit/autopsy/experimental/configuration/AutoIngestSettingsPanel.java:596-606 | Standalone wins, then CopyFiles gives UTILITY, then Automated gives AIM, and REVIEW otherwise; never DOWNLOADING_CONFIGURATION |
| AutoIngestSettings.StoredMode | Experimental/src/org/sleuthkit/autopsy/experimental/configuration/AutoIngestSettingsPanel.java:196-268 | store's precedence is Standalone, then Automated, then CopyFiles, then Review, unlike getModeFromRadioButtons, which puts CopyFiles before Automated; it writes no mode exactly when no button is selected |
| AutoIngestSettings.LoadRoundTrip | Experimental/src/org/sleuthkit/autopsy/experimental/configuration/AutoIngestSettingsPanel.java:116-133 | load selects exactly one button for a stored mode, and reading the buttons back gives the UI mode load enabled and the mode store writes |
| AutoIngestSettings.ReadAgreesWithStore | Experimental/src/org/sleuthkit/autopsy/experimental/configuration/AutoIngestSettingsPanel.java:196-268 | with exactly one button selected, store writes the mode that save validated; with CopyFiles and Automated both selected they differ (UTILITY is validated, AUTOMATED is stored) |
| AutoIngestSettings.ModeTableRows | Experimental/src/org/sleuthkit/autopsy/experimental/configuration/AutoIngestSettingsPanel.java:571-589 | input-folder controls are enabled exactly in UTILITY and AIM; output-folder controls in UTILITY, AIM and REVIEW; ingest and shared-config controls (the shared panel included, as line 584 overrides 579) only in AIM; the master-node box in AIM with the shared checkbox selected; no other control is touched; STANDALONE enables nothing |
| AutoIngestSettings.DownloadingDisables | Experimental/src/org/sleuthkit/autopsy/experimental/configuration/AutoIngestSettingsPanel.java:590-592 | DOWNLOADING_CONFIGURATION disables every control setEnabledState sets; the shared-settings browse button is enabled when the shared checkbox and Automated are selected; the checkbox, its text field, the master-node box and download are left alone |
| AutoIngestSettings.ValidSharedConfigSettings | Experimental/src/org/sleuthkit/autopsy/experimental/configuration/AutoIngestSettingsPanel.java:326-332 | the shared settings count as valid exactly when the checkbox is enabled and selected in multi-user mode; no shared folder is consulted |
| AutoIngestSettings.Valid | Experimental/src/org/sleuthkit/autopsy/experimental/configuration/AutoIngestSettingsPanel.java:302-318 | valid holds exactly in multi-user mode: its inner shared-config check cannot fail there |
| AutoIngestSettings.ValidateSettings | Experimental/src/org/sleuthkit/autopsy/experimental/configuration/AutoIngestSettingsPanel.java:271-297 | Save is enabled exactly in multi-user mode; download exactly when the checkbox is enabled and selected in multi-user mode; upload exactly when the master-node box is enabled and selected as well |
| AutoIngestSettings.SharedButtonsOnlyInAim | Experimental/src/org/sleuthkit/autopsy/experimental/configuration/AutoIngestSettingsPanel.java:585-589 | after the mode table has been applied, download or upload can be enabled only in AIM, with the shared checkbox selected, in multi-user mode |
| AutoIngestSettings.SaveDispatch | Experimental/src/org/sleuthkit/autopsy/experimental/configuration/AutoIngestSettingsPanel.java:1185-1216 | UTILITY passes exactly when the image and results paths pass; AIM when those and the shared path pass; REVIEW when the results path passes, whatever the image path; STANDALONE and any other mode always |
| AutoIngestSettings.UnselectedSharedNeverBlocks | Experimental/src/org/sleuthkit/autopsy/experimental/configuration/AutoIngestSettingsPanel.java:510-516 | with the shared checkbox unselected, the shared check passes whatever the text, so AIM saves exactly when the two folder paths pass |
| AutoIngestSettings.AutoIngestSettingsPanel.constructor | Experimental/src/org/sleuthkit/autopsy/experimental/configuration/AutoIngestSettingsPanel.java:66-86 | starting from the controls initComponents leaves enabled, load(true) selects the stored mode's button and applies its mode table with the shared checkbox still unselected; the error labels are cleared; nothing has been checked or stored |
| AutoIngestSettings.AutoIngestSettingsPanel.SetEnabledState | Experimental/src/org/sleuthkit/autopsy/experimental/configuration/AutoIngestSettingsPanel.java:1445-1469 | every control of the list takes the given state; the shared-settings browse button is enabled exactly when the shared checkbox and Automated are selected; every other control keeps its state |
| AutoIngestSettings.AutoIngestSettingsPanel.EnableOptionsBasedOnMode | Experimental/src/org/sleuthkit/autopsy/experimental/configuration/AutoIngestSettingsPanel.java:569-594 | the calls in source order leave every control as the mode table says (so the properties of ModeTableRows and DownloadingDisables hold of the panel), and untouched controls as they were |
| AutoIngestSettings.AutoIngestSettingsPanel.LoadMode | Experimental/src/org/sleuthkit/autopsy/experimental/configuration/AutoIngestSettingsPanel.java:112-134 | with a stored mode, its button is selected, the buttons read back as its UI mode, and the controls are set by the mode table; without one nothing changes |
| AutoIngestSettings.AutoIngestSettingsPanel.ValidateImagePath | Experimental/src/org/sleuthkit/autopsy/experimental/configuration/AutoIngestSettingsPanel.java:448-474 | the image-folder label shows the first failing check of the trimmed text (unspecified, invalid, no access) or is cleared, and the result is whether it was cleared |
| AutoIngestSettings.AutoIngestSettingsPanel.ValidateResultsPath | Experimental/src/org/sleuthkit/autopsy/experimental/configuration/AutoIngestSettingsPanel.java:479-505 | the same for the results folder and its label |
| AutoIngestSettings.AutoIngestSettingsPanel.ValidateSharedSettingsPath | Experimental/src/org/sleuthkit/autopsy/experimental/configuration/AutoIngestSettingsPanel.java:510-540 | with the checkbox unselected it passes and leaves the label alone; otherwise it checks the trimmed shared path like the folder paths |
| AutoIngestSettings.AutoIngestSettingsPanel.RunFolderChecks | Experimental/src/org/sleuthkit/autopsy/experimental/configuration/AutoIngestSettingsPanel.java:1187-1192 | the image check then the results check both run; the result is true exactly when both paths pass; their two labels show their paths' errors and the shared label is untouched |
| AutoIngestSettings.AutoIngestSettingsPanel.RunModeChecks | Experimental/src/org/sleuthkit/autopsy/experimental/configuration/AutoIngestSettingsPanel.java:1185-1216 | every check of the mode runs, in order, with no short circuit; the flag is true exactly when all of them pass; a failed shared check in AIM shows the invalid-folder text; each of the three error labels shows its path's error if the mode checks that path (the shared one only with the checkbox selected) and keeps its text otherwise |
| AutoIngestSettings.AutoIngestSettingsPanel.BnSaveActionPerformed | Experimental/src/org/sleuthkit/autopsy/experimental/configuration/AutoIngestSettingsPanel.java:1182-1221 | runs the checks of the mode read from the buttons, leaving the error labels as RunModeChecks states; store and the controller's change notice happen, once, exactly when every check passed |

## Left out

- The progress-reporter thread, the progress texts and the thread interrupt of addImageToCase are left out: they are concurrency and display only.
- Logging is not modelled. This includes the warning cancelTask logs (line 151 of AddCellebriteAndroidImageTask.java): it changes no state of the task.
- CellebriteImageTask.AddCellebriteAndroidImageTask.AddImageToCase: of the calls of addImageToCase, only the add-image run may throw an unchecked exception in the model (`UncheckedFailure`). An unchecked exception from makeAddImageProcess (line 178), revert (200), commit (218), getImageById (219) or verifyImageSize (226) is not modelled. In the source it would leave run the same way, after the lock is released and without the callback.
- CellebriteImageTask.AddCellebriteAndroidImageTask.FinishRun: an unchecked exception from addLocalFilesDataSource (line 116), which would skip the callback, is not modelled. Its TskCoreException and TskDataException are `localFilesOk == false`.
- MemoryImageTask.AddMemoryImageTask.AddImageToCase: the TskCoreException message text is the same for addImageInfo and Volatility and is kept as one cause, `MemoryImageError`. Whether VolatilityProcessor.run can throw a TskCoreException is not visible here (the class is not part of this model), so the model allows it.
- The initial enabled state of each control after initComponents is a parameter of the AutoIngestSettingsPanel constructor. The generated layout code is not part of this model.
- The initial active and disabled flags of a CompoundFilter come from the AbstractFilter constructor, which is not part of this model; they are constructor parameters.
- The monitor of AddDataSourceCallback is a recorded `NotifyLock` step. wait/notify itself is not modelled.
- The case database, the add-image process and the fallback are not modelled; their effect is read from oracle parameters. This covers makeAddImageProcess, run, revert, commit, getImageById, verifyImageSize, addLocalFilesDataSource and addImageInfo. A committed image is represented by its path, and the time zone and device id they are given are not modelled.
- VolatilityProcessor is an external analysis tool. It is recorded as one call on the new data source; its plug-ins and its effect on the case are not modelled.
- Only memory images are covered, and the chunk-size argument of AddMemoryImageTask is not modelled.
- The only cross-thread effect modelled is when the other thread's cancelTask is observed (`cancelArrival`). Volatile semantics and interleaving beyond that are not modelled.
- Message text is not modelled: a message is a severity, a cause and the path or device id it names. The format string of line 193 of AddCellebriteAndroidImageTask.java has fewer placeholders than arguments, so the real message drops the exception text; the model does not show that.
- The DataSource class of automated ingest is not part of this model. Its setDataSourceProcessorOutput is modelled as keeping the three arguments, the list object included.
- CompoundFilter listener re-entrancy is left out. In the source, a sub-filter's listener can fire the parent's setActive in the middle of a forEach of the parent's own listener. The `parallelStream` of line 102 is modelled as a sequential anyMatch. Each rule is modelled as one step.
- CompoundFilter's ObservableList wrapping and its list-change events are modelled as appending and removing sub-filters. The sub-filter listener is an invalidation listener, modelled as a listener that runs on a change. Nested compound filters are not modelled.
- AutoIngestSettings.AutoIngestSettingsPanel.BnSaveActionPerformed: store is recorded only as the mode it writes. The folder, shared-config and master-node preference writes, and the restart-required dialogs of lines 200-263, are not modelled.
- AutoIngestSettings.AutoIngestSettingsPanel.ValidateImagePath: label visibility is not modelled. The same holds for ValidateResultsPath, ValidateSharedSettingsPath and valid (lines 308-309). Only the error text a label shows is kept, as a `PathError`.
- The file system is the oracles `isFolder` and `hasAccess`. They stand for isFolderPathValid's symbolic-link, exists and isDirectory checks, its exception handling, and permissionsAppropriate.
- getNormalizedFolderPath's `new File().getPath()` normalisation is JDK behaviour and is not modelled.
- The rest of load (lines 135-172) is not modelled: preferences and multi-user settings are read from outside.
- The following panel code is not modelled:
  - displaySharedConfigButtonText, isResetNeeded and setSharedConfigEnable;
  - setEnabledStateForSharedConfiguration, disableUI and resetUI;
  - the radio-button, checkbox and browse handlers;
  - upload and download (UpdateConfigSwingWorker), the file choosers, dialogs and initComponents.

  This is Swing plumbing or outside the decision rules covered here; the radio-button handlers only combine modelled pieces.
- AddImageAction, PersonaMetadata, FileTypeIdModuleFactory, AutomatedIngestDataSourceProcessor and FilterCheckBoxCell are not modelled:
  - AddImageAction is a wizard action;
  - PersonaMetadata is SQL building against the central repository;
  - FileTypeIdModuleFactory is module registration;
  - AutomatedIngestDataSourceProcessor is an interface with no behaviour;
  - FilterCheckBoxCell is UI bindings.

## Behaviour worth noting

- An unchecked exception from the add-image run (line 182 of AddCellebriteAndroidImageTask.java) is not caught by addImageToCase. It leaves run() after the finally block of lines 101-103 has released the lock. Lines 109-143 are skipped, so the callback is never called and the flag is not reset. A TskCoreException with a null message is one such case: `ex.getMessage().contains(...)` at line 184 throws. The model's status for this is `Aborted`; see RunCallbackOnce.
- A file whose add-image run fails with "Cannot determine file system type" is added to the deferred paths at line 191, before the revert at line 200 is attempted. A failed revert therefore still leaves the path deferred, and the fallback of lines 109-121 still adds it; see AddImageToCaseRules.
- DOWNLOADING_CONFIGURATION (lines 590-592 of AutoIngestSettingsPanel.java) only calls setEnabledState(false), which disables the controls of lines 1446-1468. It enables the shared-settings browse button when the shared checkbox and Automated are selected (line 1451). The shared checkbox, its text field, the master-node box and the download button keep their state; see DownloadingDisables.
- In AddMemoryImageTask.java the early return for a missing file (line 134) comes after the lock is taken (line 127) and outside the try whose finally releases it (lines 153-155), so the lock stays held; see MemoryLockAsymmetry.
