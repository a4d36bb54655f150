/**
 * The decision logic of the automated-ingest settings panel: trailing-space
 * normalisation of paths, the table of controls each mode enables, the mode
 * read from the radio buttons, the shared-configuration checks, and the
 * validation that guards Save.
 *
 * The file system is two oracles: `isFolder` (a symbolic link, or an existing
 * directory; false where the JDK throws) and `hasAccess` (read/write access).
 */
module AutoIngestSettings {

  datatype Option<T> = None | Some(value: T)

  // ---------------------------------------------------------------------------
  // Strings
  // ---------------------------------------------------------------------------

  /** normalizePath, as a value: the input without its trailing ' ' characters. */
  function TrailingSpacesStripped(s: string): string
    decreases |s|
  {
    if |s| > 0 && s[|s| - 1] == ' ' then TrailingSpacesStripped(s[..|s| - 1]) else s
  }

  /**
   * Lines 386-396: normalizePath returns a prefix of its input that does not end
   * in ' ', and what it drops is nothing but ' '.
   */
  lemma {:induction false} StrippedShape(s: string)
    ensures var r := TrailingSpacesStripped(s);
            && |r| <= |s| && r == s[..|r|]
            && (r == [] || r[|r| - 1] != ' ')
            && (forall i :: |r| <= i < |s| ==> s[i] == ' ')
    decreases |s|
  {
    if |s| > 0 && s[|s| - 1] == ' ' {
      var s' := s[..|s| - 1];
      StrippedShape(s');
      var r := TrailingSpacesStripped(s');
      assert r == s[..|r|];
    }
  }

  /** Lines 386-396: the loop of normalizePath, which drops one trailing ' ' per iteration. */
  method NormalizePath(path: string) returns (r: string)
    ensures r == TrailingSpacesStripped(path)
  {
    r := path;
    while |r| > 0
      invariant TrailingSpacesStripped(r) == TrailingSpacesStripped(path)
      decreases |r|
    {
      if r[|r| - 1] == ' ' {
        r := r[..|r| - 1];
      } else {
        break;
      }
    }
  }

  /**
   * The three properties of StrippedShape determine the result: any prefix
   * that does not end in ' ' and leaves only ' ' behind is it.
   */
  lemma {:induction false} NormalizeUnique(s: string, p: string)
    requires |p| <= |s| && p == s[..|p|]
    requires p == [] || p[|p| - 1] != ' '
    requires forall i :: |p| <= i < |s| ==> s[i] == ' '
    ensures TrailingSpacesStripped(s) == p
    decreases |s|
  {
    if |s| > |p| {
      assert s[|s| - 1] == ' ';
      var s' := s[..|s| - 1];
      assert p == s'[..|p|];
      NormalizeUnique(s', p);
    } else {
      assert p == s;
    }
  }

  /** normalizePath is idempotent. */
  lemma NormalizeIdempotent(s: string)
    ensures TrailingSpacesStripped(TrailingSpacesStripped(s)) == TrailingSpacesStripped(s)
  {
    StrippedShape(s);
    var r := TrailingSpacesStripped(s);
    NormalizeUnique(r, r);
  }

  /**
   * Lines 388-394: only the space character is stripped; a path ending in any
   * other character, a tab say, is left as it is, and stripping commutes with
   * appending spaces.
   */
  lemma NormalizeOnlySpaces(s: string, c: char)
    requires c != ' '
    ensures TrailingSpacesStripped(s + [c]) == s + [c]
    ensures TrailingSpacesStripped(s + [' ']) == TrailingSpacesStripped(s)
  {
    assert (s + [' '])[..|s|] == s;
  }

  /** String.trim: drops the leading and trailing characters whose code is at most that of ' '. */
  function TrimStart(s: string): string
    decreases |s|
  {
    if |s| > 0 && s[0] <= ' ' then TrimStart(s[1..]) else s
  }

  function TrimEnd(s: string): string
    decreases |s|
  {
    if |s| > 0 && s[|s| - 1] <= ' ' then TrimEnd(s[..|s| - 1]) else s
  }

  function JavaTrim(s: string): string
  {
    TrimEnd(TrimStart(s))
  }

  /** TrimStart leaves a suffix that is empty or starts above ' ', and drops only characters at most ' '. */
  lemma {:induction false} TrimStartShape(s: string)
    ensures var r := TrimStart(s);
            && |r| <= |s| && r == s[|s| - |r|..]
            && (r == [] || r[0] > ' ')
            && (forall i :: 0 <= i < |s| - |r| ==> s[i] <= ' ')
    decreases |s|
  {
    if |s| > 0 && s[0] <= ' ' {
      TrimStartShape(s[1..]);
      var r := TrimStart(s[1..]);
      assert r == s[|s| - |r|..];
      forall i | 0 <= i < |s| - |r|
        ensures s[i] <= ' '
      {
        if i > 0 { assert s[i] == s[1..][i - 1]; }
      }
    }
  }

  /** TrimEnd leaves a prefix that is empty or ends above ' ', and drops only characters at most ' '. */
  lemma {:induction false} TrimEndShape(s: string)
    ensures var r := TrimEnd(s);
            && |r| <= |s| && r == s[..|r|]
            && (r == [] || r[|r| - 1] > ' ')
            && (forall i :: |r| <= i < |s| ==> s[i] <= ' ')
    decreases |s|
  {
    if |s| > 0 && s[|s| - 1] <= ' ' {
      var s' := s[..|s| - 1];
      TrimEndShape(s');
      var r := TrimEnd(s');
      assert r == s[..|r|];
    }
  }

  /**
   * A trimmed string is empty exactly when every character is at most ' ', and
   * otherwise starts and ends above ' '; so normalizePath leaves it unchanged.
   */
  lemma TrimFacts(s: string)
    ensures JavaTrim(s) == [] <==> forall i :: 0 <= i < |s| ==> s[i] <= ' '
    ensures JavaTrim(s) != [] ==> JavaTrim(s)[0] > ' ' && JavaTrim(s)[|JavaTrim(s)| - 1] > ' '
    ensures TrailingSpacesStripped(JavaTrim(s)) == JavaTrim(s)
  {
    var t := TrimStart(s);
    TrimStartShape(s);
    TrimEndShape(t);
    var r := TrimEnd(t);
    if r != [] {
      assert r[0] == t[0];
      assert s[|s| - |t|] == t[0];
    }
    NormalizeUnique(r, r);
  }

  // ---------------------------------------------------------------------------
  // Modes and radio buttons
  // ---------------------------------------------------------------------------

  /** OptionsUiMode */
  datatype OptionsUiMode = Standalone | Utility | Aim | Review | DownloadingConfiguration

  /** AutoIngestUserPreferences.SelectedMode, the mode kept in the preferences. */
  datatype SelectedMode = StandaloneMode | Automated | CopyFiles | ReviewMode

  /** The four mode radio buttons. */
  datatype Radios = Radios(standalone: bool, copyFiles: bool, automated: bool, review: bool)

  /** Lines 596-606: the first selected button in the order Standalone, CopyFiles, Automated decides; else REVIEW. */
  function ModeFromRadioButtons(r: Radios): (m: OptionsUiMode)
    ensures m != DownloadingConfiguration
    ensures (m == Standalone) == r.standalone
    ensures (m == Utility) == (!r.standalone && r.copyFiles)
    ensures (m == Aim) == (!r.standalone && !r.copyFiles && r.automated)
    ensures (m == Review) == (!r.standalone && !r.copyFiles && !r.automated)
  {
    if r.standalone then Standalone
    else if r.copyFiles then Utility
    else if r.automated then Aim
    else Review
  }

  /** Lines 116-133: the button load selects for a stored mode (the buttons form one group). */
  function RadiosFor(m: SelectedMode): Radios
  {
    Radios(m == StandaloneMode, m == CopyFiles, m == Automated, m == ReviewMode)
  }

  /** Lines 116-133: the UI mode load enables for a stored mode. */
  function UiModeOf(m: SelectedMode): OptionsUiMode
  {
    match m
    case StandaloneMode => Standalone
    case Automated => Aim
    case CopyFiles => Utility
    case ReviewMode => Review
  }

  /** Lines 196-268: the mode store writes: Standalone, then Automated, then CopyFiles, then Review; none if no button is selected. */
  function StoredMode(r: Radios): (m: Option<SelectedMode>)
    ensures m.None? <==> !r.standalone && !r.automated && !r.copyFiles && !r.review
    ensures m == Some(StandaloneMode) <==> r.standalone
    ensures m == Some(Automated) <==> !r.standalone && r.automated
    ensures m == Some(CopyFiles) <==> !r.standalone && !r.automated && r.copyFiles
    ensures m == Some(ReviewMode) <==> !r.standalone && !r.automated && !r.copyFiles && r.review
  {
    if r.standalone then Some(StandaloneMode)
    else if r.automated then Some(Automated)
    else if r.copyFiles then Some(CopyFiles)
    else if r.review then Some(ReviewMode)
    else None
  }

  predicate ExactlyOne(r: Radios)
  {
    (if r.standalone then 1 else 0) + (if r.copyFiles then 1 else 0)
      + (if r.automated then 1 else 0) + (if r.review then 1 else 0) == 1
  }

  /**
   * Load followed by reading the buttons gives back the stored mode, both as the
   * UI mode save validates and as the mode store writes.
   */
  lemma LoadRoundTrip(m: SelectedMode)
    ensures ExactlyOne(RadiosFor(m))
    ensures ModeFromRadioButtons(RadiosFor(m)) == UiModeOf(m)
    ensures StoredMode(RadiosFor(m)) == Some(m)
  {
  }

  /**
   * With exactly one button selected, the mode save validates and the mode store
   * writes agree; they differ only when several buttons are selected at once,
   * which the button group rules out.
   */
  lemma ReadAgreesWithStore(r: Radios)
    ensures ExactlyOne(r) ==> StoredMode(r).Some? && UiModeOf(StoredMode(r).value) == ModeFromRadioButtons(r)
    ensures r == Radios(false, true, true, false) ==>
              ModeFromRadioButtons(r) == Utility && StoredMode(r) == Some(Automated)
  {
  }

  // ---------------------------------------------------------------------------
  // The controls each mode enables
  // ---------------------------------------------------------------------------

  /** The controls of the panel whose enabled state the mode logic sets. */
  datatype Control =
    | LabelSelectInputFolder | InputPathTextField | BrowseInputFolderButton
    | LabelSelectOutputFolder | OutputPathTextField | BrowseOutputFolderButton
    | PanelSharedConfig | PanelIngestSettings | EditIngestSettingsButton | AdvancedSettingsButton
    | SharedConfigCheckbox | MasterNodeCheckBox | FileExportButton | SharedSettingsTextField | DownloadButton
    | BrowseSharedSettingsButton | ConfigButtonErrorTextField | LabelInvalidImageFolder | LabelInvalidResultsFolder
    | LabelSelectMode | PanelNodeType | RadioAutomated | RadioCopyFiles | RadioReview | RadioStandalone
    | MultiUserErrorTextField | RestartRequiredNodeLabel

  /** The input-folder controls of lines 571-573. */
  const InputFolderControls: set<Control> := {LabelSelectInputFolder, InputPathTextField, BrowseInputFolderButton}

  /** The output-folder controls of lines 575-577. */
  const OutputFolderControls: set<Control> := {LabelSelectOutputFolder, OutputPathTextField, BrowseOutputFolderButton}

  /** The controls lines 581-589 enable in AIM mode only (the master-node box aside). */
  const AimOnlyControls: set<Control> :=
    {PanelSharedConfig, PanelIngestSettings, EditIngestSettingsButton, AdvancedSettingsButton,
     SharedConfigCheckbox, FileExportButton, SharedSettingsTextField, DownloadButton}

  /** The controls setEnabledState sets to its argument (lines 1446-1468, the shared-settings browse button aside). */
  const EnabledStateControls: set<Control> :=
    {AdvancedSettingsButton, EditIngestSettingsButton, FileExportButton, BrowseInputFolderButton,
     BrowseOutputFolderButton, ConfigButtonErrorTextField, InputPathTextField,
     LabelInvalidImageFolder, LabelInvalidResultsFolder, LabelSelectInputFolder, LabelSelectMode,
     LabelSelectOutputFolder, PanelIngestSettings, PanelNodeType, PanelSharedConfig,
     RadioAutomated, RadioCopyFiles, RadioReview, RadioStandalone, MultiUserErrorTextField,
     OutputPathTextField, RestartRequiredNodeLabel}

  /** Lines 1445-1469: the state setEnabledState leaves a control in; None if it does not touch it. */
  function EnabledStateTable(enabled: bool, c: Control, sharedSelected: bool, automatedSelected: bool): Option<bool>
  {
    if c.BrowseSharedSettingsButton? then Some(sharedSelected && automatedSelected)
    else if c in EnabledStateControls then Some(enabled)
    else None
  }

  /**
   * Lines 569-594: the state enableOptionsBasedOnMode leaves a control in; None
   * if it does not touch it. The shared-config panel, set at line 579 and again
   * at line 584, ends with the value of line 584.
   */
  function ModeTable(mode: OptionsUiMode, c: Control, sharedSelected: bool, automatedSelected: bool): Option<bool>
  {
    if mode == DownloadingConfiguration then EnabledStateTable(false, c, sharedSelected, automatedSelected)
    else if c in InputFolderControls then Some(mode == Utility || mode == Aim)
    else if c in OutputFolderControls then Some(mode == Utility || mode == Aim || mode == Review)
    else if c in AimOnlyControls then Some(mode == Aim)
    else if c.MasterNodeCheckBox? then Some(mode == Aim && sharedSelected)
    else None
  }

  /** A control's enabled state after a table entry: the entry's value, or unchanged. */
  predicate EnabledAfter(entry: Option<bool>, wasEnabled: bool)
  {
    if entry.Some? then entry.value else wasEnabled
  }

  /**
   * Lines 571-589 for every mode but DOWNLOADING_CONFIGURATION: input-folder
   * controls are enabled iff the mode is UTILITY or AIM, output-folder controls
   * iff it is UTILITY, AIM or REVIEW, the ingest-settings and shared-config
   * controls iff it is AIM, the master-node box iff it is AIM and the shared
   * checkbox is selected; nothing else is touched.
   */
  lemma ModeTableRows(mode: OptionsUiMode, c: Control, sharedSelected: bool, automatedSelected: bool)
    requires mode != DownloadingConfiguration
    ensures var e := ModeTable(mode, c, sharedSelected, automatedSelected);
            && (c in InputFolderControls ==> e == Some(mode == Utility || mode == Aim))
            && (c in OutputFolderControls ==> e == Some(mode != Standalone))
            && (c in AimOnlyControls ==> e == Some(mode == Aim))
            && (c == MasterNodeCheckBox ==> e == Some(mode == Aim && sharedSelected))
            && (e == Some(true) ==> mode != Standalone)
            && (e.None? <==> c !in InputFolderControls && c !in OutputFolderControls && c !in AimOnlyControls && c != MasterNodeCheckBox)
  {
  }

  /**
   * Lines 590-592: DOWNLOADING_CONFIGURATION disables every control
   * setEnabledState sets, except that the shared-settings browse button is
   * enabled when the shared checkbox and the Automated button are both
   * selected; the shared checkbox, its text field, the master-node box and
   * the download button are left as they were.
   */
  lemma DownloadingDisables(c: Control, sharedSelected: bool, automatedSelected: bool)
    ensures var e := ModeTable(DownloadingConfiguration, c, sharedSelected, automatedSelected);
            && (c in EnabledStateControls ==> e == Some(false))
            && (c == BrowseSharedSettingsButton ==> e == Some(sharedSelected && automatedSelected))
            && (c in {SharedConfigCheckbox, SharedSettingsTextField, MasterNodeCheckBox, DownloadButton} ==> e.None?)
  {
  }

  /** One control through the group updates of lines 571-589. */
  lemma ModeSteps(mode: OptionsUiMode, e: set<Control>, sharedSelected: bool, automatedSelected: bool, c: Control)
    requires mode != DownloadingConfiguration
    ensures var e1 := With(e, InputFolderControls, mode == Utility || mode == Aim);
            var e2 := With(e1, OutputFolderControls, mode == Utility || mode == Aim || mode == Review);
            var e3 := With(e2, {PanelSharedConfig}, mode == Utility || mode == Aim);
            var e4 := With(e3, AimOnlyControls, mode == Aim);
            var e5 := With(e4, {MasterNodeCheckBox}, mode == Aim && sharedSelected);
            (c in e5) == EnabledAfter(ModeTable(mode, c, sharedSelected, automatedSelected), c in e)
  {
  }

  /** A group of controls set to one enabled state. */
  function With(e: set<Control>, group: set<Control>, on: bool): set<Control>
  {
    if on then e + group else e - group
  }

  // ---------------------------------------------------------------------------
  // Shared configuration and validity
  // ---------------------------------------------------------------------------

  /**
   * Lines 326-332: the shared settings count as valid only with the checkbox
   * enabled and selected in multi-user mode; no folder is consulted, although
   * the comment of the source lists a valid shared folder among the conditions.
   */
  function ValidSharedConfigSettings(checkboxEnabled: bool, checkboxSelected: bool, multiUser: bool): (v: bool)
    ensures v ==> checkboxEnabled && checkboxSelected && multiUser
    ensures checkboxEnabled && checkboxSelected && multiUser ==> v
  {
    checkboxEnabled && checkboxSelected && multiUser
  }

  /**
   * Lines 302-318: valid. Its inner check can only fail when the shared
   * settings are not valid with the checkbox enabled and selected, which in
   * multi-user mode cannot happen; so valid is exactly "multi-user mode".
   */
  function Valid(multiUser: bool, r: Radios, checkboxEnabled: bool, checkboxSelected: bool): (v: bool)
    ensures v == multiUser
  {
    if !multiUser then false
    else
      var isValidNodePanel :=
        !((r.automated || r.copyFiles)
          && checkboxEnabled && checkboxSelected && !ValidSharedConfigSettings(checkboxEnabled, checkboxSelected, multiUser));
      isValidNodePanel
  }

  /** The enabled states validateSettings gives the Save, download and upload buttons. */
  datatype SettingsButtons = SettingsButtons(save: bool, download: bool, upload: bool)

  /**
   * Lines 271-297: Save is enabled iff the settings are valid; download iff the
   * shared settings are (checkbox enabled and selected, multi-user mode);
   * upload iff both hold and the master-node box is enabled and selected.
   */
  function ValidateSettings(multiUser: bool, r: Radios, checkboxEnabled: bool, checkboxSelected: bool,
                            masterEnabled: bool, masterSelected: bool): (b: SettingsButtons)
    ensures b.save == multiUser
    ensures b.download == (checkboxEnabled && checkboxSelected && multiUser)
    ensures b.upload == (checkboxEnabled && checkboxSelected && multiUser && masterEnabled && masterSelected)
  {
    if Valid(multiUser, r, checkboxEnabled, checkboxSelected) then
      if ValidSharedConfigSettings(checkboxEnabled, checkboxSelected, multiUser) then
        SettingsButtons(true, true, masterEnabled && masterSelected)
      else
        SettingsButtons(true, false, false)
    else
      SettingsButtons(false, ValidSharedConfigSettings(checkboxEnabled, checkboxSelected, multiUser), false)
  }

  /**
   * After enableOptionsBasedOnMode, the shared-config buttons can only be
   * enabled in AIM mode: the checkbox is enabled in no other mode.
   */
  lemma SharedButtonsOnlyInAim(mode: OptionsUiMode, wasEnabled: bool, multiUser: bool, r: Radios,
                               sharedSelected: bool, masterEnabled: bool, masterSelected: bool)
    requires mode != DownloadingConfiguration
    ensures var checkboxEnabled := EnabledAfter(ModeTable(mode, SharedConfigCheckbox, sharedSelected, r.automated), wasEnabled);
            var b := ValidateSettings(multiUser, r, checkboxEnabled, sharedSelected, masterEnabled, masterSelected);
            (b.download || b.upload) ==> mode == Aim && sharedSelected && multiUser
  {
  }

  // ---------------------------------------------------------------------------
  // Path checks
  // ---------------------------------------------------------------------------

  /** Why a path field is rejected; None is the empty error text. */
  datatype PathError = Unspecified | PathInvalid | CannotAccess

  /** Lines 406-427: isFolderPathValid, on the normalised path. */
  function IsFolderPathValid(path: string, isFolder: string -> bool): bool
  {
    isFolder(TrailingSpacesStripped(path))
  }

  /**
   * Lines 448-474, 479-505 and 518-539: the error a validator shows for a path
   * field: the trimmed text must be non-empty, a folder, and accessible, in
   * this order.
   */
  function PathCheck(text: string, isFolder: string -> bool, hasAccess: string -> bool): (e: Option<PathError>)
    ensures e == Some(Unspecified) <==> JavaTrim(text) == []
    ensures e == Some(PathInvalid) <==> JavaTrim(text) != [] && !isFolder(JavaTrim(text))
    ensures e == Some(CannotAccess) <==>
              JavaTrim(text) != [] && isFolder(JavaTrim(text)) && !hasAccess(JavaTrim(text))
    ensures e.None? <==> JavaTrim(text) != [] && isFolder(JavaTrim(text)) && hasAccess(JavaTrim(text))
  {
    TrimFacts(text);
    var p := JavaTrim(text);
    if p == [] then Some(Unspecified)
    else if !IsFolderPathValid(p, isFolder) then Some(PathInvalid)
    else if !hasAccess(p) then Some(CannotAccess)
    else None
  }

  /**
   * A path field passes exactly when its trimmed text is non-empty, a folder
   * and accessible; it is reported unspecified exactly when it holds nothing
   * but characters at most ' '.
   */
  lemma PathCheckMeaning(text: string, isFolder: string -> bool, hasAccess: string -> bool)
    ensures var e := PathCheck(text, isFolder, hasAccess);
            && (e.None? <==> JavaTrim(text) != [] && isFolder(JavaTrim(text)) && hasAccess(JavaTrim(text)))
            && (e == Some(Unspecified) <==> forall i :: 0 <= i < |text| ==> text[i] <= ' ')
  {
    TrimFacts(text);
  }

  /** The object isFolderPathValid is asked about is the trimmed text itself: trimming already drops trailing spaces. */
  lemma FolderCheckSeesTrimmedText(text: string, isFolder: string -> bool)
    ensures IsFolderPathValid(JavaTrim(text), isFolder) == isFolder(JavaTrim(text))
  {
    TrimFacts(text);
  }

  /** A check bnSaveActionPerformed runs. */
  datatype Check = ImageFolderCheck | ResultsFolderCheck | SharedFolderCheck

  /** Lines 1185-1216: the checks of each mode, in order. */
  function ChecksFor(mode: OptionsUiMode): seq<Check>
  {
    match mode
    case Utility => [ImageFolderCheck, ResultsFolderCheck]
    case Aim => [ImageFolderCheck, ResultsFolderCheck, SharedFolderCheck]
    case Review => [ResultsFolderCheck]
    case Standalone => []
    case DownloadingConfiguration => []
  }

  /** The texts and the checkbox the checks read. */
  datatype Fields = Fields(inputPath: string, outputPath: string, sharedSettingsPath: string, sharedSelected: bool)

  /** Whether each of the three checks passes. */
  datatype CheckResults = CheckResults(imageOk: bool, resultsOk: bool, sharedOk: bool)

  /** Lines 448-540: the outcome of each check; the shared-settings path is valid when the checkbox is unselected. */
  function ResultsOf(f: Fields, isFolder: string -> bool, hasAccess: string -> bool): CheckResults
  {
    CheckResults(PathCheck(f.inputPath, isFolder, hasAccess).None?,
                 PathCheck(f.outputPath, isFolder, hasAccess).None?,
                 !f.sharedSelected || PathCheck(f.sharedSettingsPath, isFolder, hasAccess).None?)
  }

  function Passes(c: Check, r: CheckResults): bool
  {
    match c
    case ImageFolderCheck => r.imageOk
    case ResultsFolderCheck => r.resultsOk
    case SharedFolderCheck => r.sharedOk
  }

  predicate AllPass(checks: seq<Check>, r: CheckResults)
  {
    forall i :: 0 <= i < |checks| ==> Passes(checks[i], r)
  }

  /**
   * Lines 1182-1221, on values: UTILITY saves iff the image and results paths
   * pass, AIM iff those and the shared path pass, REVIEW iff the results path
   * passes whatever the image path, and STANDALONE and DOWNLOADING_CONFIGURATION
   * always.
   */
  lemma SaveDispatch(mode: OptionsUiMode, r: CheckResults)
    ensures mode == Utility ==> (AllPass(ChecksFor(mode), r) <==> r.imageOk && r.resultsOk)
    ensures mode == Aim ==> (AllPass(ChecksFor(mode), r) <==> r.imageOk && r.resultsOk && r.sharedOk)
    ensures mode == Review ==> (AllPass(ChecksFor(mode), r) <==> r.resultsOk)
    ensures mode == Standalone || mode == DownloadingConfiguration ==> AllPass(ChecksFor(mode), r)
  {
    var checks := ChecksFor(mode);
    if mode == Utility || mode == Aim {
      assert checks[0] == ImageFolderCheck && checks[1] == ResultsFolderCheck;
      if mode == Aim { assert checks[2] == SharedFolderCheck; }
    } else if mode == Review {
      assert checks[0] == ResultsFolderCheck;
    }
  }

  /** Lines 510-513: an unselected shared-config checkbox never blocks Save, whatever its text. */
  lemma UnselectedSharedNeverBlocks(f: Fields, isFolder: string -> bool, hasAccess: string -> bool)
    requires !f.sharedSelected
    ensures ResultsOf(f, isFolder, hasAccess).sharedOk
    ensures AllPass(ChecksFor(Aim), ResultsOf(f, isFolder, hasAccess)) <==>
              PathCheck(f.inputPath, isFolder, hasAccess).None? && PathCheck(f.outputPath, isFolder, hasAccess).None?
  {
    SaveDispatch(Aim, ResultsOf(f, isFolder, hasAccess));
  }

  // ---------------------------------------------------------------------------
  // The panel
  // ---------------------------------------------------------------------------

  class AutoIngestSettingsPanel {
    /** The controls that are enabled. */
    var enabled: set<Control>
    var radios: Radios
    var sharedConfigSelected: bool
    var inputPathText: string
    var outputPathText: string
    var sharedSettingsText: string
    /** The texts of the three error labels. */
    var imageFolderError: Option<PathError>
    var resultsFolderError: Option<PathError>
    var sharedSettingsError: Option<PathError>
    /** Whether the configuration-button error field says the shared configuration folder is invalid. */
    var sharedFolderInvalidShown: bool
    /** The checks run by Save, in order. */
    var checksRun: seq<Check>
    /** The modes store has written (None: store found no button selected). */
    var stores: seq<Option<SelectedMode>>
    /** How often the controller was told that the settings changed. */
    var controllerChanges: nat

    function CurrentFields(): Fields
      reads this`inputPathText, this`outputPathText, this`sharedSettingsText, this`sharedConfigSelected
    {
      Fields(inputPathText, outputPathText, sharedSettingsText, sharedConfigSelected)
    }

    /**
     * Lines 66-86: initComponents leaves the controls `initiallyEnabled` enabled
     * and no button or checkbox selected; the mode part of load(true) then
     * selects the stored mode's button and applies its table before the shared
     * checkbox is read from the preferences; the error labels are cleared.
     */
    constructor (initiallyEnabled: set<Control>, storedMode: Option<SelectedMode>)
      ensures !sharedConfigSelected
      ensures storedMode.None? ==> radios == Radios(false, false, false, false) && enabled == initiallyEnabled
      ensures storedMode.Some? ==>
                && radios == RadiosFor(storedMode.value)
                && forall c :: (c in enabled) ==
                     EnabledAfter(ModeTable(UiModeOf(storedMode.value), c, false, radios.automated), c in initiallyEnabled)
      ensures imageFolderError == None && resultsFolderError == None && sharedSettingsError == None
      ensures !sharedFolderInvalidShown && checksRun == [] && stores == [] && controllerChanges == 0
    {
      enabled := initiallyEnabled;
      radios := Radios(false, false, false, false);
      sharedConfigSelected := false;
      inputPathText, outputPathText, sharedSettingsText := "", "", "";
      imageFolderError, resultsFolderError, sharedSettingsError := None, None, None;
      sharedFolderInvalidShown := false;
      checksRun, stores, controllerChanges := [], [], 0;
      new;
      LoadMode(storedMode);
    }

    /** setEnabled(on) on each control of a group. */
    method SetGroupEnabled(group: set<Control>, on: bool)
      modifies this`enabled
      ensures enabled == With(old(enabled), group, on)
    {
      enabled := With(enabled, group, on);
    }

    method SetEnabled(c: Control, on: bool)
      modifies this`enabled
      ensures enabled == With(old(enabled), {c}, on)
    {
      enabled := With(enabled, {c}, on);
    }

    /** Lines 1445-1469 */
    method SetEnabledState(on: bool)
      modifies this`enabled
      ensures forall c :: (c in enabled) ==
                EnabledAfter(EnabledStateTable(on, c, sharedConfigSelected, radios.automated), c in old(enabled))
    {
      SetGroupEnabled(EnabledStateControls, on);
      SetEnabled(BrowseSharedSettingsButton, sharedConfigSelected && radios.automated);
    }

    /** Lines 569-594, with the calls in the order of the source. */
    method EnableOptionsBasedOnMode(mode: OptionsUiMode)
      modifies this`enabled
      ensures forall c :: (c in enabled) ==
                EnabledAfter(ModeTable(mode, c, sharedConfigSelected, radios.automated), c in old(enabled))
    {
      if mode != DownloadingConfiguration {
        ghost var e0 := enabled;
        SetGroupEnabled(InputFolderControls, mode == Utility || mode == Aim);
        SetGroupEnabled(OutputFolderControls, mode == Utility || mode == Aim || mode == Review);
        SetEnabled(PanelSharedConfig, mode == Utility || mode == Aim);
        SetGroupEnabled(AimOnlyControls, mode == Aim);
        SetEnabled(MasterNodeCheckBox, mode == Aim && sharedConfigSelected);
        forall c {
          ModeSteps(mode, e0, sharedConfigSelected, radios.automated, c);
        }
      } else {
        SetEnabledState(false);
      }
    }

    /** Lines 112-134, the mode part of load(true): select the stored mode's button and enable its controls. */
    method LoadMode(storedMode: Option<SelectedMode>)
      modifies this`radios, this`enabled
      ensures storedMode.None? ==> radios == old(radios) && enabled == old(enabled)
      ensures storedMode.Some? ==>
                && radios == RadiosFor(storedMode.value)
                && ModeFromRadioButtons(radios) == UiModeOf(storedMode.value)
                && forall c :: (c in enabled) ==
                     EnabledAfter(ModeTable(UiModeOf(storedMode.value), c, sharedConfigSelected, radios.automated),
                                  c in old(enabled))
    {
      if storedMode.Some? {
        radios := RadiosFor(storedMode.value);
        EnableOptionsBasedOnMode(UiModeOf(storedMode.value));
      }
    }

    /** Lines 448-474 */
    method ValidateImagePath(isFolder: string -> bool, hasAccess: string -> bool) returns (ok: bool)
      modifies this`imageFolderError
      ensures imageFolderError == PathCheck(inputPathText, isFolder, hasAccess)
      ensures ok == imageFolderError.None?
    {
      imageFolderError := PathCheck(inputPathText, isFolder, hasAccess);
      ok := imageFolderError.None?;
    }

    /** Lines 479-505 */
    method ValidateResultsPath(isFolder: string -> bool, hasAccess: string -> bool) returns (ok: bool)
      modifies this`resultsFolderError
      ensures resultsFolderError == PathCheck(outputPathText, isFolder, hasAccess)
      ensures ok == resultsFolderError.None?
    {
      resultsFolderError := PathCheck(outputPathText, isFolder, hasAccess);
      ok := resultsFolderError.None?;
    }

    /** Lines 510-540: valid, and the label untouched, when the checkbox is unselected. */
    method ValidateSharedSettingsPath(isFolder: string -> bool, hasAccess: string -> bool) returns (ok: bool)
      modifies this`sharedSettingsError
      ensures sharedSettingsError == if sharedConfigSelected then PathCheck(sharedSettingsText, isFolder, hasAccess)
                                     else old(sharedSettingsError)
      ensures ok == ResultsOf(CurrentFields(), isFolder, hasAccess).sharedOk
    {
      if !sharedConfigSelected {
        return true;
      }
      sharedSettingsError := PathCheck(sharedSettingsText, isFolder, hasAccess);
      ok := sharedSettingsError.None?;
    }

    /** One validator of bnSaveActionPerformed, recorded in checksRun. */
    method RunCheck(c: Check, isFolder: string -> bool, hasAccess: string -> bool) returns (ok: bool)
      modifies this`checksRun, this`imageFolderError, this`resultsFolderError, this`sharedSettingsError
      ensures checksRun == old(checksRun) + [c]
      ensures ok == Passes(c, ResultsOf(CurrentFields(), isFolder, hasAccess))
      ensures imageFolderError == if c == ImageFolderCheck then PathCheck(inputPathText, isFolder, hasAccess)
                                  else old(imageFolderError)
      ensures resultsFolderError == if c == ResultsFolderCheck then PathCheck(outputPathText, isFolder, hasAccess)
                                    else old(resultsFolderError)
      ensures sharedSettingsError == if c == SharedFolderCheck && sharedConfigSelected
                                     then PathCheck(sharedSettingsText, isFolder, hasAccess)
                                     else old(sharedSettingsError)
    {
      checksRun := checksRun + [c];
      match c
      case ImageFolderCheck => ok := ValidateImagePath(isFolder, hasAccess);
      case ResultsFolderCheck => ok := ValidateResultsPath(isFolder, hasAccess);
      case SharedFolderCheck => ok := ValidateSharedSettingsPath(isFolder, hasAccess);
    }

    /** The image and results checks that UTILITY (lines 1187-1192) and AIM (lines 1195-1200) start with. */
    method RunFolderChecks(isFolder: string -> bool, hasAccess: string -> bool) returns (ok: bool)
      modifies this`checksRun, this`imageFolderError, this`resultsFolderError, this`sharedSettingsError
      ensures checksRun == old(checksRun) + [ImageFolderCheck, ResultsFolderCheck]
      ensures ok == (ResultsOf(CurrentFields(), isFolder, hasAccess).imageOk
                     && ResultsOf(CurrentFields(), isFolder, hasAccess).resultsOk)
      ensures imageFolderError == PathCheck(inputPathText, isFolder, hasAccess)
      ensures resultsFolderError == PathCheck(outputPathText, isFolder, hasAccess)
      ensures sharedSettingsError == old(sharedSettingsError)
    {
      ok := true;
      var okImage := RunCheck(ImageFolderCheck, isFolder, hasAccess);
      if !okImage { ok := false; }
      var okResults := RunCheck(ResultsFolderCheck, isFolder, hasAccess);
      if !okResults { ok := false; }
    }

    /**
     * Lines 1185-1216: every check of the mode runs (no short circuit), and a
     * failed shared check in AIM mode shows its error in the configuration
     * button field.
     */
    method RunModeChecks(mode: OptionsUiMode, isFolder: string -> bool, hasAccess: string -> bool)
      returns (isValidNodePanel: bool)
      modifies this`checksRun, this`imageFolderError, this`resultsFolderError, this`sharedSettingsError,
               this`sharedFolderInvalidShown
      ensures var res := ResultsOf(CurrentFields(), isFolder, hasAccess);
              && checksRun == old(checksRun) + ChecksFor(mode)
              && isValidNodePanel == AllPass(ChecksFor(mode), res)
              && sharedFolderInvalidShown == (old(sharedFolderInvalidShown) || (mode == Aim && !res.sharedOk))
      ensures imageFolderError == if ImageFolderCheck in ChecksFor(mode) then PathCheck(inputPathText, isFolder, hasAccess)
                                  else old(imageFolderError)
      ensures resultsFolderError == if ResultsFolderCheck in ChecksFor(mode) then PathCheck(outputPathText, isFolder, hasAccess)
                                    else old(resultsFolderError)
      ensures sharedSettingsError == if SharedFolderCheck in ChecksFor(mode) && sharedConfigSelected
                                     then PathCheck(sharedSettingsText, isFolder, hasAccess)
                                     else old(sharedSettingsError)
    {
      isValidNodePanel := true;
      ghost var res := ResultsOf(CurrentFields(), isFolder, hasAccess);
      SaveDispatch(mode, res);
      var ok;
      match mode {
        case Utility =>
          ok := RunFolderChecks(isFolder, hasAccess);
          if !ok { isValidNodePanel := false; }
        case Aim =>
          ok := RunFolderChecks(isFolder, hasAccess);
          if !ok { isValidNodePanel := false; }
          ghost var checks1 := checksRun;
          ok := RunCheck(SharedFolderCheck, isFolder, hasAccess);
          if !ok {
            isValidNodePanel := false;
            sharedFolderInvalidShown := true;
          }
          assert checksRun == checks1 + [SharedFolderCheck];
        case Review =>
          ok := RunCheck(ResultsFolderCheck, isFolder, hasAccess);
          if !ok { isValidNodePanel := false; }
          assert ImageFolderCheck !in ChecksFor(mode) && SharedFolderCheck !in ChecksFor(mode);
        case Standalone =>
        case DownloadingConfiguration =>
      }
    }

    /**
     * Lines 1182-1221: the checks of the mode read from the radio buttons run,
     * and store and the controller's change notice happen only when every one
     * of them passed.
     */
    method BnSaveActionPerformed(isFolder: string -> bool, hasAccess: string -> bool)
      modifies this`checksRun, this`imageFolderError, this`resultsFolderError, this`sharedSettingsError,
               this`sharedFolderInvalidShown, this`stores, this`controllerChanges
      ensures var mode := ModeFromRadioButtons(radios);
              var res := ResultsOf(CurrentFields(), isFolder, hasAccess);
              var pass := AllPass(ChecksFor(mode), res);
              && checksRun == old(checksRun) + ChecksFor(mode)
              && stores == old(stores) + (if pass then [StoredMode(radios)] else [])
              && controllerChanges == old(controllerChanges) + (if pass then 1 else 0)
              && sharedFolderInvalidShown == (old(sharedFolderInvalidShown) || (mode == Aim && !res.sharedOk))
      ensures var mode := ModeFromRadioButtons(radios);
              && imageFolderError == (if ImageFolderCheck in ChecksFor(mode)
                                      then PathCheck(inputPathText, isFolder, hasAccess) else old(imageFolderError))
              && resultsFolderError == (if ResultsFolderCheck in ChecksFor(mode)
                                        then PathCheck(outputPathText, isFolder, hasAccess) else old(resultsFolderError))
              && sharedSettingsError == (if SharedFolderCheck in ChecksFor(mode) && sharedConfigSelected
                                         then PathCheck(sharedSettingsText, isFolder, hasAccess)
                                         else old(sharedSettingsError))
    {
      var mode := ModeFromRadioButtons(radios);
      var isValidNodePanel := RunModeChecks(mode, isFolder, hasAccess);
      if isValidNodePanel {
        stores := stores + [StoredMode(radios)];
        controllerChanges := controllerChanges + 1;
      }
    }
  }
}
