/** The button and file state of the standalone HARP editor
    (src/MainComponent.h): which of the process, cancel, save and load
    buttons are enabled and what they say, across clicks and broadcaster
    callbacks; the working copy made for each chosen file and the backup
    made when committing; and the transport's start/stop toggle.

    The web model, its thread pool and the job thread are outside: what the
    model reports (its card, its status, whether it is ready) comes in as
    parameters, and the messages its jobs send back arrive through
    `ChangeListenerCallback`. The disk is a map from path to contents. */
module Editor {
  import opened Wrappers
  import opened EditorStrings

  // ------------------------------------------------------------ file system

  type FileSystem = map<string, seq<bv8>>

  /** Whether a file operation reported success, and the disk after it. */
  datatype FileOp = FileOp(ok: bool, files: FileSystem)

  /** `File::copyFileTo`: copying a file onto itself succeeds and does
      nothing; a missing source fails before the destination is touched;
      otherwise the destination is replaced by the source's contents. */
  function CopyFile(fs: FileSystem, src: string, dst: string): (r: FileOp)
    ensures r.ok <==> src == dst || src in fs
    ensures r.ok ==> (dst in r.files <==> src in fs)
    ensures r.ok && src in fs ==> r.files[dst] == fs[src]
    ensures !r.ok ==> r.files == fs
    ensures forall p :: p != dst ==> (p in r.files <==> p in fs) && (p in fs ==> r.files[p] == fs[p])
  {
    if src == dst then FileOp(true, fs)
    else if src !in fs then FileOp(false, fs)
    else FileOp(true, fs[dst := fs[src]])
  }

  /** `File::moveFileTo`: moving a file onto itself succeeds and does
      nothing; a missing source fails; otherwise the contents move to the
      destination, replacing what was there, and the source is gone. */
  function MoveFile(fs: FileSystem, src: string, dst: string): (r: FileOp)
    ensures r.ok <==> src == dst || src in fs
    ensures !r.ok || src == dst ==> r.files == fs
    ensures r.ok && src != dst ==> src !in r.files && dst in r.files && r.files[dst] == fs[src]
    ensures forall p :: p != src && p != dst ==> (p in r.files <==> p in fs) && (p in fs ==> r.files[p] == fs[p])
  {
    if src == dst then FileOp(true, fs)
    else if src !in fs then FileOp(false, fs)
    else FileOp(true, (fs - {src})[dst := fs[src]])
  }

  /** The disk after `addNewAudioFile` copies `target` to its working copy. */
  function WithWorkingCopy(fs: FileSystem, documents: string, target: string): FileSystem
  {
    CopyFile(fs, target, WorkingCopyPath(documents, target)).files
  }

  /** The disk after the save button backs the target up and moves the
      working copy onto it (src/MainComponent.h:462-471). */
  function WithTargetReplaced(fs: FileSystem, working: string, target: string): FileSystem
  {
    MoveFile(CopyFile(fs, target, BackupPath(target)).files, working, target).files
  }

  /** The disk after committing (src/MainComponent.h:462-473): back the
      target up, move the working copy onto the target, then make a fresh
      working copy of the target. */
  function CommitFiles(fs: FileSystem, documents: string, working: string, target: string): FileSystem
  {
    WithWorkingCopy(WithTargetReplaced(fs, working, target), documents, target)
  }

  /** The working copy and the backup of a target are different files. */
  lemma BackupIsNotWorkingCopy(documents: string, target: string)
    ensures BackupPath(target) != WorkingCopyPath(documents, target)
  {
    var stem := FileNameWithoutExtension(target);
    BackupParts(target);
    WorkingCopyParts(documents, target);
    assert |FileNameWithoutExtension(BackupPath(target))| == |stem| + 7;
    assert |FileNameWithoutExtension(WorkingCopyPath(documents, target))| == |stem| + 5;
  }

  /** Committing the processed working copy is destructive but recoverable:
      afterwards the backup holds what the target held, the target and the
      new working copy hold the processed audio, and no other file changes. */
  lemma CommitKeepsBackup(fs: FileSystem, documents: string, target: string)
    requires target in fs && WorkingCopyPath(documents, target) in fs
    ensures var working := WorkingCopyPath(documents, target);
            var after := CommitFiles(fs, documents, working, target);
            && BackupPath(target) in after && after[BackupPath(target)] == fs[target]
            && target in after && after[target] == fs[working]
            && working in after && after[working] == fs[working]
            && forall p :: p != BackupPath(target) && p != target && p != working ==>
                 (p in after <==> p in fs) && (p in fs ==> after[p] == fs[p])
  {
    var working := WorkingCopyPath(documents, target);
    var backup := BackupPath(target);
    BackupIsNotWorkingCopy(documents, target);
    BackupParts(target);
    WorkingCopyParts(documents, target);
    var backedUp := CopyFile(fs, target, backup).files;
    assert backedUp[backup] == fs[target] && backedUp[working] == fs[working];
    var moved := MoveFile(backedUp, working, target).files;
    assert moved[target] == fs[working] && moved[backup] == fs[target];
  }

  // ----------------------------------------------------------------- model

  /** The parts of a model card the editor shows (Source/DeepLearning/Model.h:29-35). */
  datatype ModelCard = ModelCard(name: string, description: string, author: string)

  const EmptyCard := ModelCard("", "", "")

  /** The one kind of job the process button queues: run the model on the working copy. */
  datatype Job = ProcessCurrentFile

  /** The objects whose change messages the editor listens to. */
  datatype Broadcaster =
    | Thumbnail(droppedFile: string)   // a file dropped on the waveform view
    | LoadBroadcaster                  // the model finished loading, or failed to
    | ProcessBroadcaster               // the processing job finished
    | StatusTimer                      // the periodic status poll
    | Unknown

  const LoadingHint: string :=
    "...\n if this takes a while, check if the huggingface space is sleeping by visiting the space url below. Once the huggingface space is awake, try again."

  /** The text of the process button while a job runs. */
  function ProcessingText(modelName: string): (t: string)
    ensures |t| == |modelName| + 14
    ensures t[11..11 + |modelName|] == modelName
  {
    "processing " + modelName + "..."
  }

  /** The enable state and text of the process button and the enable state
      of the cancel button. */
  datatype ProcessButtons = ProcessButtons(processEnabled: bool, processText: string, cancelEnabled: bool)

  /** The status check made when the editor opens (src/MainComponent.h:587-594):
      a ready model opens the process button, a busy one opens cancel and
      shows the processing text, and any other status leaves both alone. */
  function StatusChecked(b: ProcessButtons, status: string, modelName: string): (b': ProcessButtons)
    ensures ClassifyStatus(status) == Ready ==>
              b'.processEnabled && b'.processText == "process" && b'.cancelEnabled == b.cancelEnabled
    ensures ClassifyStatus(status) == Busy ==>
              b'.cancelEnabled && b'.processText == ProcessingText(modelName) && b'.processEnabled == b.processEnabled
    ensures ClassifyStatus(status) == Other ==> b' == b
  {
    match ClassifyStatus(status)
    case Ready => b.(processEnabled := true, processText := "process")
    case Busy => b.(cancelEnabled := true, processText := ProcessingText(modelName))
    case Other => b
  }

  class MainComponent {
    // the four buttons
    var processText: string
    var processEnabled: bool
    var cancelEnabled: bool
    var saveEnabled: bool
    var loadText: string
    var loadEnabled: bool
    // the model card, status and link labels
    var nameText: string
    var descriptionText: string
    var authorText: string
    var statusText: string
    var modelPathText: string
    var spaceUrlText: string
    var spaceUrl: string
    // the jobs
    var customJobs: seq<Job>
    var processSignals: nat        // times the job thread was woken
    var pendingLoads: seq<string>  // model URLs handed to the load pool
    // the audio file and its working copy
    const documents: string
    var currentAudioFile: string
    var currentAudioFileTarget: string
    var files: FileSystem
    // the transport and the waveform view
    var playing: bool
    var position: real
    var source: Option<string>
    var thumbnailFile: string
    var zoom: real

    /** The transport only plays with a source loaded and reads position 0
        without one, and at most one processing job is queued. */
    ghost predicate Valid()
      reads this
    {
      (playing ==> source.Some?) && (source.None? ==> position == 0.0) && |customJobs| <= 1
    }

    /** Sets up the buttons and labels for a model that reports `ready`,
        `status` and `card`, with no file open (src/MainComponent.h:338,
        406-408, 454, 476-488, 587-598, 614-616, 643). Opening an initial
        file is `OpenInitialFile`, run on the new editor. */
    constructor (documentsDirectory: string, disk: FileSystem, ready: bool,
                 status: string, card: ModelCard, modelSpaceUrl: string)
      ensures Valid()
      ensures ShowsModel(ready, status, card, modelSpaceUrl)
      ensures documents == documentsDirectory
      ensures customJobs == [] && pendingLoads == [] && !playing && position == 0.0
      ensures files == disk && source == None && currentAudioFileTarget == "" && currentAudioFile == ""
    {
      var buttons := StatusChecked(ProcessButtons(ready, "process", false), status, card.name);
      processText := buttons.processText;
      processEnabled := buttons.processEnabled;
      saveEnabled := false;
      cancelEnabled := buttons.cancelEnabled;
      loadText := "load";
      loadEnabled := true;
      // the labels `setModelCard` fills in, set before the object is complete
      nameText, descriptionText, authorText := card.name, card.description, AuthorLabel(card.author);
      statusText := status;
      modelPathText := if ready then modelSpaceUrl else "";
      spaceUrlText, spaceUrl := "", "";
      customJobs := [];
      processSignals := 0;
      pendingLoads := [];
      documents := documentsDirectory;
      currentAudioFile, currentAudioFileTarget := "", "";
      files := disk;
      playing := false;
      position := 0.0;
      source := None;
      thumbnailFile := "";
      zoom := 0.0;
      new;
    }

    /** The buttons and labels of a freshly opened editor for a model that
        reports `ready`, `status` and `card`: process is enabled iff the model
        is ready or its status is ready, cancel iff its status is busy; save
        is locked and load open; the labels show the status, the model's
        space URL when it is ready, and the card. */
    ghost predicate ShowsModel(ready: bool, status: string, card: ModelCard, modelSpaceUrl: string)
      reads this`processEnabled, this`cancelEnabled, this`processText, this`saveEnabled,
            this`loadEnabled, this`loadText, this`statusText, this`modelPathText,
            this`nameText, this`descriptionText, this`authorText
    {
      && processEnabled == (ready || ClassifyStatus(status) == Ready)
      && cancelEnabled == (ClassifyStatus(status) == Busy)
      && processText == (if ClassifyStatus(status) == Busy then ProcessingText(card.name) else "process")
      && !saveEnabled && loadEnabled && loadText == "load"
      && statusText == status && modelPathText == (if ready then modelSpaceUrl else "")
      && nameText == card.name && descriptionText == card.description && authorText == AuthorLabel(card.author)
    }

    /** `f` is the current target, its working copy was made on `disk` and
        is current, and the transport holds it iff it exists. */
    ghost predicate OpenedFile(f: string, disk: FileSystem)
      reads this`currentAudioFileTarget, this`currentAudioFile, this`files, this`source
    {
      && currentAudioFileTarget == f
      && currentAudioFile == WorkingCopyPath(documents, f)
      && files == WithWorkingCopy(disk, documents, f)
      && source == (if currentAudioFile in files then Some(currentAudioFile) else None)
    }

    /** Loading the initial file when the editor opens (src/MainComponent.h:386-390);
        a URL that is not a local file is `None`. */
    method OpenInitialFile(initialFile: Option<string>)
      requires Valid()
      modifies this`currentAudioFileTarget, this`currentAudioFile, this`files,
               this`playing, this`position, this`source, this`zoom, this`thumbnailFile
      ensures Valid()
      ensures initialFile.None? ==>
                && unchanged(this`currentAudioFileTarget, this`currentAudioFile, this`files)
                && unchanged(this`playing, this`position, this`source, this`zoom, this`thumbnailFile)
      ensures initialFile.Some? ==> OpenedFile(initialFile.value, old(files)) && !playing && position == 0.0
    {
      if initialFile.Some? {
        AddNewAudioFile(initialFile.value);
      }
    }

    /** `setModelCard` (src/MainComponent.h:800-808). */
    method SetModelCard(card: ModelCard)
      modifies this`nameText, this`descriptionText, this`authorText
      ensures nameText == card.name && descriptionText == card.description
      ensures authorText == AuthorLabel(card.author)
    {
      nameText := card.name;
      descriptionText := card.description;
      authorText := AuthorLabel(card.author);
    }

    /** `resetUI` (src/MainComponent.h:793-798): an empty model card. */
    method ResetUI()
      modifies this`nameText, this`descriptionText, this`authorText
      ensures nameText == "" && descriptionText == "" && authorText == ""
    {
      SetModelCard(EmptyCard);
    }

    /** The process button (src/MainComponent.h:410-450): lock the process
        and save buttons, open cancel, and queue exactly one job. */
    method OnProcessClick(modelName: string)
      requires Valid()
      modifies this`processText, this`processEnabled, this`cancelEnabled, this`saveEnabled,
               this`customJobs, this`processSignals
      ensures Valid()
      ensures processText == ProcessingText(modelName)
      ensures !processEnabled && cancelEnabled && !saveEnabled
      ensures customJobs == [ProcessCurrentFile]
      ensures processSignals == old(processSignals) + 1
    {
      processText := ProcessingText(modelName);
      processEnabled := false;
      cancelEnabled := true;
      saveEnabled := false;
      customJobs := [];
      customJobs := customJobs + [ProcessCurrentFile];
      processSignals := processSignals + 1;
    }

    /** The load button (src/MainComponent.h:490-583): clear the card, hand
        the URL to the load pool, lock load and process, and point the space
        link at the normalised URL. */
    method OnLoadClick(url: string)
      modifies this`nameText, this`descriptionText, this`authorText, this`pendingLoads,
               this`loadEnabled, this`loadText, this`processEnabled, this`spaceUrlText, this`spaceUrl
      ensures pendingLoads == old(pendingLoads) + [url]
      ensures !loadEnabled && loadText == "loading..." && !processEnabled
      ensures nameText == "" && authorText == ""
      ensures descriptionText == "loading " + url + LoadingHint
      ensures spaceUrlText == "open " + url + " in browser"
      ensures spaceUrl == SpaceUrl(url)
    {
      ResetUI();
      pendingLoads := pendingLoads + [url];
      loadEnabled := false;
      loadText := "loading...";
      processEnabled := false;
      descriptionText := "loading " + url + LoadingHint;
      spaceUrlText := "open " + url + " in browser";
      spaceUrl := SpaceUrl(url);
    }

    /** What the load job does on the editor when loading throws or times
        out (src/MainComponent.h:507-519, 529-538), besides resetting the
        model and sending the load message: saving is locked. */
    method OnLoadFailure()
      modifies this`saveEnabled
      ensures !saveEnabled
    {
      saveEnabled := false;
    }

    /** The save button (src/MainComponent.h:456-475): back the target up
        next to itself, move the working copy onto it, start over from the
        committed file, and lock saving. */
    method OnSaveClick()
      requires Valid()
      modifies this`currentAudioFileTarget, this`currentAudioFile, this`files, this`saveEnabled,
               this`playing, this`position, this`source, this`zoom, this`thumbnailFile
      ensures Valid()
      ensures files == CommitFiles(old(files), documents, old(currentAudioFile), old(currentAudioFileTarget))
      ensures currentAudioFileTarget == old(currentAudioFileTarget)
      ensures currentAudioFile == WorkingCopyPath(documents, currentAudioFileTarget)
      ensures !saveEnabled && !playing
      ensures source == if currentAudioFile in files then Some(currentAudioFile) else None
      ensures position == 0.0
      ensures source.Some? ==> zoom == 0.0 && thumbnailFile == currentAudioFile
      ensures source.None? ==> zoom == old(zoom) && thumbnailFile == old(thumbnailFile)
    {
      var target := currentAudioFileTarget;
      ReplaceTarget();
      AddNewAudioFile(target);
      assert files == CommitFiles(old(files), documents, old(currentAudioFile), target);
      saveEnabled := false;
    }

    /** The file moves of the save button (src/MainComponent.h:462-471):
        copy the target to its backup, then move the working copy onto the
        target; neither result is checked. */
    method ReplaceTarget()
      modifies this`files
      ensures files == WithTargetReplaced(old(files), currentAudioFile, currentAudioFileTarget)
    {
      var backupFile := BackupPath(currentAudioFileTarget);
      var copied := CopyFile(files, currentAudioFileTarget, backupFile);
      files := copied.files;
      var moved := MoveFile(files, currentAudioFile, currentAudioFileTarget);
      files := moved.files;
    }

    /** `addNewAudioFile` (src/MainComponent.h:893-912): remember the target,
        copy it to its working copy under the documents folder and show that. */
    method AddNewAudioFile(resource: string)
      requires Valid()
      modifies this`currentAudioFileTarget, this`currentAudioFile, this`files,
               this`playing, this`position, this`source, this`zoom, this`thumbnailFile
      ensures Valid()
      ensures currentAudioFileTarget == resource
      ensures currentAudioFile == WorkingCopyPath(documents, resource)
      ensures files == WithWorkingCopy(old(files), documents, resource)
      ensures !playing
      ensures source == if currentAudioFile in files then Some(currentAudioFile) else None
      ensures position == 0.0
      ensures source.Some? ==> zoom == 0.0 && thumbnailFile == currentAudioFile
      ensures source.None? ==> zoom == old(zoom) && thumbnailFile == old(thumbnailFile)
    {
      currentAudioFileTarget := resource;
      currentAudioFile := WorkingCopyPath(documents, currentAudioFileTarget);
      var copied := CopyFile(files, currentAudioFileTarget, currentAudioFile);
      files := copied.files;
      ShowAudioResource(currentAudioFile);
    }

    /** `showAudioResource` (src/MainComponent.h:880-891): loads the current
        working copy whatever `resource` says, and on success resets the
        zoom and points the waveform view at it. */
    method ShowAudioResource(resource: string)
      requires Valid()
      modifies this`playing, this`position, this`source, this`zoom, this`thumbnailFile
      ensures Valid()
      ensures !playing
      ensures source == if currentAudioFile in files then Some(currentAudioFile) else None
      ensures position == 0.0
      ensures source.Some? ==> zoom == 0.0 && thumbnailFile == currentAudioFile
      ensures source.None? ==> zoom == old(zoom) && thumbnailFile == old(thumbnailFile)
    {
      var loaded := LoadUrlIntoTransport(currentAudioFile);
      if !loaded {
        return;
      }
      zoom := 0.0;
      thumbnailFile := currentAudioFile;
    }

    /** `loadURLIntoTransport` (src/MainComponent.h:914-945): stop and drop
        the old source, then plug in the file if it can be opened. */
    method LoadUrlIntoTransport(url: string) returns (ok: bool)
      requires Valid()
      modifies this`playing, this`position, this`source
      ensures Valid()
      ensures ok <==> url in files
      ensures !playing
      ensures source == if ok then Some(url) else None
      ensures position == 0.0
    {
      playing := false;
      source := None;
      position := 0.0;
      if url !in files {
        return false;
      }
      source := Some(url);
      return true;
    }

    /** `startOrStop` (src/MainComponent.h:947-958): a playing transport
        stops; a stopped one rewinds and starts, which takes only when a
        source is loaded. */
    method StartOrStop()
      requires Valid()
      modifies this`playing, this`position
      ensures Valid()
      ensures playing == (!old(playing) && source.Some?)
      ensures source.Some? ==> playing == !old(playing)
      ensures !old(playing) && source.Some? ==> position == 0.0
      ensures old(playing) || source.None? ==> position == old(position)
    {
      if playing {
        playing := false;
      } else {
        if source.Some? {
          position := 0.0;
        }
        if source.Some? {
          playing := true;
        }
      }
    }

    /** The load message: show the new card and reopen the process and load buttons. */
    method OnModelLoaded(card: ModelCard)
      modifies this`nameText, this`descriptionText, this`authorText,
               this`processEnabled, this`loadEnabled, this`loadText
      ensures nameText == card.name && descriptionText == card.description
      ensures authorText == AuthorLabel(card.author)
      ensures processEnabled && loadEnabled && loadText == "load"
    {
      SetModelCard(card);
      processEnabled := true;
      loadEnabled := true;
      loadText := "load";
    }

    /** The processing message: show the processed working copy, reopen
        process and save, and close cancel. */
    method OnProcessFinished()
      requires Valid()
      modifies this`playing, this`position, this`source, this`zoom, this`thumbnailFile,
               this`processText, this`processEnabled, this`cancelEnabled, this`saveEnabled
      ensures Valid()
      ensures processText == "process" && processEnabled && !cancelEnabled && saveEnabled
      ensures source == if currentAudioFile in files then Some(currentAudioFile) else None
      ensures !playing
      ensures position == 0.0
      ensures source.Some? ==> zoom == 0.0 && thumbnailFile == currentAudioFile
      ensures source.None? ==> zoom == old(zoom) && thumbnailFile == old(thumbnailFile)
    {
      ShowAudioResource(currentAudioFile);
      processText := "process";
      processEnabled := true;
      cancelEnabled := false;
      saveEnabled := true;
    }

    /** `changeListenerCallback` (src/MainComponent.h:1014-1053). `card` and
        `status` are what the model reports at the time of the message. Each
        branch states every field the callback may change. */
    method ChangeListenerCallback(from: Broadcaster, card: ModelCard, status: string)
      requires Valid()
      modifies this`currentAudioFileTarget, this`currentAudioFile, this`files,
               this`playing, this`position, this`source, this`zoom, this`thumbnailFile,
               this`nameText, this`descriptionText, this`authorText, this`statusText,
               this`processText, this`processEnabled, this`cancelEnabled, this`saveEnabled,
               this`loadText, this`loadEnabled
      ensures Valid()
      // a dropped file: a new target and working copy, shown in the transport
      ensures from.Thumbnail? ==>
                && currentAudioFileTarget == from.droppedFile
                && currentAudioFile == WorkingCopyPath(documents, from.droppedFile)
                && files == WithWorkingCopy(old(files), documents, from.droppedFile)
                && !playing
                && source == (if currentAudioFile in files then Some(currentAudioFile) else None)
                && position == 0.0
                && (source.Some? ==> zoom == 0.0 && thumbnailFile == currentAudioFile)
                && (source.None? ==> zoom == old(zoom) && thumbnailFile == old(thumbnailFile))
                && unchanged(this`nameText, this`descriptionText, this`authorText, this`statusText)
                && unchanged(this`processText, this`processEnabled, this`cancelEnabled, this`saveEnabled)
                && unchanged(this`loadText, this`loadEnabled)
      // the model finished loading: its card is shown, process and load reopen
      ensures from == LoadBroadcaster ==>
                && nameText == card.name && descriptionText == card.description
                && authorText == AuthorLabel(card.author)
                && processEnabled && loadEnabled && loadText == "load"
                && unchanged(this`currentAudioFileTarget, this`currentAudioFile, this`files)
                && unchanged(this`playing, this`position, this`source, this`zoom, this`thumbnailFile)
                && unchanged(this`statusText, this`processText, this`cancelEnabled, this`saveEnabled)
      // processing finished: the working copy is reloaded, process and save reopen, cancel closes
      ensures from == ProcessBroadcaster ==>
                && processText == "process" && processEnabled && !cancelEnabled && saveEnabled
                && !playing
                && source == (if currentAudioFile in files then Some(currentAudioFile) else None)
                && position == 0.0
                && (source.Some? ==> zoom == 0.0 && thumbnailFile == currentAudioFile)
                && (source.None? ==> zoom == old(zoom) && thumbnailFile == old(thumbnailFile))
                && unchanged(this`currentAudioFileTarget, this`currentAudioFile, this`files)
                && unchanged(this`nameText, this`descriptionText, this`authorText, this`statusText)
                && unchanged(this`loadText, this`loadEnabled)
      // the status poll: only the status label changes
      ensures from == StatusTimer ==>
                && statusText == status
                && unchanged(this`currentAudioFileTarget, this`currentAudioFile, this`files)
                && unchanged(this`playing, this`position, this`source, this`zoom, this`thumbnailFile)
                && unchanged(this`nameText, this`descriptionText, this`authorText)
                && unchanged(this`processText, this`processEnabled, this`cancelEnabled, this`saveEnabled)
                && unchanged(this`loadText, this`loadEnabled)
      ensures from == Unknown ==> unchanged(this)
    {
      match from
      case Thumbnail(dropped) =>
        AddNewAudioFile(dropped);
      case LoadBroadcaster =>
        OnModelLoaded(card);
      case ProcessBroadcaster =>
        OnProcessFinished();
      case StatusTimer =>
        statusText := status;
      case Unknown =>
    }
  }
}
