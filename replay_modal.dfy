/**
 * The motion-replay modal: which exercises of a session have recordings, which
 * recording folder is selected, the frame URLs the modal builds for it (its own rule,
 * narrower than `buildFrameUrls`: only `smpl_data` folders are replayed), what its
 * right-hand panel shows, and the open/close state kept by `useMotionReplayModal`.
 */
module ReplayModal {
  import opened Wrappers
  import opened Text
  import opened FrameSource

  /** A recording folder; its path may be missing. */
  datatype Folder = Folder(path: Option<string>)

  /** An exercise of a session, with its recording folders when it has any. */
  datatype MotionExercise = MotionExercise(name: string, gcsFolders: Option<seq<Folder>>)

  datatype Session = Session(exercises: Option<seq<MotionExercise>>)

  predicate HasMotion(ex: MotionExercise) {
    ex.gcsFolders.Some? && |ex.gcsFolders.value| > 0
  }

  function FilterMotion(exercises: seq<MotionExercise>): (r: seq<MotionExercise>)
    ensures |r| <= |exercises|
    ensures forall k :: 0 <= k < |r| ==> HasMotion(r[k])
    ensures forall ex :: ex in r <==> ex in exercises && HasMotion(ex)
  {
    if exercises == [] then []
    else (if HasMotion(exercises[0]) then [exercises[0]] else []) + FilterMotion(exercises[1..])
  }

  /** `exercisesWithMotion`: the exercises with at least one folder, in session order. */
  function ExercisesWithMotion(session: Option<Session>): (r: seq<MotionExercise>)
    ensures session.None? || session.value.exercises.None? ==> r == []
    ensures forall k :: 0 <= k < |r| ==> HasMotion(r[k])
  {
    if session.None? || session.value.exercises.None? then []
    else FilterMotion(session.value.exercises.value)
  }

  predicate IsSubsequence<T(==)>(xs: seq<T>, ys: seq<T>)
    decreases |ys|
  {
    xs == [] || (ys != [] && (if xs[0] == ys[0] then IsSubsequence(xs[1..], ys[1..]) else IsSubsequence(xs, ys[1..])))
  }

  /** The filter keeps the session's order: its result is a subsequence of the exercises. */
  lemma {:induction false} FilterMotionKeepsOrder(exercises: seq<MotionExercise>)
    ensures IsSubsequence(FilterMotion(exercises), exercises)
  {
    if exercises != [] {
      FilterMotionKeepsOrder(exercises[1..]);
      var rest := FilterMotion(exercises[1..]);
      if HasMotion(exercises[0]) {
        assert FilterMotion(exercises) == [exercises[0]] + rest;
        assert ([exercises[0]] + rest)[1..] == rest;
      } else {
        assert FilterMotion(exercises) == rest;
        assert rest == [] || rest[0] != exercises[0] by {
          if rest != [] {
            assert HasMotion(rest[0]);
          }
        }
      }
    }
  }

  /** `currentExercise?.gcs_folders?.[selectedRecordingIndex]`: undefined when either index is out of range. */
  function CurrentFolder(exercises: seq<MotionExercise>, exerciseIndex: nat, recordingIndex: nat): (f: Option<Folder>)
    ensures f.Some? <==>
              exerciseIndex < |exercises| && exercises[exerciseIndex].gcsFolders.Some? &&
              recordingIndex < |exercises[exerciseIndex].gcsFolders.value|
    ensures f.Some? ==> f.value == exercises[exerciseIndex].gcsFolders.value[recordingIndex]
  {
    if exerciseIndex < |exercises| then
      match exercises[exerciseIndex].gcsFolders
      case None => None
      case Some(folders) => if recordingIndex < |folders| then Some(folders[recordingIndex]) else None
    else None
  }

  /**
   * The modal's `frameUrls`: nothing without a path or file names, nothing unless the
   * path has four segments and the first is `smpl_data`; otherwise one legacy frame URL
   * per file name, in order.
   */
  function ModalFrameUrls(folder: Option<Folder>, frameFiles: seq<string>, storageBaseUrl: string): (r: seq<string>)
    ensures folder.None? || folder.value.path.None? || folder.value.path.value == "" || frameFiles == [] ==> r == []
    ensures (folder.Some? && folder.value.path.Some? &&
             (|Segments(folder.value.path.value)| < 4 || Segments(folder.value.path.value)[0] != "smpl_data")) ==>
              r == []
    ensures |r| == 0 || |r| == |frameFiles|
    ensures r != [] ==>
              var parts := Segments(folder.value.path.value);
              forall i :: 0 <= i < |r| ==>
                r[i] == storageBaseUrl + "/trainer-app/smpl/frame/" + FolderTail(parts[1], parts[2], parts[3]) + "/" + frameFiles[i]
  {
    if folder.None? || folder.value.path.None? || folder.value.path.value == "" || frameFiles == [] then []
    else
      var parts := Segments(folder.value.path.value);
      if |parts| < 4 || parts[0] != "smpl_data" then []
      else
        var prefix := storageBaseUrl + "/trainer-app/smpl/frame/" + FolderTail(parts[1], parts[2], parts[3]) + "/";
        seq(|frameFiles|, i requires 0 <= i < |frameFiles| => prefix + frameFiles[i])
  }

  /** For `smpl_data` folders the modal's URLs are exactly those of `buildFrameUrls`. */
  lemma ModalUrlsAgreeForSmplData(path: string, frameFiles: seq<string>, base: string)
    requires StartsWith(path, "smpl_data/")
    ensures ModalFrameUrls(Some(Folder(Some(path))), frameFiles, base) == BuildFrameUrls(path, frameFiles, base)
  {
    DetectStorageTypeByFirstSegment(path);
    var a := ModalFrameUrls(Some(Folder(Some(path))), frameFiles, base);
    var b := BuildFrameUrls(path, frameFiles, base);
    assert |a| == |b|;
  }

  /** A `pose_data` folder never gets URLs in the modal, although `buildFrameUrls` would give some. */
  lemma ModalRejectsPoseData(path: string, frameFiles: seq<string>, base: string)
    requires StartsWith(path, "pose_data/")
    ensures ModalFrameUrls(Some(Folder(Some(path))), frameFiles, base) == []
    ensures frameFiles != [] && |Segments(path)| >= 4 ==> |BuildFrameUrls(path, frameFiles, base)| == |frameFiles| > 0
  {
    DetectStorageTypeByFirstSegment(path);
    assert "pose_data" != "smpl_data" by { assert "pose_data"[0] != "smpl_data"[0]; }
  }

  /** The modal's right-hand panel. */
  datatype Panel =
    | PlayerPanel          // the player, given the frame URLs
    | LoadingFilesPanel    // spinner: "Loading frame files..."
    | PreparingPanel       // spinner: "Preparing motion data..."
    | NoRecordingsPanel    // "No Motion Recordings"

  function PanelFor(urlCount: nat, filesLoading: bool, motionCount: nat, folderSelected: bool): (p: Panel)
    ensures p == PlayerPanel <==> urlCount > 0
    ensures p == LoadingFilesPanel <==> urlCount == 0 && filesLoading
    ensures p == PreparingPanel <==> urlCount == 0 && !filesLoading && motionCount > 0 && folderSelected
    ensures p == NoRecordingsPanel <==> urlCount == 0 && !filesLoading && !(motionCount > 0 && folderSelected)
  {
    if urlCount > 0 then PlayerPanel
    else if filesLoading || (motionCount > 0 && folderSelected) then
      (if filesLoading then LoadingFilesPanel else PreparingPanel)
    else NoRecordingsPanel
  }

  /** Once its file names have arrived, a selected `pose_data` folder is stuck on the "Preparing" spinner. */
  lemma PoseDataShowsPreparing(exercises: seq<MotionExercise>, ei: nat, ri: nat, frameFiles: seq<string>, base: string)
    requires CurrentFolder(exercises, ei, ri).Some?
    requires CurrentFolder(exercises, ei, ri).value.path.Some?
    requires StartsWith(CurrentFolder(exercises, ei, ri).value.path.value, "pose_data/")
    ensures PanelFor(|ModalFrameUrls(CurrentFolder(exercises, ei, ri), frameFiles, base)|, false, |exercises|, true)
              == PreparingPanel
  {
    ModalRejectsPoseData(CurrentFolder(exercises, ei, ri).value.path.value, frameFiles, base);
  }

  /** The exercise and recording chosen in the modal. */
  class Selection {
    var selectedExerciseIndex: nat
    var selectedRecordingIndex: nat

    constructor ()
      ensures selectedExerciseIndex == 0 && selectedRecordingIndex == 0
    {
      selectedExerciseIndex, selectedRecordingIndex := 0, 0;
    }

    /** Choosing an exercise; a change of exercise resets the recording to the first one. */
    method SelectExercise(i: nat)
      modifies this
      ensures selectedExerciseIndex == i
      ensures i != old(selectedExerciseIndex) ==> selectedRecordingIndex == 0
      ensures i == old(selectedExerciseIndex) ==> selectedRecordingIndex == old(selectedRecordingIndex)
    {
      if i != selectedExerciseIndex {
        selectedExerciseIndex := i;
        selectedRecordingIndex := 0;
      }
    }

    method SelectRecording(j: nat)
      modifies this
      ensures selectedRecordingIndex == j && selectedExerciseIndex == old(selectedExerciseIndex)
    {
      selectedRecordingIndex := j;
    }
  }

  /** After switching to another exercise that has recordings, the selected folder is its first one. */
  method SwitchExercise(exercises: seq<MotionExercise>, from: nat, recording: nat, to: nat)
    returns (folder: Option<Folder>)
    requires from != to && to < |exercises| && HasMotion(exercises[to])
    ensures folder == Some(exercises[to].gcsFolders.value[0])
  {
    var s := new Selection();
    s.SelectExercise(from);
    s.SelectRecording(recording);
    s.SelectExercise(to);
    folder := CurrentFolder(exercises, s.selectedExerciseIndex, s.selectedRecordingIndex);
  }

  /** `useMotionReplayModal`: open flag, session and athlete name, and the delayed clear after closing. */
  class ModalState {
    var isOpen: bool
    var session: Option<Session>
    var athleteName: string
    /** The clear timers started by `closeModal` that have not fired yet. */
    var pendingClears: nat

    constructor ()
      ensures !isOpen && session == None && athleteName == "" && pendingClears == 0
    {
      isOpen, session, athleteName, pendingClears := false, None, "", 0;
    }

    method OpenModal(s: Session, name: string)
      modifies this
      ensures isOpen && session == Some(s) && athleteName == name && pendingClears == old(pendingClears)
    {
      session, athleteName, isOpen := Some(s), name, true;
    }

    /** Closing hides the modal at once and starts a 300 ms timer that clears the data. */
    method CloseModal()
      modifies this
      ensures !isOpen && session == old(session) && athleteName == old(athleteName)
      ensures pendingClears == old(pendingClears) + 1
    {
      isOpen := false;
      pendingClears := pendingClears + 1;
    }

    /** A clear timer fires: the session and name are cleared whatever the modal is doing now. */
    method ClearTimerFires()
      requires pendingClears > 0
      modifies this
      ensures session == None && athleteName == "" && isOpen == old(isOpen)
      ensures pendingClears == old(pendingClears) - 1
    {
      session, athleteName := None, "";
      pendingClears := pendingClears - 1;
    }
  }

  /**
   * The timer is not cancelled by a new `openModal`: reopening within 300 ms of a close
   * leaves the modal open with its session cleared.
   */
  method ReopenWithinDelay(first: Session, second: Session, name: string)
    returns (isOpen: bool, session: Option<Session>)
    ensures isOpen && session == None
  {
    var m := new ModalState();
    m.OpenModal(first, name);
    m.CloseModal();
    m.OpenModal(second, name);
    m.ClearTimerFires();
    isOpen, session := m.isOpen, m.session;
  }
}
