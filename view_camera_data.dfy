/**
 * The camera-data viewer: episodes of a recorded dataset are listed in
 * sorted name order and picked by index (Python indexing, negative indices
 * counting from the end); the display mode plays the chosen episode under a
 * key-driven (frame, paused) loop, and the export mode writes one image per
 * frame and one video per camera.
 *
 * An episode is described by what the viewer reads of it: the frame count of
 * each dataset in its "obs" group, or `None` when it has no such group.
 */
module CameraViewer {
  import opened Wrappers
  import opened StringOrder
  import opened Decimal

  datatype EpisodeGroup = EpisodeGroup(obs: Option<map<string, nat>>)

  /** The "data" group: episode groups by name. */
  type DataGroup = map<string, EpisodeGroup>

  const Wrist: string := "wrist"
  const Front: string := "front"

  /** `sorted(list(f["data"].keys()))`. */
  function Episodes(data: DataGroup): seq<string> {
    Sorted(data.Keys)
  }

  /** `episodes[i]` in Python: `None` where Python raises `IndexError`. */
  function PyIndex(names: seq<string>, i: int): (r: Option<string>)
    ensures r.Some? <==> -|names| <= i < |names|
  {
    if 0 <= i < |names| then Some(names[i])
    else if -|names| <= i < 0 then Some(names[|names| + i])
    else None
  }

  // ---------------------------------------------------------------------------
  // Display: choosing the episode and the cameras

  datatype DisplayError =
    | EpisodeNotFound(maxIndex: int)  // the index is past the end: reported, nothing shown
    | IndexError                      // a negative index before the start: Python raises
    | MissingObs                      // the episode has no "obs" group: Python raises `KeyError`
    | NoCameraData                    // neither camera recorded: reported, nothing shown
    | FrameIndexError(frame: nat)     // a camera the episode has holds no such frame: Python raises

  /** The episode chosen for display and the frame count of each camera it has. */
  datatype Selection = Selection(episode: string, wristFrames: Option<nat>, frontFrames: Option<nat>)

  function CameraFrames(obs: map<string, nat>, camera: string): Option<nat> {
    if camera in obs then Some(obs[camera]) else None
  }

  function SelectForDisplay(data: DataGroup, index: int): (r: Result<Selection, DisplayError>)
  {
    var names := Episodes(data);
    if index >= |names| then Err(EpisodeNotFound(|names| - 1))
    else
      match PyIndex(names, index)
      case None => Err(IndexError)
      case Some(name) =>
        match data[name].obs
        case None => Err(MissingObs)
        case Some(obs) =>
          if Wrist !in obs && Front !in obs then Err(NoCameraData)
          else Ok(Selection(name, CameraFrames(obs, Wrist), CameraFrames(obs, Front)))
  }

  /** The frame count as the script computes it: the wrist camera's when it is present, else the front camera's. */
  function FrameCountAsWritten(sel: Selection): nat {
    if sel.wristFrames.Some? then sel.wristFrames.value
    else if sel.frontFrames.Some? then sel.frontFrames.value
    else 0
  }

  /** The number of frames every present camera has: the shorter of the two when both are present. */
  function FrameCount(sel: Selection): (n: nat)
    ensures sel.wristFrames.Some? ==> n <= sel.wristFrames.value
    ensures sel.frontFrames.Some? ==> n <= sel.frontFrames.value
    ensures || (sel.wristFrames.Some? && n == sel.wristFrames.value)
            || (sel.frontFrames.Some? && n == sel.frontFrames.value)
            || (sel.wristFrames.None? && sel.frontFrames.None? && n == 0)
  {
    match (sel.wristFrames, sel.frontFrames)
    case (Some(w), Some(f)) => if w <= f then w else f
    case (Some(w), None) => w
    case (None, Some(f)) => f
    case (None, None) => 0
  }

  /** Frame `t` is held by every camera the episode has. */
  predicate FrameExists(sel: Selection, t: nat) {
    && (sel.wristFrames.Some? ==> t < sel.wristFrames.value)
    && (sel.frontFrames.Some? ==> t < sel.frontFrames.value)
  }

  // ---------------------------------------------------------------------------
  // Display: the playback loop

  /** `cv2.waitKey(...) & 0xFF`; a wait that times out yields 255. */
  newtype Key = k: int | 0 <= k < 256

  const QuitKey: Key := 113   // 'q'
  const PauseKey: Key := 112  // 'p'
  const StepKey: Key := 32    // ' '
  const NoKey: Key := 255     // no key pressed before the wait ran out

  datatype PlayState = PlayState(frameIdx: nat, paused: bool)

  /** One key press: `None` for quit, otherwise the next state. */
  function Step(s: PlayState, key: Key): Option<PlayState> {
    if key == QuitKey then None
    else if key == PauseKey then Some(s.(paused := !s.paused))
    else if key == StepKey then Some(PlayState(s.frameIdx + 1, true))
    else if !s.paused then Some(s.(frameIdx := s.frameIdx + 1))
    else Some(s)
  }

  /** The frames shown, in order, the state the loop stops in, and whether it stopped for 'q'. */
  datatype Playback = Playback(shown: seq<nat>, final: PlayState, quit: bool)

  /**
   * The loop from state `s` while the frame index is below `numFrames`; each
   * turn shows the current frame and consumes one key of `keys`. The loop
   * also stops when the keys run out; the frame it stops at has then been
   * read but not shown.
   */
  function Run(s: PlayState, numFrames: nat, keys: seq<Key>): Playback
    decreases |keys|
  {
    if s.frameIdx >= numFrames || keys == [] then Playback([], s, false)
    else
      match Step(s, keys[0])
      case None => Playback([s.frameIdx], s, true)
      case Some(next) =>
        var rest := Run(next, numFrames, keys[1..]);
        Playback([s.frameIdx] + rest.shown, rest.final, rest.quit)
  }

  const Start: PlayState := PlayState(0, false)

  /** Below the corrected count every frame exists; from it on, none does once the episode has a camera. */
  lemma FrameExistsBelowCount(sel: Selection)
    ensures forall t: nat :: t < FrameCount(sel) ==> FrameExists(sel, t)
    ensures FrameCountAsWritten(sel) > 0 ==> forall t: nat :: FrameExists(sel, t) ==> t < FrameCount(sel)
  {
  }

  /** Some frame the loop reaches is missing from a camera the episode has. */
  predicate Overruns(sel: Selection, shown: seq<nat>) {
    exists k | 0 <= k < |shown| :: !FrameExists(sel, shown[k])
  }

  /**
   * The run stopped for want of keys at a frame below the script's count
   * that a present camera lacks: the script reads a frame's images before
   * it waits for a key, so it raises there.
   */
  predicate StopsAtMissingFrame(sel: Selection, p: Playback) {
    !p.quit && p.final.frameIdx < FrameCountAsWritten(sel) && !FrameExists(sel, p.final.frameIdx)
  }

  /**
   * The script's playback of a selection: the key-driven run over the
   * script's frame count, which raises at the first frame a present camera
   * lacks, whether it is shown or the keys run out there; that frame is
   * always the shorter camera's length.
   */
  function PlaySpec(sel: Selection, keys: seq<Key>): Result<Playback, DisplayError> {
    var p := Run(Start, FrameCountAsWritten(sel), keys);
    if Overruns(sel, p.shown) || StopsAtMissingFrame(sel, p) then Err(FrameIndexError(FrameCount(sel))) else Ok(p)
  }

  /**
   * The playback loop after showing `shown`, in state `s` with `keys[i..]`
   * still to come: no frame shown so far is missing, the frame index has
   * not passed the corrected count, and the rest of the run completes the
   * whole run.
   */
  ghost predicate PlayInvariant(sel: Selection, keys: seq<Key>, shown: seq<nat>, s: PlayState, i: nat) {
    && i <= |keys|
    && s.frameIdx <= FrameCount(sel)
    && (forall k | 0 <= k < |shown| :: FrameExists(sel, shown[k]))
    && var rest := Run(s, FrameCountAsWritten(sel), keys[i..]);
       Run(Start, FrameCountAsWritten(sel), keys) == Playback(shown + rest.shown, rest.final, rest.quit)
  }

  /** One turn of the run: show the current frame, then take key `keys[i]`. */
  lemma RunUnfold(s: PlayState, numFrames: nat, keys: seq<Key>, i: nat)
    requires s.frameIdx < numFrames && i < |keys|
    ensures Step(s, keys[i]).None? ==> Run(s, numFrames, keys[i..]) == Playback([s.frameIdx], s, true)
    ensures Step(s, keys[i]).Some? ==>
      var rest := Run(Step(s, keys[i]).value, numFrames, keys[i + 1..]);
      Run(s, numFrames, keys[i..]) == Playback([s.frameIdx] + rest.shown, rest.final, rest.quit)
  {
    assert keys[i..][0] == keys[i] && keys[i..][1..] == keys[i + 1..];
  }

  /** Showing a frame every present camera holds and taking a key that does not quit keeps the invariant. */
  lemma PlayStep(sel: Selection, keys: seq<Key>, shown: seq<nat>, s: PlayState, i: nat, next: PlayState)
    requires PlayInvariant(sel, keys, shown, s, i) && i < |keys|
    requires s.frameIdx < FrameCountAsWritten(sel) && FrameExists(sel, s.frameIdx)
    requires Step(s, keys[i]) == Some(next)
    ensures PlayInvariant(sel, keys, shown + [s.frameIdx], next, i + 1)
  {
    RunUnfold(s, FrameCountAsWritten(sel), keys, i);
    var rest := Run(next, FrameCountAsWritten(sel), keys[i + 1..]);
    assert shown + ([s.frameIdx] + rest.shown) == (shown + [s.frameIdx]) + rest.shown;
    FrameExistsBelowCount(sel);
  }

  /** The loop reaching a frame a present camera lacks raises there: that is the overrun `PlaySpec` reports. */
  lemma PlayRaisesHere(sel: Selection, keys: seq<Key>, shown: seq<nat>, s: PlayState, i: nat)
    requires PlayInvariant(sel, keys, shown, s, i)
    requires s.frameIdx < FrameCountAsWritten(sel) && !FrameExists(sel, s.frameIdx)
    ensures PlaySpec(sel, keys) == Err(FrameIndexError(s.frameIdx))
  {
    FrameExistsBelowCount(sel);
    var n := FrameCountAsWritten(sel);
    if i < |keys| {
      assert keys[i..][0] == keys[i];
      assert Run(s, n, keys[i..]).shown[0] == s.frameIdx;
      assert Run(Start, n, keys).shown[|shown|] == s.frameIdx;
    } else {
      assert keys[i..] == [];
    }
  }

  /** The loop stopping at the frame count, or for want of keys at a frame every present camera holds, plays through. */
  lemma PlayEndsHere(sel: Selection, keys: seq<Key>, shown: seq<nat>, s: PlayState, i: nat)
    requires PlayInvariant(sel, keys, shown, s, i)
    requires s.frameIdx >= FrameCountAsWritten(sel) || (i == |keys| && FrameExists(sel, s.frameIdx))
    ensures PlaySpec(sel, keys) == Ok(Playback(shown, s, false))
  {
    if s.frameIdx < FrameCountAsWritten(sel) {
      assert keys[i..] == [];
    }
    assert Run(s, FrameCountAsWritten(sel), keys[i..]) == Playback([], s, false);
    assert shown + [] == shown;
  }

  /** The loop stopping for 'q' after showing the current frame plays through. */
  lemma PlayQuitsHere(sel: Selection, keys: seq<Key>, shown: seq<nat>, s: PlayState, i: nat)
    requires PlayInvariant(sel, keys, shown, s, i) && i < |keys|
    requires s.frameIdx < FrameCountAsWritten(sel) && FrameExists(sel, s.frameIdx)
    requires Step(s, keys[i]).None?
    ensures PlaySpec(sel, keys) == Ok(Playback(shown + [s.frameIdx], s, true))
  {
    RunUnfold(s, FrameCountAsWritten(sel), keys, i);
  }

  /** The key handling at the end of one turn of the loop: whether to stop, and the next frame and pause flag. */
  method HandleKey(frameIdx: nat, paused: bool, key: Key) returns (quit: bool, nextIdx: nat, nextPaused: bool)
    ensures quit <==> Step(PlayState(frameIdx, paused), key).None?
    ensures !quit ==> Step(PlayState(frameIdx, paused), key) == Some(PlayState(nextIdx, nextPaused))
  {
    quit, nextIdx, nextPaused := false, frameIdx, paused;
    if key == QuitKey {
      quit := true;
    } else if key == PauseKey {
      nextPaused := !paused;
    } else if key == StepKey {
      nextPaused := true;
      nextIdx := frameIdx + 1;
    } else if !paused {
      nextIdx := frameIdx + 1;
    }
  }

  /**
   * The script's playback loop over the frames, driven by the key presses
   * `keys`: each turn reads the current frame of every present camera,
   * then waits for a key.
   */
  method Play(sel: Selection, keys: seq<Key>) returns (r: Result<Playback, DisplayError>)
    ensures r == PlaySpec(sel, keys)
  {
    var numFrames := FrameCountAsWritten(sel);
    var frameIdx: nat := 0;
    var paused := false;
    var shown: seq<nat> := [];
    var i := 0;
    while frameIdx < numFrames
      invariant PlayInvariant(sel, keys, shown, PlayState(frameIdx, paused), i)
      decreases |keys| - i
    {
      if !FrameExists(sel, frameIdx) {
        PlayRaisesHere(sel, keys, shown, PlayState(frameIdx, paused), i);
        return Err(FrameIndexError(frameIdx));
      }
      if i == |keys| {
        PlayEndsHere(sel, keys, shown, PlayState(frameIdx, paused), i);
        return Ok(Playback(shown, PlayState(frameIdx, paused), false));
      }
      var quit, nextIdx, nextPaused := HandleKey(frameIdx, paused, keys[i]);
      if quit {
        PlayQuitsHere(sel, keys, shown, PlayState(frameIdx, paused), i);
        return Ok(Playback(shown + [frameIdx], PlayState(frameIdx, paused), true));
      }
      PlayStep(sel, keys, shown, PlayState(frameIdx, paused), i, PlayState(nextIdx, nextPaused));
      shown, frameIdx, paused, i := shown + [frameIdx], nextIdx, nextPaused, i + 1;
    }
    PlayEndsHere(sel, keys, shown, PlayState(frameIdx, paused), i);
    r := Ok(Playback(shown, PlayState(frameIdx, paused), false));
  }

  /** `display_camera_feeds`: the selection, then the script's playback of it. */
  method DisplayCameraFeeds(data: DataGroup, index: int, keys: seq<Key>) returns (r: Result<Playback, DisplayError>)
    ensures SelectForDisplay(data, index).Err? ==> r == Err(SelectForDisplay(data, index).error)
    ensures SelectForDisplay(data, index).Ok? ==> r == PlaySpec(SelectForDisplay(data, index).value, keys)
  {
    var sel := SelectForDisplay(data, index);
    if sel.Err? {
      return Err(sel.error);
    }
    r := Play(sel.value, keys);
  }

  // ---------------------------------------------------------------------------
  // Export

  /** A path as its components, `Path(a) / b / c` being `[a, b, c]`. */
  type Path = seq<string>

  datatype FsAction =
    | MakeDir(dir: Path)
    | WriteImage(file: Path)
    | EncodeVideo(video: Path, frameDir: Path)   // every .png in `frameDir`, in glob order

  datatype ExportError = ExportIndexError | ExportMissingObs

  /** `f"frame_{t:04d}.png"`. */
  function FrameName(t: nat): string {
    "frame_" + ZeroPad(t, 4) + ".png"
  }

  /** The actions for one camera with `count` frames under the episode directory `root`. */
  function CameraActions(root: Path, camera: string, count: nat): seq<FsAction> {
    [MakeDir(root + [camera])]
    + seq(count, t requires 0 <= t < count => WriteImage(root + [camera, FrameName(t)]))
    + [EncodeVideo(root + [camera + "_camera.mp4"], root + [camera])]
  }

  const ExportCameras: seq<string> := [Wrist, Front]

  /** The actions for the cameras `cameras[k..]` that `obs` holds, in that order. */
  function ExportFrom(root: Path, obs: map<string, nat>, cameras: seq<string>, k: nat): seq<FsAction>
    requires k <= |cameras|
    decreases |cameras| - k
  {
    if k == |cameras| then []
    else if cameras[k] in obs then CameraActions(root, cameras[k], obs[cameras[k]]) + ExportFrom(root, obs, cameras, k + 1)
    else ExportFrom(root, obs, cameras, k + 1)
  }

  /**
   * `export_camera_data`: the file-system actions taken, in order, and the
   * exception that ended the export early, if any. The episode directory is
   * made before the "obs" group is looked up.
   */
  function ExportSpec(data: DataGroup, index: int, outputDir: string): (Path, seq<FsAction>, Option<ExportError>) {
    match PyIndex(Episodes(data), index)
    case None => ([], [], Some(ExportIndexError))
    case Some(name) =>
      var root := [outputDir, name];
      match data[name].obs
      case None => (root, [MakeDir(root)], Some(ExportMissingObs))
      case Some(obs) => (root, [MakeDir(root)] + ExportFrom(root, obs, ExportCameras, 0), None)
  }

  /** The loop over one camera's frames, after making its directory and before encoding its video. */
  method ExportCamera(before: seq<FsAction>, root: Path, camera: string, count: nat) returns (actions: seq<FsAction>)
    ensures actions == before + CameraActions(root, camera, count)
  {
    actions := before + [MakeDir(root + [camera])];
    for t := 0 to count
      invariant actions == before + [MakeDir(root + [camera])]
        + seq(t, u requires 0 <= u < t => WriteImage(root + [camera, FrameName(u)]))
    {
      actions := actions + [WriteImage(root + [camera, FrameName(t)])];
    }
    actions := actions + [EncodeVideo(root + [camera + "_camera.mp4"], root + [camera])];
  }

  /** The export loops: over the two cameras, and over each present camera's frames. */
  method ExportCameraData(data: DataGroup, index: int, outputDir: string) returns (actions: seq<FsAction>, error: Option<ExportError>)
    ensures (actions, error) == (ExportSpec(data, index, outputDir).1, ExportSpec(data, index, outputDir).2)
  {
    var episode := PyIndex(Episodes(data), index);
    if episode.None? {
      return [], Some(ExportIndexError);
    }
    var root := [outputDir, episode.value];
    actions := [MakeDir(root)];
    if data[episode.value].obs.None? {
      return actions, Some(ExportMissingObs);
    }
    var obs := data[episode.value].obs.value;
    for c := 0 to |ExportCameras|
      invariant actions + ExportFrom(root, obs, ExportCameras, c) == [MakeDir(root)] + ExportFrom(root, obs, ExportCameras, 0)
    {
      var camera := ExportCameras[c];
      if camera in obs {
        actions := ExportCamera(actions, root, camera, obs[camera]);
      }
    }
    assert actions == [MakeDir(root)] + ExportFrom(root, obs, ExportCameras, 0);
    error := None;
  }

  // ---------------------------------------------------------------------------
  // Listing

  /** One line of the listing: position, name, and whether each camera was recorded. */
  datatype ListEntry = ListEntry(index: nat, episode: string, hasWrist: bool, hasFront: bool)

  /** `f["data"][ep].get("obs", {})`: an episode without "obs" lists no cameras. */
  function ObsOrEmpty(g: EpisodeGroup): map<string, nat> {
    if g.obs.Some? then g.obs.value else map[]
  }

  function ListEpisodes(data: DataGroup): (entries: seq<ListEntry>)
    ensures |entries| == |data|
  {
    var names := Episodes(data);
    seq(|names|, i requires 0 <= i < |names| =>
      ListEntry(i, names[i], Wrist in ObsOrEmpty(data[names[i]]), Front in ObsOrEmpty(data[names[i]])))
  }

  // ---------------------------------------------------------------------------
  // Properties: episode selection

  /** Episodes are presented in increasing name order, each name once. */
  lemma EpisodesInSortedOrder(data: DataGroup)
    ensures var names := Episodes(data);
      && |names| == |data|
      && (forall i, j | 0 <= i < j < |names| :: Less(names[i], names[j]))
      && forall name :: name in names <==> name in data
  {
  }

  /** A negative index counts from the end, as in Python. */
  lemma NegativeIndexCountsFromEnd(names: seq<string>, i: int)
    requires 0 < i <= |names|
    ensures PyIndex(names, -i) == Some(names[|names| - i])
  {
  }

  /**
   * Display succeeds exactly when the index is in Python range and the
   * episode has an "obs" group holding at least one camera; an index past
   * the end is reported with the largest valid index.
   */
  lemma DisplaySelection(data: DataGroup, index: int)
    ensures index >= |data| ==> SelectForDisplay(data, index) == Err(EpisodeNotFound(|data| - 1))
    ensures index < -|data| ==> SelectForDisplay(data, index) == Err(IndexError)
    ensures SelectForDisplay(data, index).Ok? <==>
      && -|data| <= index < |data|
      && var name := PyIndex(Episodes(data), index).value;
         data[name].obs.Some? && (Wrist in data[name].obs.value || Front in data[name].obs.value)
    ensures SelectForDisplay(data, index).Ok? ==>
      var sel := SelectForDisplay(data, index).value;
      && sel.episode == PyIndex(Episodes(data), index).value
      && sel.episode in data
      && (sel.wristFrames.Some? <==> Wrist in data[sel.episode].obs.value)
      && (sel.frontFrames.Some? <==> Front in data[sel.episode].obs.value)
      && (sel.wristFrames.Some? ==> FrameCountAsWritten(sel) == data[sel.episode].obs.value[Wrist])
      && (sel.wristFrames.None? ==> FrameCountAsWritten(sel) == data[sel.episode].obs.value[Front])
  {
  }

  /** The listing shows a camera for an episode exactly when display would find camera data for it. */
  lemma ListingAgreesWithDisplay(data: DataGroup, i: nat)
    requires i < |data|
    ensures var e := ListEpisodes(data)[i];
      && e.index == i && e.episode == Episodes(data)[i]
      && (e.hasWrist || e.hasFront <==> SelectForDisplay(data, i).Ok?)
  {
  }

  /**
   * When the two cameras hold the same number of frames, as a recording of
   * both cameras does, the corrected count is the script's count.
   */
  lemma FrameCountMatchesScript(sel: Selection)
    requires sel.wristFrames.Some? && sel.frontFrames.Some? ==> sel.wristFrames == sel.frontFrames
    ensures FrameCount(sel) == FrameCountAsWritten(sel)
  {
  }

  /**
   * As written, a front dataset shorter than the wrist dataset is indexed
   * past its end: with 3 wrist frames and 2 front frames and no key pressed,
   * the loop reaches frame 2, which the front camera does not have, and the
   * display raises there.
   */
  lemma ScriptFrameCountOverrunsShorterCamera()
    ensures var data := map["demo_0" := EpisodeGroup(Some(map[Wrist := 3, Front := 2]))];
      && SelectForDisplay(data, 0).Ok?
      && var sel := SelectForDisplay(data, 0).value;
         && FrameCountAsWritten(sel) == 3
         && 2 in Run(Start, FrameCountAsWritten(sel), [NoKey, NoKey, NoKey]).shown
         && !FrameExists(sel, 2)
         && PlaySpec(sel, [NoKey, NoKey, NoKey]) == Err(FrameIndexError(2))
  {
    var data := map["demo_0" := EpisodeGroup(Some(map[Wrist := 3, Front := 2]))];
    assert data.Keys == {"demo_0"};
    assert Episodes(data) == ["demo_0"];
    var keys: seq<Key> := [NoKey, NoKey, NoKey];
    assert keys[1..] == [NoKey, NoKey] && keys[1..][1..] == [NoKey];
    assert Run(PlayState(2, false), 3, [NoKey]).shown == [2];
    UnattendedPlaybackRaisesOnShorterFront(SelectForDisplay(data, 0).value, keys);
  }

  /**
   * As written, whenever the front camera is shorter than the wrist camera,
   * playback left alone raises at the front camera's last frame plus one.
   */
  lemma UnattendedPlaybackRaisesOnShorterFront(sel: Selection, keys: seq<Key>)
    requires sel.wristFrames.Some? && sel.frontFrames.Some? && sel.frontFrames.value < sel.wristFrames.value
    requires |keys| >= sel.wristFrames.value && forall k | 0 <= k < |keys| :: keys[k] == NoKey
    ensures PlaySpec(sel, keys) == Err(FrameIndexError(sel.frontFrames.value))
  {
    var f := sel.frontFrames.value;
    UnattendedPlaybackShowsEveryFrame(0, sel.wristFrames.value, keys);
    var p := Run(Start, FrameCountAsWritten(sel), keys);
    assert p.shown[f] == f && !FrameExists(sel, p.shown[f]);
  }

  /**
   * As written, the script reads a frame before it waits for a key, so
   * running out of keys at a frame the front camera lacks still raises:
   * with 3 wrist and 2 front frames after two idle keys, and with an empty
   * front camera before any key.
   */
  lemma KeysRunOutAtMissingFrame()
    ensures PlaySpec(Selection("demo_0", Some(3), Some(2)), [NoKey, NoKey]) == Err(FrameIndexError(2))
    ensures PlaySpec(Selection("demo_0", Some(3), Some(0)), []) == Err(FrameIndexError(0))
  {
    var keys: seq<Key> := [NoKey, NoKey];
    assert keys[1..] == [NoKey] && keys[1..][1..] == [];
    assert Run(PlayState(2, false), 3, []) == Playback([], PlayState(2, false), false);
    assert Run(PlayState(1, false), 3, [NoKey]) == Playback([1], PlayState(2, false), false);
    assert Run(Start, 3, keys) == Playback([0, 1], PlayState(2, false), false);
  }

  /**
   * The display raises only when the cameras differ in length: then the
   * script's count passes the corrected one. When they agree it plays the
   * script's count through.
   */
  lemma PlaybackRaisesOnlyWhenCamerasDiffer(sel: Selection, keys: seq<Key>)
    ensures PlaySpec(sel, keys).Err? ==> FrameCount(sel) < FrameCountAsWritten(sel)
    ensures (sel.wristFrames.Some? && sel.frontFrames.Some? ==> sel.wristFrames == sel.frontFrames) ==>
      PlaySpec(sel, keys) == Ok(Run(Start, FrameCountAsWritten(sel), keys))
  {
    var p := Run(Start, FrameCountAsWritten(sel), keys);
    RunStepsForward(Start, FrameCountAsWritten(sel), keys);
    FrameExistsBelowCount(sel);
    if sel.wristFrames.Some? && sel.frontFrames.Some? ==> sel.wristFrames == sel.frontFrames {
      FrameCountMatchesScript(sel);
      DisplayedFramesExist(sel, keys);
    }
  }

  // ---------------------------------------------------------------------------
  // Properties: playback

  /** 'q' stops; 'p' toggles pause without moving; space pauses and moves on; other keys move on unless paused. */
  lemma KeyBindings(s: PlayState, key: Key)
    ensures key == QuitKey <==> Step(s, key).None?
    ensures key == PauseKey ==> Step(s, key) == Some(PlayState(s.frameIdx, !s.paused))
    ensures key == StepKey ==> Step(s, key) == Some(PlayState(s.frameIdx + 1, true))
    ensures key != QuitKey && key != PauseKey && key != StepKey ==>
      Step(s, key) == Some(PlayState(if s.paused then s.frameIdx else s.frameIdx + 1, s.paused))
  {
  }

  /** Pressing 'p' twice gives back the state; while paused, only space moves the frame. */
  lemma PauseToggles(s: PlayState, key: Key)
    ensures Step(Step(s, PauseKey).value, PauseKey) == Some(s)
    ensures s.paused && key != StepKey && Step(s, key).Some? ==> Step(s, key).value.frameIdx == s.frameIdx
  {
  }

  /**
   * Every frame shown is in range; the first is the current one; each next
   * one is the same frame or the one after it; the loop stops in a state no
   * earlier than where it started and at most one past the last frame shown.
   */
  lemma {:induction false} RunStepsForward(s: PlayState, numFrames: nat, keys: seq<Key>)
    ensures var r := Run(s, numFrames, keys);
      && (forall k | 0 <= k < |r.shown| :: s.frameIdx <= r.shown[k] < numFrames)
      && (r.shown != [] ==> r.shown[0] == s.frameIdx)
      && (forall k | 0 <= k < |r.shown| - 1 :: r.shown[k + 1] == r.shown[k] || r.shown[k + 1] == r.shown[k] + 1)
      && s.frameIdx <= r.final.frameIdx
      && (r.shown == [] ==> r.final == s)
      && (r.shown != [] ==> r.final.frameIdx <= r.shown[|r.shown| - 1] + 1)
    decreases |keys|
  {
    if s.frameIdx < numFrames && keys != [] && Step(s, keys[0]).Some? {
      RunStepsForward(Step(s, keys[0]).value, numFrames, keys[1..]);
    }
  }

  /**
   * The loop consumes one key per frame shown, and stops only for 'q' (the
   * last key used), for reaching `numFrames`, or for running out of keys.
   */
  lemma {:induction false} RunStopsOnlyForQuitOrEnd(s: PlayState, numFrames: nat, keys: seq<Key>)
    ensures var r := Run(s, numFrames, keys);
      && |r.shown| <= |keys|
      && (r.quit ==> r.shown != [] && keys[|r.shown| - 1] == QuitKey && r.final.frameIdx < numFrames)
      && (!r.quit ==> r.final.frameIdx >= numFrames || |r.shown| == |keys|)
    decreases |keys|
  {
    if s.frameIdx < numFrames && keys != [] && Step(s, keys[0]).Some? {
      RunStopsOnlyForQuitOrEnd(Step(s, keys[0]).value, numFrames, keys[1..]);
    }
  }

  /** Left alone, playback shows every frame once, in order, and ends past the last one. */
  lemma {:induction false} UnattendedPlaybackShowsEveryFrame(from: nat, numFrames: nat, keys: seq<Key>)
    requires from <= numFrames && |keys| >= numFrames - from
    requires forall k | 0 <= k < |keys| :: keys[k] == NoKey
    ensures var r := Run(PlayState(from, false), numFrames, keys);
      && |r.shown| == numFrames - from
      && (forall k | 0 <= k < |r.shown| :: r.shown[k] == from + k)
      && r.final == PlayState(numFrames, false) && !r.quit
    decreases numFrames - from
  {
    if from < numFrames {
      UnattendedPlaybackShowsEveryFrame(from + 1, numFrames, keys[1..]);
    }
  }

  /** With the corrected count, every frame shown exists in every camera the episode has. */
  lemma DisplayedFramesExist(sel: Selection, keys: seq<Key>)
    ensures var r := Run(Start, FrameCount(sel), keys);
      forall k | 0 <= k < |r.shown| ::
        && (sel.wristFrames.Some? ==> r.shown[k] < sel.wristFrames.value)
        && (sel.frontFrames.Some? ==> r.shown[k] < sel.frontFrames.value)
    ensures !Overruns(sel, Run(Start, FrameCount(sel), keys).shown)
  {
    RunStepsForward(Start, FrameCount(sel), keys);
  }

  // ---------------------------------------------------------------------------
  // Properties: export

  /** The frame names of distinct frames differ, so no image overwrites another. */
  lemma FrameNamesDistinct(t1: nat, t2: nat)
    ensures FrameName(t1) == FrameName(t2) <==> t1 == t2
  {
    if FrameName(t1) == FrameName(t2) {
      var a, b := ZeroPad(t1, 4), ZeroPad(t2, 4);
      assert FrameName(t1)[6..|FrameName(t1)| - 4] == a;
      assert FrameName(t2)[6..|FrameName(t2)| - 4] == b;
      ZeroPadMeaning(t1, 4);
      ZeroPadMeaning(t2, 4);
    }
  }

  /** Two digit strings of one length with the same value are the same string. */
  lemma {:induction false} SameLengthSameValue(a: string, b: string)
    requires |a| == |b| && AllDigits(a) && AllDigits(b) && ParseDigits(a) == ParseDigits(b)
    ensures a == b
    decreases |a|
  {
    if a != [] {
      var n := |a|;
      var a', b' := a[..n - 1], b[..n - 1];
      assert ParseDigits(a') == ParseDigits(b');
      SameLengthSameValue(a', b');
      assert a == a' + [a[n - 1]] && b == b' + [b[n - 1]];
    }
  }

  /** Among digit strings of one length, string order is numeric order. */
  lemma {:induction false} SameLengthDigitsOrder(a: string, b: string)
    requires |a| == |b| && AllDigits(a) && AllDigits(b) && ParseDigits(a) < ParseDigits(b)
    ensures Less(a, b)
    decreases |a|
  {
    var n := |a|;
    var a', b' := a[..n - 1], b[..n - 1];
    assert a == a' + [a[n - 1]] && b == b' + [b[n - 1]];
    if ParseDigits(a') < ParseDigits(b') {
      SameLengthDigitsOrder(a', b');
      LessExtend(a', b', [a[n - 1]], [b[n - 1]]);
    } else if ParseDigits(a') == ParseDigits(b') {
      SameLengthSameValue(a', b');
      LessCommonPrefix(a', [a[n - 1]], [b[n - 1]]);
    }
  }

  /** Below 10000 frames, the names of the exported images sort in frame order. */
  lemma FrameNamesSortInFrameOrder(t1: nat, t2: nat)
    requires t1 < t2 < 10000
    ensures Less(FrameName(t1), FrameName(t2))
  {
    var a, b := ZeroPad(t1, 4), ZeroPad(t2, 4);
    assert Pow10(4) == 10000;
    ZeroPadWidth(t1, 4);
    ZeroPadWidth(t2, 4);
    ZeroPadMeaning(t1, 4);
    ZeroPadMeaning(t2, 4);
    SameLengthDigitsOrder(a, b);
    LessExtend(a, b, ".png", ".png");
    LessCommonPrefix("frame_", a + ".png", b + ".png");
    assert FrameName(t1) == "frame_" + (a + ".png");
    assert FrameName(t2) == "frame_" + (b + ".png");
  }

  /** From frame 10000 on, the padded names no longer sort in frame order. */
  lemma FrameTenThousandSortsEarly()
    ensures Less(FrameName(10000), FrameName(9999))
  {
    assert NatToString(10000) == "10000" by {
      assert NatToString(1) == "1";
      assert NatToString(10) == "10";
      assert NatToString(100) == "100";
      assert NatToString(1000) == "1000";
    }
    assert NatToString(9999) == "9999" by {
      assert NatToString(9) == "9";
      assert NatToString(99) == "99";
      assert NatToString(999) == "999";
    }
    LessCommonPrefix("frame_", "10000.png", "9999.png");
    assert FrameName(10000) == "frame_" + "10000.png";
    assert FrameName(9999) == "frame_" + "9999.png";
  }

  /**
   * Export writes the wrist camera's actions before the front camera's,
   * skips a camera the episode lacks, and for each camera makes its
   * directory, writes frames 0, 1, ... under it and then encodes the video.
   */
  lemma ExportVisitsWristThenFront(root: Path, obs: map<string, nat>)
    ensures ExportFrom(root, obs, ExportCameras, 0) ==
      (if Wrist in obs then CameraActions(root, Wrist, obs[Wrist]) else [])
      + (if Front in obs then CameraActions(root, Front, obs[Front]) else [])
  {
    assert ExportCameras[0] == Wrist && ExportCameras[1] == Front;
    assert ExportFrom(root, obs, ExportCameras, 2) == [];
  }

  /** The actions for a camera with `count` frames: its directory, each frame's image under it, then the video. */
  lemma CameraActionsLayout(root: Path, camera: string, count: nat)
    ensures var acts := CameraActions(root, camera, count);
      && |acts| == count + 2
      && acts[0] == MakeDir(root + [camera])
      && (forall t | 0 <= t < count :: acts[t + 1] == WriteImage(root + [camera, FrameName(t)]))
      && acts[count + 1] == EncodeVideo(root + [camera + "_camera.mp4"], root + [camera])
  {
  }

  /** Export has no upper bounds check: an index past the end raises before anything is written. */
  lemma ExportIndexPastEndRaises(data: DataGroup, index: int, outputDir: string)
    requires index >= |data| || index < -|data|
    ensures ExportSpec(data, index, outputDir) == ([], [], Some(ExportIndexError))
  {
  }
}
