# Assemble-sandwich task: a verified model

This project models the behaviour of the assemble-sandwich task of the
LeIsaac robot-learning repository in Dafny and proves properties about that
model. Six source files are covered:

- **Success test** (`task_done`, module `Terminations`). For each parallel
  environment it checks three things:
  - the four ingredients lie over the plate;
  - they are stacked bottom bread < cheese < patty < top bread, with the
    bottom bread clear of the plate;
  - they are at rest.

  In test mode every environment succeeds.
- **Grasp detector** (`ingredient_grasped`, module `Observations`). An
  environment grasps when its gripper is closed and one of the four
  ingredients present in the scene is near the end-effector. The source's
  loop over ingredient names is a method whose loop is proved against the
  unordered "some ingredient is grasped".
- **Streaming HDF5 episode writer** (module `Hdf5Writer`). It covers:
  - `create`: the `.hdf5` suffix, fresh files versus resumed ones, and an
    open stream refusing a second `create`;
  - `write_episode`: the `demo_{k}` groups, `num_samples`, the file's
    `total`, and APPEND versus LAST;
  - the recursive dataset helper that appends episode data along axis 0.

  The handler is a class whose methods are proved against state-transition
  functions.
- **Ingredient substitution of the data-generation script** (module
  `IngredientSubstitution`): the last `:` segment of the `--task` argument, the
  ingredient display names, and the in-place rewrite of the first two
  subtask configurations of `so101_follower`.
- **Camera configuration helpers** (module `CameraConfig`). Three functions
  write constant camera poses, lenses and viewer positions into an
  environment configuration, in place. The configuration objects are
  classes. The module-level cameras are shared objects: after
  `ApplySandwichCameraConfig`, the scene refers to them, not to copies.
- **Camera-data viewer** (module `CameraViewer`). It covers:
  - episode selection from the sorted episode names, with Python indexing;
  - the camera-presence checks;
  - the key-driven playback loop, a method proved against a step function;
  - the export plan: directories, `frame_{t:04d}.png` images and one video
    per camera;
  - the episode listing.

Helper modules:

- `Wrappers`: `Option` and `Result`.
- `Geometry`: vectors. It states "Euclidean norm below t" without square
  roots, as `0 < t && squared norm < t*t`.
- `Decimal`: Python's `str(n)` and `{n:0Wd}`.
- `StringOrder`: Python's `<` on `str`, and `sorted()` of a set of names.

Real numbers stand for the source's floating-point tensors. A batch of
environments is a sequence of per-environment snapshot records. The
snapshots are passed in as arguments; the source looks them up in the
simulator instead.

Behaviour of the code that the model keeps:

- The stability speed limit is the fixed 0.05 m/s inside `task_done`; it
  is not a parameter.
- In the viewer, only `display` checks that the episode index is not past
  the end. Four cases raise instead of being reported:
  - a negative index before the start, in `display`;
  - any out-of-range index, in `export`;
  - an episode with no `obs` group (a missing-key error), in `display` and
    `export`;
  - in `display`, a frame past the end of a front camera that is shorter
    than the wrist camera (see "## Findings"). The images are read before
    the key wait, so this raises even when no key follows.

  In `export`, the episode directory is already made when the missing
  `obs` group is found.

## Model

| member | source | states |
|---|---|---|
| Terminations.TaskDone | source/leisaac/leisaac/tasks/assemble_sandwich/mdp/terminations.py:14-118 | one result per environment; in test mode all true; otherwise an environment is done exactly when it is xy-aligned, vertically ordered and stable |
| Terminations.TestModeAlwaysDone | source/leisaac/leisaac/tasks/assemble_sandwich/mdp/terminations.py:47-50 | with test mode on, every environment reports success whatever its positions and velocities |
| Terminations.HeightThresholdIgnored | source/leisaac/leisaac/tasks/assemble_sandwich/mdp/terminations.py:98-104 | the result is the same for any two values of `height_threshold`: the parameter is accepted but never used |
| Terminations.TaskDoneIsPerEnvironment | source/leisaac/leisaac/tasks/assemble_sandwich/mdp/terminations.py:72-116 | an environment's result depends only on its own snapshot, not on its index or on the other environments |
| Terminations.VerticalOrderIsStrictStack | source/leisaac/leisaac/tasks/assemble_sandwich/mdp/terminations.py:93-104 | the adjacent comparisons hold exactly when the four heights above the plate form a strictly increasing chain with every height above 0.005 |
| Terminations.XyAlignedIsDistanceBelow | source/leisaac/leisaac/tasks/assemble_sandwich/mdp/terminations.py:72-83 | alignment holds exactly when each ingredient's actual planar distance to the plate centre is strictly below `xy_threshold` |
| Terminations.StableIsSpeedBelow | source/leisaac/leisaac/tasks/assemble_sandwich/mdp/terminations.py:106-113 | stability holds exactly when each ingredient's actual speed is strictly below the fixed 0.05 |
| Terminations.MovingIngredientNotDone | source/leisaac/leisaac/tasks/assemble_sandwich/mdp/terminations.py:106-116 | outside test mode, an environment whose top bread moves at 0.05 m/s or faster is not done |
| Terminations.RestingStackIsDone | source/leisaac/leisaac/tasks/assemble_sandwich/mdp/terminations.py:86-91 | the stack at the heights the source expects (0.015, 0.030, 0.045, 0.060 above a plate at the origin, at rest) is done |
| Terminations.SwappedLayersNotDone | source/leisaac/leisaac/tasks/assemble_sandwich/mdp/terminations.py:98-104 | the same stack with cheese and patty swapped is not done |
| Terminations.MisalignedSliceNotDone | source/leisaac/leisaac/tasks/assemble_sandwich/mdp/terminations.py:78-83 | the same stack with the bottom bread 0.10 off-centre is not done |
| Terminations.MovingSliceNotDone | source/leisaac/leisaac/tasks/assemble_sandwich/mdp/terminations.py:108-113 | the same stack with the top bread moving at 0.2 m/s is not done |
| Geometry.NormBelowIsRootBelow | source/leisaac/leisaac/tasks/assemble_sandwich/mdp/terminations.py:73-83 | for a distance d >= 0, "squared distance below t*t with t > 0" is exactly "d < t", so the squared comparisons used throughout are the source's norm comparisons |
| Observations.IngredientGrasped | source/leisaac/leisaac/tasks/assemble_sandwich/mdp/observations.py:44-70 | the loop's result for each environment is true exactly when some ingredient of the four is present, strictly within `diff_threshold` of the end-effector, and the gripper joint is below `grasp_threshold` |
| Observations.GraspFoldIsExists | source/leisaac/leisaac/tasks/assemble_sandwich/mdp/observations.py:45-68 | folding OR over any list of names is "some name in the list is grasped" |
| Observations.OpenGripperNeverGrasps | source/leisaac/leisaac/tasks/assemble_sandwich/mdp/observations.py:41-65 | a gripper joint at or above `grasp_threshold` means no grasp, whatever the distances |
| Observations.NothingNearNeverGrasps | source/leisaac/leisaac/tasks/assemble_sandwich/mdp/observations.py:58-68 | if no present ingredient is strictly within `diff_threshold` of the end-effector, nothing is grasped |
| Observations.NoIngredientsNoGrasp | source/leisaac/leisaac/tasks/assemble_sandwich/mdp/observations.py:47-53 | missing ingredients are skipped; with none present the result is false |
| Observations.OtherObjectsIgnored | source/leisaac/leisaac/tasks/assemble_sandwich/mdp/observations.py:35-53 | adding or moving any object that is not one of the four ingredients does not change the result |
| Observations.VisitOrderIrrelevant | source/leisaac/leisaac/tasks/assemble_sandwich/mdp/observations.py:47-68 | visiting the four names in any order gives the same result |
| Observations.ClosedGripperHoldsPatty | source/leisaac/leisaac/tasks/assemble_sandwich/mdp/observations.py:12-13 | at the default thresholds (0.05 m, 0.60), a gripper at 0.3 with the patty at the end-effector grasps |
| Observations.GripperAtThresholdIsOpen | source/leisaac/leisaac/tasks/assemble_sandwich/mdp/observations.py:41-42 | at the default thresholds, a gripper exactly at 0.60 is open, so nothing is grasped |
| Hdf5Writer.Put | source/leisaac/leisaac/enhance/datasets/hdf5_dataset_file_handler.py:84-116 | storing a value under a key adds that key and changes no other member; a tensor goes through exactly when the key is new or holds a dataset |
| Hdf5Writer.PutFromFrame | source/leisaac/leisaac/enhance/datasets/hdf5_dataset_file_handler.py:91-92 | storing a dict's entries only adds or changes members named by those entries |
| Hdf5Writer.PutAppendsAlongEveryPath | source/leisaac/leisaac/enhance/datasets/hdf5_dataset_file_handler.py:84-116 | after a successful store, at every path below the key the dataset's rows are the old rows followed by the rows the value holds there (create and append along axis 0) |
| Hdf5Writer.PutFromAppendsAlongEveryPath | source/leisaac/leisaac/enhance/datasets/hdf5_dataset_file_handler.py:86-92 | the same for all entries of a dict, in entry order |
| Hdf5Writer.AppendToDataset | source/leisaac/leisaac/enhance/datasets/hdf5_dataset_file_handler.py:113-116 | appending to an existing dataset grows it by the tensor's length, keeps the old rows in front and puts the new rows behind |
| Hdf5Writer.Find | source/leisaac/leisaac/enhance/datasets/hdf5_dataset_file_handler.py:154-157 | a key is found exactly when some entry of the episode data has it, and what is found is the value of the first entry with that key |
| Hdf5Writer.FindInDistinctEntries | source/leisaac/leisaac/enhance/datasets/hdf5_dataset_file_handler.py:154-157 | on dict-shaped data (no key twice), looking up an entry's key gives that entry's value, as `episode.data["actions"]` does |
| Hdf5Writer.DemoNamesDistinct | source/leisaac/leisaac/enhance/datasets/hdf5_dataset_file_handler.py:147-151 | `demo_{a}` and `demo_{b}` are the same group name exactly when a = b |
| Hdf5Writer.RecordAttrs | source/leisaac/leisaac/enhance/datasets/hdf5_dataset_file_handler.py:153-165 | a write always sets `num_samples` and leaves the data tree alone; `seed` and `success` are overwritten only when the episode has them |
| Hdf5Writer.SamplesAccumulate | source/leisaac/leisaac/enhance/datasets/hdf5_dataset_file_handler.py:154-157 | with actions, `num_samples` grows by their number (from 0 when it was missing) |
| Hdf5Writer.NoActionsResetsSamples | source/leisaac/leisaac/enhance/datasets/hdf5_dataset_file_handler.py:158-159 | without actions, `num_samples` becomes 0 whatever it was |
| Hdf5Writer.TwoWritesAddUp | source/leisaac/leisaac/enhance/datasets/hdf5_dataset_file_handler.py:155-157 | two writes with actions to one group add both counts to what it had |
| Hdf5Writer.WithHdf5Suffix | source/leisaac/leisaac/enhance/datasets/hdf5_dataset_file_handler.py:35-36 | the opened path ends in `.hdf5`; a path already ending in `.hdf5` is kept as it is, and any other path gets `.hdf5` appended (so `a.hdf` becomes `a.hdf.hdf5`) |
| Hdf5Writer.SuffixIdempotent | source/leisaac/leisaac/enhance/datasets/hdf5_dataset_file_handler.py:35-36 | adding the suffix twice is adding it once |
| Hdf5Writer.CreateWhileOpenFails | source/leisaac/leisaac/enhance/datasets/hdf5_dataset_file_handler.py:33-34 | `create` on an open stream fails and changes nothing |
| Hdf5Writer.CreateFreshStartsEmpty | source/leisaac/leisaac/enhance/datasets/hdf5_dataset_file_handler.py:44-49 | a fresh file opens with an empty data group, `total` 0 and the counter at 0 |
| Hdf5Writer.ResumeCountsExistingGroups | source/leisaac/leisaac/enhance/datasets/hdf5_dataset_file_handler.py:40-43 | resuming takes the file's data group and sets the counter to its number of members |
| Hdf5Writer.EmptyEpisodeChangesNothing | source/leisaac/leisaac/enhance/datasets/hdf5_dataset_file_handler.py:143-145 | an empty episode leaves the state as it was, and on an open stream it is skipped even when no data group was found |
| Hdf5Writer.AppendStaysInGroup | source/leisaac/leisaac/enhance/datasets/hdf5_dataset_file_handler.py:147-165 | APPEND keeps the counter and `total`, adds or updates only group `demo_{count}`, and leaves every other group as it was |
| Hdf5Writer.AppendsAccumulateSamples | source/leisaac/leisaac/enhance/datasets/hdf5_dataset_file_handler.py:153-157 | two APPENDs go to the same group, and its `num_samples` is the sum of both action counts on top of what it had |
| Hdf5Writer.LastClosesGroup | source/leisaac/leisaac/enhance/datasets/hdf5_dataset_file_handler.py:167-172 | LAST raises the counter by exactly one and adds the group's `num_samples` to `total` |
| Hdf5Writer.LastMovesToNewGroup | source/leisaac/leisaac/enhance/datasets/hdf5_dataset_file_handler.py:147-172 | after LAST, the next episode goes to a different group |
| Hdf5Writer.WriteAppendsEpisodeRows | source/leisaac/leisaac/enhance/datasets/hdf5_dataset_file_handler.py:118-119 | a write that goes through leaves, at every path of the demo group, the old rows followed by the episode's rows |
| Hdf5Writer.StreamingHdf5DatasetFileHandler.constructor | source/leisaac/leisaac/enhance/datasets/hdf5_dataset_file_handler.py:19-29 | a new handler has no open stream, no data group and the counter at 0 |
| Hdf5Writer.StreamingHdf5DatasetFileHandler.Create | source/leisaac/leisaac/enhance/datasets/hdf5_dataset_file_handler.py:31-52 | the handler's new state and result are those of the `create` transition: refusal while open, suffix, fresh start or resume |
| Hdf5Writer.StreamingHdf5DatasetFileHandler.WriteEpisode | source/leisaac/leisaac/enhance/datasets/hdf5_dataset_file_handler.py:142-174 | the handler's new state and outcome are those of the `write_episode` transition: not initialised, then empty episode skipped, then the demo-group write |
| Hdf5Writer.StreamingHdf5DatasetFileHandler.WriteData | source/leisaac/leisaac/enhance/datasets/hdf5_dataset_file_handler.py:118-119 | the loop over the episode's top-level entries stores them in order and stops at the first failure, as the recursive store does |
| Decimal.NatToString | source/leisaac/leisaac/enhance/datasets/hdf5_dataset_file_handler.py:147 | `str(n)` is non-empty, all digits, has no leading zero and is one character long exactly when n < 10 |
| Decimal.ParseNatToString | source/leisaac/leisaac/enhance/datasets/hdf5_dataset_file_handler.py:147 | reading back `str(n)` gives n |
| Decimal.NatToStringInjective | source/leisaac/leisaac/enhance/datasets/hdf5_dataset_file_handler.py:147 | different numbers have different texts |
| Decimal.ZeroPad | scripts/tools/view_camera_data.py:115 | `{n:04d}` consists of digits only |
| Decimal.ZeroPadMeaning | scripts/tools/view_camera_data.py:115 | padding gives max(width, digits of n) characters and reads back as n |
| Decimal.ZeroPadWidth | scripts/tools/view_camera_data.py:115 | below 10^width the padded text has exactly width characters |
| StringOrder.Sorted | scripts/tools/view_camera_data.py:29 | `sorted()` of the episode names lists each name exactly once, in strictly increasing string order |
| IngredientSubstitution.LastSegment | scripts/mimic/generate_dataset.py:97-98 | `split(":")[-1]` is no longer than the `--task` argument |
| IngredientSubstitution.LastSegmentMeaning | scripts/mimic/generate_dataset.py:97-98 | the segment has no `:`, ends the `--task` argument, and is either the whole name or preceded by `:` |
| IngredientSubstitution.LastSegmentOfPlainName | scripts/mimic/generate_dataset.py:97-98 | a name without `:` is its own last segment |
| IngredientSubstitution.NamespacedTaskName | scripts/mimic/generate_dataset.py:97-98 | the last segment of `ns:name` is `name` |
| IngredientSubstitution.EnvName | scripts/mimic/generate_dataset.py:96-99 | without `--task`, or when its last segment is empty (`""`, `ns:`), the dataset's name is used; a non-empty last segment of `--task` is used as it is |
| IngredientSubstitution.EnvNameMeaning | scripts/mimic/generate_dataset.py:96-99 | a plain non-empty `--task` value is the environment name; a name taken from `--task` is non-empty and has no `:` |
| IngredientSubstitution.DisplayName | scripts/mimic/generate_dataset.py:115-122 | both bread slices show as "bread slice", the cheese as "cheese slice", the patty as "patty", and any other value as itself |
| IngredientSubstitution.RewriteSubtasks | scripts/mimic/generate_dataset.py:124-133 | subtask 0 gets the ingredient as `object_ref` and both descriptions; subtask 1 gets only the "Place" description; the rest are kept; the length is kept |
| IngredientSubstitution.Contains | scripts/mimic/generate_dataset.py:113 | `needle in haystack` holds exactly when the needle occurs at some position |
| IngredientSubstitution.NotRequestedLeavesConfigs | scripts/mimic/generate_dataset.py:113 | without an ingredient, or when the environment name lacks "AssembleSandwich", nothing changes |
| IngredientSubstitution.EmptyConfigsIgnored | scripts/mimic/generate_dataset.py:136-140 | an empty configuration map only draws a warning |
| IngredientSubstitution.SubstitutionRewritesFirstTwo | scripts/mimic/generate_dataset.py:124-133 | after the rewrite: subtask 0 grasps the ingredient with "Grasp {name} from cartridge" / "Place {name} on plate"; subtask 1, if any, differs only in its description; later subtasks and other robots are untouched |
| IngredientSubstitution.BreadSlicesShareDescription | scripts/mimic/generate_dataset.py:116-117 | both bread slices get the same grasp description |
| IngredientSubstitution.SandwichEnvNamesMatch | source/leisaac/leisaac/tasks/assemble_sandwich/__init__.py:26 | the registered mimic environment's name contains "AssembleSandwich", so the substitution applies to it |
| IngredientSubstitution.MimicEnvCfg.ApplyIngredientType | scripts/mimic/generate_dataset.py:112-140 | the in-place field updates leave the configuration and outcome of the substitution step: not requested, ignored with a warning, a missing robot or empty list raising, or the rewrite |
| CameraConfig.SandwichCameras.constructor | sandwich_camera_config.py:26-68 | the two module-level cameras hold the source's prim paths, poses, lenses, resolution and update period, in distinct offset and lens objects |
| CameraConfig.OffsetCfg.Restyle | sandwich_camera_config.py:159-160 | a known style replaces position and rotation; nothing else changes |
| CameraConfig.PinholeCameraCfg.Restyle | sandwich_camera_config.py:161-162 | a known style replaces focal length and horizontal aperture; nothing else changes |
| CameraConfig.ApplySandwichCameraConfig | sandwich_camera_config.py:137-146 | the scene's wrist and front cameras become the shared constant objects themselves, and the same configuration is returned |
| CameraConfig.ApplyAlternativeCameras | sandwich_camera_config.py:148-171 | each camera's offset and lens are restyled from its own table; only those four objects may change; when wrist and front share an object, the front style is applied after the wrist style |
| CameraConfig.ApplyViewerPosition | sandwich_camera_config.py:173-186 | eye and look-at point come from the table for a known style and stay otherwise; only the viewer changes |
| CameraConfig.DefaultStylesPresent | sandwich_camera_config.py:148-173 | the default styles close_detail, high_overview and diagonal_overview are rows of their tables |
| CameraConfig.UnknownStyleChangesNothing | sandwich_camera_config.py:157-169 | an unknown style leaves offset and lens as they were |
| CameraConfig.KnownStyleSetsExactlyFourFields | sandwich_camera_config.py:157-162 | a known style sets exactly pos, rot, focal length and aperture from its row, and keeps convention, focus distance, clipping range and lock flag |
| CameraConfig.SecondStyleWins | sandwich_camera_config.py:157-169 | on a shared object, a known second style overrides the first completely |
| CameraConfig.RestyleIdempotent | sandwich_camera_config.py:157-162 | applying a style twice is applying it once |
| CameraConfig.ViewerPlacement | sandwich_camera_config.py:181-184 | an unknown viewer style is a no-op; a known one sets exactly eye and look-at point |
| CameraConfig.ViewerPresetsShareTarget | sandwich_camera_config.py:114-131 | every viewer preset looks at (0, 0, 0.9) |
| CameraConfig.SandwichCamerasShareFormat | sandwich_camera_config.py:26-68 | the two cameras differ only in prim path, pose, focal length, aperture and clipping range; both are RGB 640x480 at 30 updates per second |
| CameraViewer.PyIndex | scripts/tools/view_camera_data.py:36 | Python indexing finds an episode exactly when -len <= index < len |
| CameraViewer.NegativeIndexCountsFromEnd | scripts/tools/view_camera_data.py:36 | index -i selects the i-th episode from the end |
| CameraViewer.EpisodesInSortedOrder | scripts/tools/view_camera_data.py:29 | episodes are presented in strictly increasing name order, each name of the data group exactly once |
| CameraViewer.DisplaySelection | scripts/tools/view_camera_data.py:29-51 | an index past the end is reported with the largest valid index; one before the start raises; selection succeeds exactly when the index is in range and the episode's `obs` holds a camera; the frame count is the wrist's if present, else the front's |
| CameraViewer.ListingAgreesWithDisplay | scripts/tools/view_camera_data.py:125-135 | listing line i names the i-th sorted episode and marks a camera exactly when display of index i finds camera data |
| CameraViewer.FrameCount | scripts/tools/view_camera_data.py:51 | the corrected frame count is the shortest present camera's length: within every present camera's length and equal to one of them (0 with no camera) |
| CameraViewer.FrameCountMatchesScript | scripts/tools/view_camera_data.py:51 | when both cameras have the same length, the playable count is the script's count |
| CameraViewer.ScriptFrameCountOverrunsShorterCamera | scripts/tools/view_camera_data.py:51-71 | with 3 wrist and 2 front frames and no key pressed, the script's count takes the loop to frame 2, which the front camera does not have, and the display raises there |
| CameraViewer.UnattendedPlaybackRaisesOnShorterFront | scripts/tools/view_camera_data.py:51-71 | whenever the front camera is shorter than the wrist camera, playback left alone raises at the front camera's length |
| CameraViewer.KeysRunOutAtMissingFrame | scripts/tools/view_camera_data.py:58-79 | the frame's images are read before the key wait: with 3 wrist and 2 front frames, two idle keys still raise at frame 2; with an empty front camera, no key at all raises at frame 0 |
| CameraViewer.PlaybackRaisesOnlyWhenCamerasDiffer | scripts/tools/view_camera_data.py:51-71 | the display raises only when the script's count exceeds the corrected one; with cameras of equal length it plays the script's count through |
| CameraViewer.DisplayedFramesExist | scripts/tools/view_camera_data.py:55-71 | with the corrected count, every frame shown exists in every camera the episode has, so nothing raises |
| CameraViewer.KeyBindings | scripts/tools/view_camera_data.py:79-89 | 'q' and only 'q' stops; 'p' toggles pause without moving; space pauses and moves on by one; any other key moves on by one unless paused |
| CameraViewer.PauseToggles | scripts/tools/view_camera_data.py:83-89 | pressing 'p' twice gives back the state; while paused, only space moves the frame |
| CameraViewer.HandleKey | scripts/tools/view_camera_data.py:79-89 | the branches on the key stop exactly for 'q' and otherwise give the next frame and pause flag of the key bindings (`Step`) |
| CameraViewer.Play | scripts/tools/view_camera_data.py:51-89 | the loop over the script's frame count shows the frames and ends in the state that the key-by-key run from frame 0, unpaused, gives; if that run reaches a frame a present camera lacks, whether it shows it or stops there for want of keys, it raises there, at the shorter camera's length |
| CameraViewer.RunStepsForward | scripts/tools/view_camera_data.py:58-89 | every frame shown is in range; the frame index never decreases and rises by at most one per key; the loop stops at most one past the last frame shown |
| CameraViewer.RunStopsOnlyForQuitOrEnd | scripts/tools/view_camera_data.py:58-89 | one key is used per frame shown; the loop stops only for 'q' (the last key used), for reaching the frame count, or for running out of keys |
| CameraViewer.UnattendedPlaybackShowsEveryFrame | scripts/tools/view_camera_data.py:79-89 | with no key pressed, playback shows every frame once, in order, and ends just past the last one |
| CameraViewer.DisplayCameraFeeds | scripts/tools/view_camera_data.py:24-91 | display fails with the selection's error, or plays the episode as the script does: over the script's frame count, raising where a shorter camera runs out |
| CameraViewer.FrameNamesDistinct | scripts/tools/view_camera_data.py:115 | distinct frames get distinct image names, so no image overwrites another |
| CameraViewer.FrameNamesSortInFrameOrder | scripts/tools/view_camera_data.py:115-120 | below 10000 frames, image names sort in frame order, so the video's glob input is in frame order |
| CameraViewer.FrameTenThousandSortsEarly | scripts/tools/view_camera_data.py:115-120 | `frame_10000.png` sorts before `frame_9999.png`: from 10000 frames on, name order is no longer frame order |
| CameraViewer.ExportCamera | scripts/tools/view_camera_data.py:107-122 | one camera's export makes its directory, writes frame images 0 .. count-1 under it, then encodes its video |
| CameraViewer.ExportCameraData | scripts/tools/view_camera_data.py:94-122 | the actions and error of the export loops are those of the export plan |
| CameraViewer.ExportVisitsWristThenFront | scripts/tools/view_camera_data.py:105-106 | export handles the wrist camera before the front camera and skips a camera the episode lacks |
| CameraViewer.CameraActionsLayout | scripts/tools/view_camera_data.py:108-122 | a camera with n frames gives n + 2 actions: its directory, image t at position t + 1, and the `{camera}_camera.mp4` video from its directory |
| CameraViewer.ExportIndexPastEndRaises | scripts/tools/view_camera_data.py:97-98 | export does not check the index: one out of Python range raises before anything is written |

## Left out

- Simulator access is not modelled: scene lookup by name, `root_pos_w`, `root_lin_vel_w`, `target_pos_w` and `joint_pos`. The model receives this data as per-environment snapshot records.
- Torch tensors, devices and floating-point rounding are not modelled. Values are reals, and `torch.norm < t` is a comparison of squared norms.
- `ingredient_grasped` returns a fresh tensor (`clone().detach()`). Aliasing of that tensor is not modelled.
- The writer's single-thread executor and futures are not modelled. Writes are synchronous, so LAST waiting for its future and APPEND returning one behave the same here.
- An exception inside the dataset helper is not modelled as a raise. It shows as the flag `complete = false` on `Written`. What was stored before the failure stays stored.
- `copy.deepcopy`, `tensor_to_numpy` and `np.array` are not modelled; they depend on foreign torch and numpy types. The same goes for dtypes, trailing-shape checks and scalar (zero-dimensional) values. Every tensor is a sequence of rows.
- Writer storage details are not modelled: chunk length, compression, `maxshape`, `flush`, `os.makedirs` of the directory, and `h5py.File` open modes.
- The writer's base-class members are not modelled: `add_env_args` (the `env_name`/`type` attributes), `close` and `shutdown`. `_raise_if_not_initialized` appears as the outcome `NotInitialized`.
- Hdf5Writer.CreateSpec: when resuming, the existing data group is assumed to carry its `total` attribute.
- The data-generation script is modelled only for task-name parsing and ingredient substitution. The following are left out:
  - AppLauncher, `gym.make` and seeding;
  - the asynchronous environment loop and the signature checks;
  - `setup_env_config` and `get_task_type`;
  - `get_env_name_from_dataset`, whose result is the `datasetEnvName` argument.
- Messages are not modelled as text: the informational print and the warning are the `Applied` and `Ignored` outcomes.
- The argument parser's `choices` for `--ingredient_type` are not enforced. The model accepts any string, which also covers the lookup's fall-back to the raw value.
- The camera configuration classes of the simulator library are reduced to the fields the helpers read or write. The `{ENV_REGEX_NS}` prim-path template is kept as plain text.
- `example_usage` and the `__main__` printout of sandwich_camera_config.py are not modelled; they have no behaviour.
- The viewer's rendering is not modelled: `imshow`, `putText`, `hstack`, colour conversion, window handling, and `waitKey` timing. The keys `waitKey` returns are a parameter; a timed-out wait is key 255.
- The viewer's pixel rescale (`max() <= 1.0` to uint8) is not modelled; it is image arithmetic.
- CameraViewer.Run: the key sequence is finite, so playback also stops when it runs out. The frame it stops at has been read, so a frame a present camera lacks still raises, as in the script; a frame that exists is not counted as shown, where the script would display it and keep waiting for keys.
- Hdf5Writer.Find: episode data is a sequence of entries and may repeat a key, which a Python dict cannot. `Find` then takes the first entry and `PutFrom` stores every entry in turn. On data without repeated keys (`DistinctKeys`) both agree with the dict.
- The ffmpeg command is modelled as one `EncodeVideo(video, frameDir)` action. Its glob order is stated through the frame-name ordering lemmas.
- Path handling is simplified: paths are lists of components without `pathlib` normalisation, and the `mkdir` flags are not modelled.
- The viewer's `main` is not modelled: argument parsing, the file-exists check, the mode dispatch and the `fps` parameter. The `fps` value only affects timing and a printed duration.
- The declarative environment configuration files and the package `__init__` files are not modelled, apart from the registered environment name used by `SandwichEnvNamesMatch`.

## Findings

| source | as written | input that shows it | evidently intended | confidence | as-written member | corrected member |
|---|---|---|---|---|---|---|
| scripts/tools/view_camera_data.py:51 | the frame count is the wrist camera's length whenever a wrist camera exists, and the front camera is then indexed with the same frame numbers | an episode with 3 wrist frames and 2 front frames: playback reaches frame 2 and indexes the front images past their end | play only frames that every present camera has | medium: this needs camera datasets of unequal length, which the recorder does not normally write; not executed | CameraViewer.ScriptFrameCountOverrunsShorterCamera, CameraViewer.UnattendedPlaybackRaisesOnShorterFront | CameraViewer.DisplayedFramesExist |
