/**
 * The ingredient substitution of the data-generation script: the environment
 * name is taken from the `--task` argument, and for the sandwich environments the first two
 * subtask configurations of the `so101_follower` robot are rewritten for the
 * chosen ingredient.
 */
module IngredientSubstitution {
  import opened Wrappers

  /** The robot whose subtask list is rewritten. */
  const Robot: string := "so101_follower"

  /** Substring an environment name must contain for the substitution to happen. */
  const SandwichTaskMarker: string := "AssembleSandwich"

  /** `task.split(":")[-1]`: the part after the last ':' (the whole name when there is none). */
  function LastSegment(task: string): (r: string)
    ensures |r| <= |task|
  {
    if task == [] then []
    else if task[|task| - 1] == ':' then []
    else LastSegment(task[..|task| - 1]) + [task[|task| - 1]]
  }

  /** The last segment holds no ':', ends the `--task` value, and is either all of it or preceded by a ':'. */
  lemma {:induction false} LastSegmentMeaning(task: string)
    ensures var r := LastSegment(task);
      && ':' !in r
      && r == task[|task| - |r|..]
      && (r == task || task[|task| - |r| - 1] == ':')
  {
    if task != [] && task[|task| - 1] != ':' {
      var init := task[..|task| - 1];
      LastSegmentMeaning(init);
      var r0 := LastSegment(init);
      assert init[|init| - |r0|..] + [task[|task| - 1]] == task[|task| - |r0| - 1..];
    }
  }

  /** A name without ':' is its own last segment. */
  lemma {:induction false} LastSegmentOfPlainName(task: string)
    requires ':' !in task
    ensures LastSegment(task) == task
  {
    if task != [] {
      assert ':' !in task[..|task| - 1];
      LastSegmentOfPlainName(task[..|task| - 1]);
    }
  }

  /** The last segment of `ns + ":" + name` is `name` when `name` has no ':'. */
  lemma {:induction false} NamespacedTaskName(ns: string, name: string)
    requires ':' !in name
    ensures LastSegment(ns + ":" + name) == name
  {
    var t := ns + ":" + name;
    if name == [] {
      assert t[|t| - 1] == ':';
    } else {
      var init := name[..|name| - 1];
      assert t[..|t| - 1] == ns + ":" + init;
      assert t[|t| - 1] == name[|name| - 1];
      assert ':' !in init;
      NamespacedTaskName(ns, init);
      assert init + [name[|name| - 1]] == name;
    }
  }

  /**
   * The environment name: the last segment of `--task` when a non-empty value is
   * given and that segment is non-empty, otherwise the name recorded in the
   * input dataset (read by the caller).
   */
  function EnvName(task: Option<string>, datasetEnvName: string): (name: string)
    ensures task.None? ==> name == datasetEnvName
    ensures task.Some? && LastSegment(task.value) != [] ==> name == LastSegment(task.value)
    ensures task.Some? && LastSegment(task.value) == [] ==> name == datasetEnvName
  {
    var taskName := if task.Some? && task.value != [] then LastSegment(task.value) else [];
    if taskName != [] then taskName else datasetEnvName
  }

  /**
   * A plain `--task` value is the environment name; a name taken from it
   * never holds a ':'.
   */
  lemma EnvNameMeaning(task: Option<string>, datasetEnvName: string)
    ensures task.Some? && ':' !in task.value && task.value != [] ==> EnvName(task, datasetEnvName) == task.value
    ensures EnvName(task, datasetEnvName) != datasetEnvName ==>
      task.Some? && ':' !in EnvName(task, datasetEnvName) && EnvName(task, datasetEnvName) != []
  {
    if task.Some? {
      LastSegmentMeaning(task.value);
      if ':' !in task.value {
        LastSegmentOfPlainName(task.value);
      }
    }
  }

  /** Human-readable ingredient names; any other value is shown as it is. */
  function DisplayName(ingredient: string): (name: string)
    ensures ingredient == "bread_slice_1" || ingredient == "bread_slice_2" ==> name == "bread slice"
    ensures ingredient == "cheese_slice" ==> name == "cheese slice"
    ensures ingredient == "patty" ==> name == "patty"
    ensures ingredient !in {"bread_slice_1", "bread_slice_2", "cheese_slice", "patty"} ==> name == ingredient
  {
    if ingredient == "bread_slice_1" then "bread slice"
    else if ingredient == "bread_slice_2" then "bread slice"
    else if ingredient == "cheese_slice" then "cheese slice"
    else if ingredient == "patty" then "patty"
    else ingredient
  }

  function GraspDescription(name: string): string {
    "Grasp " + name + " from cartridge"
  }

  function PlaceDescription(name: string): string {
    "Place " + name + " on plate"
  }

  /** One subtask of a demonstration, as the mimic data generator describes it. */
  datatype SubTaskConfig = SubTaskConfig(
    objectRef: string,
    subtaskTermSignal: Option<string>,
    subtaskTermOffsetRange: (int, int),
    selectionStrategy: string,
    nnK: int,
    actionNoise: real,
    numInterpolationSteps: nat,
    numFixedSteps: nat,
    applyNoiseDuringInterpolation: bool,
    description: string,
    nextSubtaskDescription: Option<string>)

  /** Subtask configurations per robot name. */
  type SubtaskConfigs = map<string, seq<SubTaskConfig>>

  /** A non-empty configuration map without the robot's entry raises `KeyError`; an empty list for it raises `IndexError`. */
  datatype Failure = MissingRobot | NoSubtasks

  /** The rewrite of the first two subtasks for `ingredient`. */
  function RewriteSubtasks(subtasks: seq<SubTaskConfig>, ingredient: string): (r: seq<SubTaskConfig>)
    requires |subtasks| > 0
    ensures |r| == |subtasks|
    ensures r[0] == subtasks[0].(
      objectRef := ingredient,
      description := GraspDescription(DisplayName(ingredient)),
      nextSubtaskDescription := Some(PlaceDescription(DisplayName(ingredient))))
    ensures |r| > 1 ==> r[1] == subtasks[1].(description := PlaceDescription(DisplayName(ingredient)))
    ensures forall k | 2 <= k < |r| :: r[k] == subtasks[k]
  {
    var name := DisplayName(ingredient);
    var first := subtasks[0].(
      objectRef := ingredient,
      description := GraspDescription(name),
      nextSubtaskDescription := Some(PlaceDescription(name)));
    if |subtasks| == 1 then [first]
    else [first, subtasks[1].(description := PlaceDescription(name))] + subtasks[2..]
  }

  datatype Outcome =
    | NotRequested                 // no ingredient given, or not the sandwich task
    | Applied(ingredient: string, displayName: string)
    | Ignored                      // no subtask configurations: a warning only
    | Failed(failure: Failure)

  /**
   * The substitution step of the script for the configuration `configs`
   * (`None` when the environment configuration has no `subtask_configs`):
   * the new configurations and what happened.
   */
  function Substitute(configs: Option<SubtaskConfigs>, ingredient: Option<string>, envName: string)
    : (Option<SubtaskConfigs>, Outcome)
  {
    if ingredient.None? || !Contains(envName, SandwichTaskMarker) then (configs, NotRequested)
    else if configs.None? || |configs.value| == 0 then (configs, Ignored)
    else if Robot !in configs.value then (configs, Failed(MissingRobot))
    else if |configs.value[Robot]| == 0 then (configs, Failed(NoSubtasks))
    else
      var c := configs.value;
      (Some(c[Robot := RewriteSubtasks(c[Robot], ingredient.value)]),
       Applied(ingredient.value, DisplayName(ingredient.value)))
  }

  /** `needle` occurs in `haystack` starting at index `i`. */
  predicate OccursAt(haystack: string, needle: string, i: nat) {
    i + |needle| <= |haystack| && haystack[i..i + |needle|] == needle
  }

  /** An occurrence past the first character is an occurrence in the tail. */
  lemma OccursInTail(haystack: string, needle: string, i: nat)
    requires 0 < i && |haystack| > 0
    ensures OccursAt(haystack, needle, i) <==> OccursAt(haystack[1..], needle, i - 1)
  {
    if i + |needle| <= |haystack| {
      assert haystack[i..i + |needle|] == haystack[1..][i - 1..i - 1 + |needle|];
    }
  }

  /** Python's `needle in haystack` on strings. */
  function Contains(haystack: string, needle: string): (b: bool)
    ensures b <==> exists i: nat :: OccursAt(haystack, needle, i)
    decreases |haystack|
  {
    if |haystack| < |needle| then false
    else if haystack[..|needle|] == needle then assert OccursAt(haystack, needle, 0); true
    else
      var b := Contains(haystack[1..], needle);
      if b then
        var i: nat :| OccursAt(haystack[1..], needle, i);
        OccursInTail(haystack, needle, i + 1);
        true
      else
        assert forall i: nat | OccursAt(haystack, needle, i) :: i > 0 && OccursAt(haystack[1..], needle, i - 1) by {
          forall i: nat | OccursAt(haystack, needle, i)
            ensures i > 0 && OccursAt(haystack[1..], needle, i - 1)
          {
            if i > 0 {
              OccursInTail(haystack, needle, i);
            }
          }
        }
        false
  }

  // ---------------------------------------------------------------------------
  // Properties

  /** Without an ingredient, or outside the sandwich task, nothing changes. */
  lemma NotRequestedLeavesConfigs(configs: Option<SubtaskConfigs>, ingredient: Option<string>, envName: string)
    requires ingredient.None? || !Contains(envName, SandwichTaskMarker)
    ensures Substitute(configs, ingredient, envName) == (configs, NotRequested)
  {
  }

  /** An empty configuration map only draws a warning. */
  lemma EmptyConfigsIgnored(ingredient: string, envName: string)
    requires Contains(envName, SandwichTaskMarker)
    ensures Substitute(Some(map[]), Some(ingredient), envName) == (Some(map[]), Ignored)
  {
  }

  /**
   * After a substitution, subtask 0 grasps the ingredient and both descriptions
   * name it; subtask 1, when there is one, keeps its object and every field but
   * its description; later subtasks and other robots are untouched.
   */
  lemma SubstitutionRewritesFirstTwo(c: SubtaskConfigs, ingredient: string, envName: string)
    requires Contains(envName, SandwichTaskMarker) && Robot in c && |c[Robot]| > 0
    ensures var (r, outcome) := Substitute(Some(c), Some(ingredient), envName);
      && outcome == Applied(ingredient, DisplayName(ingredient))
      && r.Some? && r.value.Keys == c.Keys
      && (forall robot | robot in c && robot != Robot :: r.value[robot] == c[robot])
      && |r.value[Robot]| == |c[Robot]|
      && r.value[Robot][0].objectRef == ingredient
      && r.value[Robot][0].description == "Grasp " + DisplayName(ingredient) + " from cartridge"
      && r.value[Robot][0].nextSubtaskDescription == Some("Place " + DisplayName(ingredient) + " on plate")
      && (|c[Robot]| > 1 ==>
            && r.value[Robot][1].objectRef == c[Robot][1].objectRef
            && r.value[Robot][1].description == "Place " + DisplayName(ingredient) + " on plate"
            && r.value[Robot][1].(description := c[Robot][1].description) == c[Robot][1])
      && forall k | 2 <= k < |c[Robot]| :: r.value[Robot][k] == c[Robot][k]
  {
    var r := RewriteSubtasks(c[Robot], ingredient);
    forall k | 2 <= k < |c[Robot]|
      ensures r[k] == c[Robot][k]
    {
      assert r[k] == r[2..][k - 2];
    }
  }

  /** Both bread slices are described the same way. */
  lemma BreadSlicesShareDescription(envName: string, c: SubtaskConfigs)
    requires Contains(envName, SandwichTaskMarker) && Robot in c && |c[Robot]| > 0
    ensures Substitute(Some(c), Some("bread_slice_1"), envName).0.value[Robot][0].description
         == Substitute(Some(c), Some("bread_slice_2"), envName).0.value[Robot][0].description
  {
  }

  /** The generator environments' names contain the marker. */
  lemma SandwichEnvNamesMatch()
    ensures Contains("LeIsaac-SO101-AssembleSandwich-Mimic-v0", SandwichTaskMarker)
  {
    var name := "LeIsaac-SO101-AssembleSandwich-Mimic-v0";
    assert name == "LeIsaac-SO101-" + SandwichTaskMarker + "-Mimic-v0";
    assert name[14..30] == SandwichTaskMarker;
    assert OccursAt(name, SandwichTaskMarker, 14);
  }

  // ---------------------------------------------------------------------------
  // The environment configuration object

  class MimicEnvCfg {
    /** `None` when the configuration has no `subtask_configs` attribute. */
    var subtaskConfigs: Option<SubtaskConfigs>

    constructor (configs: Option<SubtaskConfigs>)
      ensures subtaskConfigs == configs
    {
      subtaskConfigs := configs;
    }

    /** The script's in-place rewrite of the configuration for `--ingredient_type`. */
    method ApplyIngredientType(ingredient: Option<string>, envName: string) returns (outcome: Outcome)
      modifies this
      ensures (subtaskConfigs, outcome) == Substitute(old(subtaskConfigs), ingredient, envName)
    {
      if ingredient.None? || !Contains(envName, SandwichTaskMarker) {
        return NotRequested;
      }
      if subtaskConfigs.None? || |subtaskConfigs.value| == 0 {
        return Ignored;
      }
      var c := subtaskConfigs.value;
      if Robot !in c {
        return Failed(MissingRobot);
      }
      var subtasks := c[Robot];
      if |subtasks| == 0 {
        return Failed(NoSubtasks);
      }
      var name := DisplayName(ingredient.value);
      subtasks := subtasks[0 := subtasks[0].(objectRef := ingredient.value)];
      subtasks := subtasks[0 := subtasks[0].(description := GraspDescription(name))];
      subtasks := subtasks[0 := subtasks[0].(nextSubtaskDescription := Some(PlaceDescription(name)))];
      if |subtasks| > 1 {
        subtasks := subtasks[1 := subtasks[1].(description := PlaceDescription(name))];
      }
      ghost var expected := RewriteSubtasks(c[Robot], ingredient.value);
      assert subtasks == expected by {
        forall k | 0 <= k < |subtasks|
          ensures subtasks[k] == expected[k]
        {
        }
      }
      subtaskConfigs := Some(c[Robot := subtasks]);
      outcome := Applied(ingredient.value, name);
    }
  }
}
