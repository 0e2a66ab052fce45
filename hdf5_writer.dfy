/**
 * The streaming HDF5 episode writer: the bookkeeping of `create` and
 * `write_episode` (the demo counter, the file's `total` attribute, each demo
 * group's `num_samples`, APPEND versus LAST writes) and the recursive
 * append-along-axis-0 of episode data into the file's group tree.
 */
module Hdf5Writer {
  import opened Wrappers
  import Decimal

  /** One sample of a dataset (its trailing dimensions, flattened). */
  type Row = seq<real>

  /** Episode data: a tensor (a sequence of rows) or a dictionary of named values, in insertion order. */
  datatype Value = Tensor(rows: seq<Row>) | Dict(entries: seq<Entry>)
  datatype Entry = Entry(key: string, value: Value)

  /** What is stored in the file: a resizable dataset or a group of named members. */
  datatype Node = Dataset(rows: seq<Row>) | Group(children: map<string, Node>)

  // ---------------------------------------------------------------------------
  // create_dataset_helper

  function EntryKeys(entries: seq<Entry>): set<string> {
    set i | 0 <= i < |entries| :: entries[i].key
  }

  /**
   * Store `v` under `key` in group `g`; the flag says whether it went through.
   * A tensor creates a dataset or appends its rows to an existing one; a dict
   * creates a group (or reuses one) and stores its entries in it. A tensor
   * over an existing group fails (a group has no `resize`), and so does a
   * non-empty dict over an existing dataset; what was stored before the
   * failure stays.
   */
  function Put(g: map<string, Node>, key: string, v: Value): (r: (map<string, Node>, bool))
    ensures r.0.Keys == g.Keys + {key}
    ensures forall k | k in g && k != key :: r.0[k] == g[k]
    ensures v.Tensor? ==> (r.1 <==> key !in g || g[key].Dataset?)
    decreases v, 1
  {
    match v
    case Tensor(rows) =>
      if key !in g then (g[key := Dataset(rows)], true)
      else if g[key].Dataset? then (g[key := Dataset(g[key].rows + rows)], true)
      else (g, false)
    case Dict(entries) =>
      if key !in g then
        var (children, ok) := PutFrom(map[], entries, 0);
        (g[key := Group(children)], ok)
      else if g[key].Group? then
        var (children, ok) := PutFrom(g[key].children, entries, 0);
        (g[key := Group(children)], ok)
      else
        (g, entries == [])
  }

  /** Store `entries[i..]` in order, stopping at the first failure. */
  function PutFrom(g: map<string, Node>, entries: seq<Entry>, i: nat): (map<string, Node>, bool)
    requires i <= |entries|
    decreases Dict(entries), 0, |entries| - i
  {
    if i == |entries| then (g, true)
    else
      var (g', ok) := Put(g, entries[i].key, entries[i].value);
      if ok then PutFrom(g', entries, i + 1) else (g', false)
  }

  /** Storing entries adds members only under their keys and leaves every other member as it was. */
  lemma {:induction false} PutFromFrame(g: map<string, Node>, entries: seq<Entry>, i: nat)
    requires i <= |entries|
    ensures var r := PutFrom(g, entries, i).0;
      && g.Keys <= r.Keys <= g.Keys + EntryKeys(entries[i..])
      && forall k | k in g && k !in EntryKeys(entries[i..]) :: r[k] == g[k]
    decreases |entries| - i
  {
    if i < |entries| {
      assert EntryKeys(entries[i..]) == {entries[i].key} + EntryKeys(entries[i + 1..]) by {
        assert forall j | i < j < |entries| :: entries[i..][j - i] == entries[j];
      }
      var (g', ok) := Put(g, entries[i].key, entries[i].value);
      if ok {
        PutFromFrame(g', entries, i + 1);
      }
    }
  }

  /** Rows of the dataset reached from `n` along `path` (none when there is no dataset there). */
  function TreeRows(n: Node, path: seq<string>): seq<Row>
    decreases |path|
  {
    if path == [] then (if n.Dataset? then n.rows else [])
    else if n.Group? && path[0] in n.children then TreeRows(n.children[path[0]], path[1..])
    else []
  }

  /** Rows that value `v` holds along `path`. */
  function ValueRows(v: Value, path: seq<string>): seq<Row>
    decreases v, 1
  {
    if path == [] then (if v.Tensor? then v.rows else [])
    else if v.Dict? then EntriesRows(v.entries, 0, path)
    else []
  }

  /** Rows that `entries[i..]` hold along `path`, in entry order. */
  function EntriesRows(entries: seq<Entry>, i: nat, path: seq<string>): seq<Row>
    requires i <= |entries| && path != []
    decreases Dict(entries), 0, |entries| - i
  {
    if i == |entries| then []
    else
      (if entries[i].key == path[0] then ValueRows(entries[i].value, path[1..]) else [])
      + EntriesRows(entries, i + 1, path)
  }

  /**
   * A successful store appends along axis 0 everywhere below `key`: at every
   * path, the new rows are the old rows followed by the rows `v` holds there.
   */
  lemma {:induction false} PutAppendsAlongEveryPath(g: map<string, Node>, key: string, v: Value, path: seq<string>)
    requires Put(g, key, v).1
    ensures TreeRows(Group(Put(g, key, v).0), [key] + path) == TreeRows(Group(g), [key] + path) + ValueRows(v, path)
    decreases v, 1
  {
    var r := Put(g, key, v).0;
    assert ([key] + path)[0] == key && ([key] + path)[1..] == path;
    match v
    case Tensor(rows) =>
    case Dict(entries) =>
      if path != [] {
        if key !in g {
          PutFromAppendsAlongEveryPath(map[], entries, 0, path);
        } else if g[key].Group? {
          PutFromAppendsAlongEveryPath(g[key].children, entries, 0, path);
        } else {
          assert entries == [];
        }
      }
  }

  lemma {:induction false} PutFromAppendsAlongEveryPath(g: map<string, Node>, entries: seq<Entry>, i: nat, path: seq<string>)
    requires i <= |entries| && path != []
    requires PutFrom(g, entries, i).1
    ensures TreeRows(Group(PutFrom(g, entries, i).0), path) == TreeRows(Group(g), path) + EntriesRows(entries, i, path)
    decreases Dict(entries), 0, |entries| - i
  {
    if i < |entries| {
      var e := entries[i];
      var g' := PutFromStep(g, entries, i);
      var here := if e.key == path[0] then ValueRows(e.value, path[1..]) else [];
      assert EntriesRows(entries, i, path) == here + EntriesRows(entries, i + 1, path);
      if e.key == path[0] {
        assert path == [e.key] + path[1..];
        PutAppendsAlongEveryPath(g, e.key, e.value, path[1..]);
      } else {
        PutLeavesOtherPaths(g, e.key, e.value, path);
      }
      PutFromAppendsAlongEveryPath(g', entries, i + 1, path);
    }
  }

  /** A store that goes through went through its first entry and then the rest. */
  lemma PutFromStep(g: map<string, Node>, entries: seq<Entry>, i: nat) returns (g': map<string, Node>)
    requires i < |entries| && PutFrom(g, entries, i).1
    ensures Put(g, entries[i].key, entries[i].value) == (g', true)
    ensures PutFrom(g, entries, i) == PutFrom(g', entries, i + 1)
  {
    g' := Put(g, entries[i].key, entries[i].value).0;
  }

  /** Storing under `key` does not change what lies along a path through another member. */
  lemma PutLeavesOtherPaths(g: map<string, Node>, key: string, v: Value, path: seq<string>)
    requires path != [] && path[0] != key
    ensures TreeRows(Group(Put(g, key, v).0), path) == TreeRows(Group(g), path)
  {
    var g' := Put(g, key, v).0;
    assert path[0] in g' <==> path[0] in g;
  }

  /** Appending a tensor to an existing dataset: the length grows by the tensor's, the old rows stay in front, the new rows follow. */
  lemma AppendToDataset(g: map<string, Node>, key: string, rows: seq<Row>)
    requires key in g && g[key].Dataset?
    ensures var r := Put(g, key, Tensor(rows));
      && r.1 && r.0[key].Dataset?
      && |r.0[key].rows| == |g[key].rows| + |rows|
      && r.0[key].rows[..|g[key].rows|] == g[key].rows
      && r.0[key].rows[|g[key].rows|..] == rows
  {
  }

  // ---------------------------------------------------------------------------
  // Episodes, demo groups and the data group

  datatype Episode = Episode(data: seq<Entry>, seed: Option<int>, success: Option<bool>)

  predicate IsEmpty(ep: Episode) {
    ep.data == []
  }

  /** The first value stored under `key`. */
  function Find(entries: seq<Entry>, key: string): (r: Option<Value>)
    ensures r.Some? <==> key in EntryKeys(entries)
    ensures r.Some? ==> exists i | 0 <= i < |entries| ::
      && entries[i] == Entry(key, r.value)
      && forall j | 0 <= j < i :: entries[j].key != key
  {
    if entries == [] then None
    else if entries[0].key == key then Some(entries[0].value)
    else
      assert EntryKeys(entries) == {entries[0].key} + EntryKeys(entries[1..]) by {
        assert forall j | 0 < j < |entries| :: entries[1..][j - 1] == entries[j];
      }
      Find(entries[1..], key)
  }

  /** Entries as a Python dict holds them: no key twice. */
  predicate DistinctKeys(entries: seq<Entry>) {
    forall i, j | 0 <= i < j < |entries| :: entries[i].key != entries[j].key
  }

  /** On dict-shaped data, looking a key up gives the value stored under it. */
  lemma FindInDistinctEntries(entries: seq<Entry>, i: nat)
    requires DistinctKeys(entries) && i < |entries|
    ensures Find(entries, entries[i].key) == Some(entries[i].value)
  {
    var r := Find(entries, entries[i].key);
    assert entries[i].key in EntryKeys(entries);
    var k :| 0 <= k < |entries| && entries[k] == Entry(entries[i].key, r.value)
      && forall j | 0 <= j < k :: entries[j].key != entries[i].key;
    if k != i {
      assert false;
    }
  }

  /** Python's `len` of a value: rows of a tensor, keys of a dict. */
  function Len(v: Value): nat {
    match v
    case Tensor(rows) => |rows|
    case Dict(entries) => |entries|
  }

  /** A `demo_k` group: its attributes and its data tree. */
  datatype DemoGroup = DemoGroup(numSamples: Option<int>, seed: Option<int>, success: Option<bool>, tree: map<string, Node>)

  const NewDemoGroup: DemoGroup := DemoGroup(None, None, None, map[])

  /** The file's `data` group: its `total` attribute and its `demo_k` subgroups. */
  datatype DataGroup = DataGroup(total: int, demos: map<string, DemoGroup>)

  datatype WriteMode = Append | Last

  /** Name of the group the `k`-th episode is written to. */
  function DemoName(k: nat): string {
    "demo_" + Decimal.NatToString(k)
  }

  /** Different counters never share a group. */
  lemma DemoNamesDistinct(a: nat, b: nat)
    ensures DemoName(a) == DemoName(b) <==> a == b
  {
    if DemoName(a) == DemoName(b) {
      assert DemoName(a)[5..] == Decimal.NatToString(a);
      assert DemoName(b)[5..] == Decimal.NatToString(b);
      Decimal.NatToStringInjective(a, b);
    }
  }

  /** The attribute updates of one write: `num_samples`, then `seed` and `success` when given. */
  function RecordAttrs(g: DemoGroup, ep: Episode): (r: DemoGroup)
    ensures r.numSamples.Some? && r.tree == g.tree
    ensures r.seed == (if ep.seed.Some? then ep.seed else g.seed)
    ensures r.success == (if ep.success.Some? then ep.success else g.success)
  {
    var samples :=
      match Find(ep.data, "actions")
      case Some(actions) => g.numSamples.GetOr(0) + Len(actions)
      case None => 0;
    DemoGroup(
      Some(samples),
      if ep.seed.Some? then ep.seed else g.seed,
      if ep.success.Some? then ep.success else g.success,
      g.tree)
  }

  /** A write with actions adds their number to what the group had (0 when it had none). */
  lemma SamplesAccumulate(g: DemoGroup, ep: Episode)
    requires "actions" in EntryKeys(ep.data)
    ensures RecordAttrs(g, ep).numSamples == Some(g.numSamples.GetOr(0) + Len(Find(ep.data, "actions").value))
  {
  }

  /** A write without actions resets the count to 0, whatever was accumulated. */
  lemma NoActionsResetsSamples(g: DemoGroup, ep: Episode)
    requires "actions" !in EntryKeys(ep.data)
    ensures RecordAttrs(g, ep).numSamples == Some(0)
  {
  }

  /** Two writes with actions to the same group add up. */
  lemma TwoWritesAddUp(g: DemoGroup, ep1: Episode, ep2: Episode)
    requires "actions" in EntryKeys(ep1.data) && "actions" in EntryKeys(ep2.data)
    ensures RecordAttrs(RecordAttrs(g, ep1), ep2).numSamples
         == Some(g.numSamples.GetOr(0) + Len(Find(ep1.data, "actions").value) + Len(Find(ep2.data, "actions").value))
  {
  }

  // ---------------------------------------------------------------------------
  // The handler's state machine

  /** `_hdf5_file_stream is not None`, the path it was opened with, `_demo_count` and the `data` group. */
  datatype WriterState = WriterState(isOpen: bool, filePath: string, demoCount: nat, dataGroup: Option<DataGroup>)

  datatype CreateError = StreamInUse | MissingDataGroup

  datatype WriteOutcome =
    | NotInitialized
    | NoDataGroup
    | SkippedEmpty
    | Written(complete: bool)

  predicate EndsWith(s: string, suffix: string) {
    |suffix| <= |s| && s[|s| - |suffix|..] == suffix
  }

  /** The path `create` opens: `.hdf5` is appended unless already there. */
  function WithHdf5Suffix(path: string): (p: string)
    ensures EndsWith(p, ".hdf5")
    ensures |path| <= |p| <= |path| + 5 && p[..|path|] == path
    ensures EndsWith(path, ".hdf5") ==> p == path
    ensures !EndsWith(path, ".hdf5") ==> p == path + ".hdf5"
  {
    if EndsWith(path, ".hdf5") then path else path + ".hdf5"
  }

  lemma SuffixIdempotent(path: string)
    ensures WithHdf5Suffix(WithHdf5Suffix(path)) == WithHdf5Suffix(path)
  {
  }

  /**
   * `create`: refused while a stream is open. A fresh file starts with an
   * empty `data` group whose `total` is 0; resuming takes the existing group
   * (the file's `data` group, if it has one) and counts its members. Resuming a
   * file without a `data` group leaves the stream open but the group unset.
   */
  function CreateSpec(s: WriterState, path: string, resume: bool, existing: Option<DataGroup>)
    : (WriterState, Result<(), CreateError>)
  {
    if s.isOpen then (s, Err(StreamInUse))
    else
      var started := s.(isOpen := true, filePath := WithHdf5Suffix(path));
      if !resume then (started.(demoCount := 0, dataGroup := Some(DataGroup(0, map[]))), Ok(()))
      else if existing.None? then (started, Err(MissingDataGroup))
      else (started.(demoCount := |existing.value.demos|, dataGroup := existing), Ok(()))
  }

  /** The demo group after writing `ep` into `g`, and whether all of the data went in. */
  function RecordEpisode(g: DemoGroup, ep: Episode): (DemoGroup, bool) {
    var attrs := RecordAttrs(g, ep);
    var (tree, complete) := PutFrom(attrs.tree, ep.data, 0);
    (attrs.(tree := tree), complete)
  }

  /**
   * `write_episode`: nothing happens for an empty episode. Otherwise the episode
   * goes to group `demo_{demoCount}` (created if missing); a LAST write then
   * adds the group's `num_samples` to `total` and moves the counter on.
   */
  function WriteSpec(s: WriterState, ep: Episode, mode: WriteMode): (WriterState, WriteOutcome) {
    if !s.isOpen then (s, NotInitialized)
    else if IsEmpty(ep) then (s, SkippedEmpty)
    else if s.dataGroup.None? then (s, NoDataGroup)
    else
      var data := s.dataGroup.value;
      var name := DemoName(s.demoCount);
      var (group, complete) := RecordEpisode(if name in data.demos then data.demos[name] else NewDemoGroup, ep);
      var total := if mode == Last then data.total + group.numSamples.value else data.total;
      var count := if mode == Last then s.demoCount + 1 else s.demoCount;
      (s.(demoCount := count, dataGroup := Some(DataGroup(total, data.demos[name := group]))), Written(complete))
  }

  // ---------------------------------------------------------------------------
  // Properties of the state machine

  lemma CreateWhileOpenFails(s: WriterState, path: string, resume: bool, existing: Option<DataGroup>)
    requires s.isOpen
    ensures CreateSpec(s, path, resume, existing) == (s, Err(StreamInUse))
  {
  }

  lemma CreateFreshStartsEmpty(s: WriterState, path: string, existing: Option<DataGroup>)
    requires !s.isOpen
    ensures var (s', r) := CreateSpec(s, path, false, existing);
      r.Ok? && s'.isOpen && EndsWith(s'.filePath, ".hdf5")
      && s'.demoCount == 0 && s'.dataGroup == Some(DataGroup(0, map[]))
  {
  }

  lemma ResumeCountsExistingGroups(s: WriterState, path: string, data: DataGroup)
    requires !s.isOpen
    ensures var (s', r) := CreateSpec(s, path, true, Some(data));
      r.Ok? && s'.demoCount == |data.demos| && s'.dataGroup == Some(data)
  {
  }

  /** An empty episode is skipped on any open stream, with or without a data group. */
  lemma EmptyEpisodeChangesNothing(s: WriterState, ep: Episode, mode: WriteMode)
    requires IsEmpty(ep)
    ensures WriteSpec(s, ep, mode).0 == s
    ensures s.isOpen ==> WriteSpec(s, ep, mode).1 == SkippedEmpty
  {
  }

  /** APPEND keeps the counter and the total, and only touches group `demo_{demoCount}`. */
  lemma AppendStaysInGroup(s: WriterState, ep: Episode)
    requires s.isOpen && s.dataGroup.Some? && !IsEmpty(ep)
    ensures var s' := WriteSpec(s, ep, Append).0;
      && s'.demoCount == s.demoCount
      && s'.dataGroup.value.total == s.dataGroup.value.total
      && s'.dataGroup.value.demos.Keys == s.dataGroup.value.demos.Keys + {DemoName(s.demoCount)}
      && forall k | k in s.dataGroup.value.demos && k != DemoName(s.demoCount) ::
           s'.dataGroup.value.demos[k] == s.dataGroup.value.demos[k]
  {
  }

  /** Two APPENDs in a row write into the same group and their action counts add up. */
  lemma AppendsAccumulateSamples(s: WriterState, ep1: Episode, ep2: Episode)
    requires s.isOpen && s.dataGroup.Some? && !IsEmpty(ep1) && !IsEmpty(ep2)
    requires "actions" in EntryKeys(ep1.data) && "actions" in EntryKeys(ep2.data)
    ensures var s2 := WriteSpec(WriteSpec(s, ep1, Append).0, ep2, Append).0;
      var name := DemoName(s.demoCount);
      var before := if name in s.dataGroup.value.demos then s.dataGroup.value.demos[name].numSamples.GetOr(0) else 0;
      && s2.demoCount == s.demoCount
      && s2.dataGroup.value.demos[name].numSamples
         == Some(before + Len(Find(ep1.data, "actions").value) + Len(Find(ep2.data, "actions").value))
  {
    var name := DemoName(s.demoCount);
    var g0 := if name in s.dataGroup.value.demos then s.dataGroup.value.demos[name] else NewDemoGroup;
    var s1 := WriteSpec(s, ep1, Append).0;
    assert s1.dataGroup.value.demos[name] == RecordEpisode(g0, ep1).0;
    assert RecordEpisode(g0, ep1).0.numSamples == RecordAttrs(g0, ep1).numSamples;
  }

  /** LAST adds exactly one to the counter and the group's `num_samples` to the total. */
  lemma LastClosesGroup(s: WriterState, ep: Episode)
    requires s.isOpen && s.dataGroup.Some? && !IsEmpty(ep)
    ensures var s' := WriteSpec(s, ep, Last).0;
      && s'.demoCount == s.demoCount + 1
      && s'.dataGroup.value.total
         == s.dataGroup.value.total + s'.dataGroup.value.demos[DemoName(s.demoCount)].numSamples.value
  {
  }

  /** After a LAST write the next episode goes to a different group. */
  lemma LastMovesToNewGroup(s: WriterState, ep: Episode)
    requires s.isOpen && s.dataGroup.Some? && !IsEmpty(ep)
    ensures DemoName(WriteSpec(s, ep, Last).0.demoCount) != DemoName(s.demoCount)
  {
    DemoNamesDistinct(s.demoCount + 1, s.demoCount);
  }

  /** A write that goes through appends the episode's rows below the group at every path. */
  lemma WriteAppendsEpisodeRows(s: WriterState, ep: Episode, mode: WriteMode, path: seq<string>)
    requires s.isOpen && s.dataGroup.Some? && !IsEmpty(ep) && path != []
    requires WriteSpec(s, ep, mode).1 == Written(true)
    ensures var name := DemoName(s.demoCount);
      var before := if name in s.dataGroup.value.demos then s.dataGroup.value.demos[name].tree else map[];
      TreeRows(Group(WriteSpec(s, ep, mode).0.dataGroup.value.demos[name].tree), path)
      == TreeRows(Group(before), path) + EntriesRows(ep.data, 0, path)
  {
    var name := DemoName(s.demoCount);
    var g0 := if name in s.dataGroup.value.demos then s.dataGroup.value.demos[name] else NewDemoGroup;
    PutFromAppendsAlongEveryPath(RecordAttrs(g0, ep).tree, ep.data, 0, path);
  }

  // ---------------------------------------------------------------------------
  // The handler object

  class StreamingHdf5DatasetFileHandler {
    var isOpen: bool
    var filePath: string
    var demoCount: nat
    var dataGroup: Option<DataGroup>

    function State(): WriterState
      reads this
    {
      WriterState(isOpen, filePath, demoCount, dataGroup)
    }

    constructor ()
      ensures State() == WriterState(false, "", 0, None)
    {
      isOpen := false;
      filePath := "";
      demoCount := 0;
      dataGroup := None;
    }

    /** `existing` is the `data` group found in the file when resuming, if there is one. */
    method Create(path: string, resume: bool, existing: Option<DataGroup>) returns (r: Result<(), CreateError>)
      modifies this
      ensures (State(), r) == CreateSpec(old(State()), path, resume, existing)
    {
      if isOpen {
        return Err(StreamInUse);
      }
      var p := path;
      if !EndsWith(p, ".hdf5") {
        p := p + ".hdf5";
      }
      isOpen := true;
      filePath := p;
      if resume {
        if existing.None? {
          return Err(MissingDataGroup);
        }
        dataGroup := existing;
        demoCount := |existing.value.demos|;
      } else {
        dataGroup := Some(DataGroup(0, map[]));
        demoCount := 0;
      }
      r := Ok(());
    }

    /** Writes are synchronous here: the episode's data is stored before the method returns. */
    method WriteEpisode(ep: Episode, mode: WriteMode) returns (outcome: WriteOutcome)
      modifies this
      ensures (State(), outcome) == WriteSpec(old(State()), ep, mode)
    {
      if !isOpen {
        return NotInitialized;
      }
      if IsEmpty(ep) {
        return SkippedEmpty;
      }
      if dataGroup.None? {
        return NoDataGroup;
      }
      ghost var s0 := State();
      var data := dataGroup.value;
      var name := DemoName(demoCount);
      var group := if name in data.demos then data.demos[name] else NewDemoGroup;
      ghost var record := RecordEpisode(group, ep);
      group := RecordAttrs(group, ep);
      var total := data.total;
      if mode == Last {
        total := total + group.numSamples.value;
        demoCount := demoCount + 1;
      }
      var tree, complete := WriteData(group.tree, ep.data);
      group := group.(tree := tree);
      assert (group, complete) == record;
      dataGroup := Some(DataGroup(total, data.demos[name := group]));
      outcome := Written(complete);
      assert (State(), outcome) == WriteSpec(s0, ep, mode);
    }

    /** The loop over the episode's top-level entries, stopping at the first that fails. */
    static method WriteData(tree0: map<string, Node>, entries: seq<Entry>) returns (tree: map<string, Node>, complete: bool)
      ensures (tree, complete) == PutFrom(tree0, entries, 0)
    {
      tree, complete := tree0, true;
      var i := 0;
      while i < |entries| && complete
        invariant 0 <= i <= |entries|
        invariant PutFrom(tree0, entries, 0) == if complete then PutFrom(tree, entries, i) else (tree, false)
      {
        var stored := Put(tree, entries[i].key, entries[i].value);
        tree, complete := stored.0, stored.1;
        i := i + 1;
      }
    }
  }
}
