/**
 * agent/maintenance.go, the set computations: which snapshots belong to which runs, what an id of one
 * repository is called in another, and the lists the retention engine builds from them.
 */
module SnapshotSets {
  import opened Cardinality
  import opened MaintenanceTypes
  import opened Options

  /** A tag names a run only when what follows the prefix is a ULID; the prefix alone still groups snapshots. */
  datatype Tag = RunTag(run: Id) | MalformedRunTag(text: nat) | AnchorTag | OtherTag(name: nat) {
    predicate Groups() {
      RunTag? || MalformedRunTag?
    }
  }

  /** A snapshot as Restic lists it; `original` is the id it was copied or rewritten from. */
  datatype Record = Record(id: Id, original: Option<Id>, tags: seq<Tag>)

  function Elements(s: seq<Id>): set<Id> {
    set x | x in s
  }

  function Ids(records: seq<Record>): set<Id> {
    if records == [] then {} else Ids(records[..|records| - 1]) + {records[|records| - 1].id}
  }

  /** Restic names every snapshot of a repository differently. */
  ghost predicate DistinctIds(records: seq<Record>) {
    forall i, j | 0 <= i < j < |records| :: records[i].id != records[j].id
  }

  function RunTags(tags: seq<Tag>): set<Id> {
    if tags == [] then {}
    else RunTags(tags[..|tags| - 1]) + if tags[|tags| - 1].RunTag? then {tags[|tags| - 1].run} else {}
  }

  predicate OfRun(record: Record, runs: set<Id>) {
    RunTags(record.tags) * runs != {}
  }

  /** All snapshots of these runs. */
  function OfRuns(records: seq<Record>, runs: set<Id>): set<Id> {
    if records == [] then {}
    else
      var last := records[|records| - 1];
      OfRuns(records[..|records| - 1], runs) + if OfRun(last, runs) then {last.id} else {}
  }

  /** All runs of these snapshots. */
  function RunsOf(records: seq<Record>, ids: set<Id>): set<Id> {
    if records == [] then {}
    else
      var last := records[|records| - 1];
      RunsOf(records[..|records| - 1], ids) + if last.id in ids then RunTags(last.tags) else {}
  }

  /** The tags that group these snapshots, whether they name a run or not. */
  function GroupsOf(records: seq<Record>, ids: set<Id>): set<Tag> {
    if records == [] then {}
    else
      var last := records[|records| - 1];
      GroupsOf(records[..|records| - 1], ids) + if last.id in ids then set t | t in last.tags && t.Groups() else {}
  }

  predicate Carries(record: Record, wanted: set<Tag>) {
    exists t :: t in record.tags && t in wanted
  }

  /** All snapshots that carry one of these tags. */
  function Carrying(records: seq<Record>, wanted: set<Tag>): set<Id> {
    if records == [] then {}
    else
      var last := records[|records| - 1];
      Carrying(records[..|records| - 1], wanted) + if Carries(last, wanted) then {last.id} else {}
  }

  /** The snapshots that are in a group with one of these. */
  function Expanded(records: seq<Record>, anchors: set<Id>): set<Id> {
    Carrying(records, GroupsOf(records, anchors))
  }

  lemma {:induction false} GroupsOfMembers(records: seq<Record>, ids: set<Id>, tag: Tag)
    ensures tag in GroupsOf(records, ids) <==> tag.Groups() && exists i :: 0 <= i < |records| && records[i].id in ids && tag in records[i].tags
  {
    if records != [] {
      var n := |records| - 1;
      GroupsOfMembers(records[..n], ids, tag);
      if tag in GroupsOf(records[..n], ids) {
        var i :| 0 <= i < n && records[..n][i].id in ids && tag in records[..n][i].tags;
        assert records[i].id in ids && tag in records[i].tags;
      }
      if i :| 0 <= i < |records| && records[i].id in ids && tag in records[i].tags {
        assert i < n ==> records[..n][i] == records[i];
      }
    }
  }

  lemma {:induction false} CarryingMembers(records: seq<Record>, wanted: set<Tag>, id: Id)
    ensures id in Carrying(records, wanted) <==> exists i :: 0 <= i < |records| && records[i].id == id && Carries(records[i], wanted)
  {
    if records != [] {
      var n := |records| - 1;
      CarryingMembers(records[..n], wanted, id);
      if id in Carrying(records[..n], wanted) {
        var i :| 0 <= i < n && records[..n][i].id == id && Carries(records[..n][i], wanted);
        assert records[i].id == id && Carries(records[i], wanted);
      }
      if i :| 0 <= i < |records| && records[i].id == id && Carries(records[i], wanted) {
        assert i < n ==> records[..n][i] == records[i];
      }
    }
  }

  /** Two snapshots that carry the same run tag, well-formed or not. */
  ghost predicate Grouped(a: Record, b: Record) {
    exists t: Tag :: t.Groups() && t in a.tags && t in b.tags
  }

  /** Expanding by the listing: what shares a run tag with an anchor. */
  lemma ExpandedListed(records: seq<Record>, anchors: set<Id>, id: Id)
    ensures id in Expanded(records, anchors) <==>
            exists i, j :: 0 <= i < |records| && 0 <= j < |records| && records[i].id == id && records[j].id in anchors && Grouped(records[i], records[j])
  {
    hide Carrying, GroupsOf;
    CarryingMembers(records, GroupsOf(records, anchors), id);
    if id in Expanded(records, anchors) {
      var i :| 0 <= i < |records| && records[i].id == id && Carries(records[i], GroupsOf(records, anchors));
      var t :| t in records[i].tags && t in GroupsOf(records, anchors);
      GroupsOfMembers(records, anchors, t);
      var j :| 0 <= j < |records| && records[j].id in anchors && t in records[j].tags;
      assert Grouped(records[i], records[j]);
    }
    if i, j :| 0 <= i < |records| && 0 <= j < |records| && records[i].id == id && records[j].id in anchors && Grouped(records[i], records[j]) {
      var t: Tag :| t.Groups() && t in records[i].tags && t in records[j].tags;
      GroupsOfMembers(records, anchors, t);
      assert Carries(records[i], GroupsOf(records, anchors));
    }
  }

  /** With well-formed run tags only, expanding is taking the whole runs; malformed tags can only add to that. */
  lemma ExpandedIsWholeRuns(records: seq<Record>, anchors: set<Id>)
    ensures OfRuns(records, RunsOf(records, anchors)) <= Expanded(records, anchors)
    ensures (forall i | 0 <= i < |records| :: forall t | t in records[i].tags :: !t.MalformedRunTag?) ==>
              Expanded(records, anchors) == OfRuns(records, RunsOf(records, anchors))
  {
    hide OfRuns, RunsOf, Carrying, GroupsOf, RunTags;
    var runs, groups := RunsOf(records, anchors), GroupsOf(records, anchors);
    forall id | id in OfRuns(records, runs) ensures id in Carrying(records, groups) {
      OfRunsMembers(records, runs, id);
      var i :| 0 <= i < |records| && records[i].id == id && OfRun(records[i], runs);
      var run :| run in RunTags(records[i].tags) * runs;
      RunTagsMembers(records[i].tags, run);
      NamedGroup(records, anchors, run);
      assert Carries(records[i], groups);
      CarryingMembers(records, groups, id);
    }
    if forall i | 0 <= i < |records| :: forall t | t in records[i].tags :: !t.MalformedRunTag? {
      forall id | id in Carrying(records, groups) ensures id in OfRuns(records, runs) {
        CarryingMembers(records, groups, id);
        var i :| 0 <= i < |records| && records[i].id == id && Carries(records[i], groups);
        var t :| t in records[i].tags && t in groups;
        GroupsOfMembers(records, anchors, t);
        assert t.RunTag?;
        NamedGroup(records, anchors, t.run);
        RunTagsMembers(records[i].tags, t.run);
        assert t.run in RunTags(records[i].tags) * runs;
        OfRunsMembers(records, runs, id);
      }
    }
  }

  /** A run is one of these snapshots' runs exactly when its tag is one of their groups. */
  lemma NamedGroup(records: seq<Record>, ids: set<Id>, run: Id)
    ensures run in RunsOf(records, ids) <==> RunTag(run) in GroupsOf(records, ids)
  {
    hide RunsOf, GroupsOf, RunTags;
    RunsOfMembers(records, ids, run);
    GroupsOfMembers(records, ids, RunTag(run));
    forall i | 0 <= i < |records| ensures run in RunTags(records[i].tags) <==> RunTag(run) in records[i].tags {
      RunTagsMembers(records[i].tags, run);
    }
  }

  lemma {:induction false} IdsMembers(records: seq<Record>, id: Id)
    ensures id in Ids(records) <==> exists i :: 0 <= i < |records| && records[i].id == id
  {
    if records != [] {
      var n := |records| - 1;
      IdsMembers(records[..n], id);
      if id in Ids(records[..n]) {
        var i :| 0 <= i < n && records[..n][i].id == id;
        assert records[i].id == id;
      }
      if i :| 0 <= i < |records| && records[i].id == id {
        assert i < n ==> records[..n][i] == records[i];
      }
    }
  }

  lemma {:induction false} OfRunsMembers(records: seq<Record>, runs: set<Id>, id: Id)
    ensures id in OfRuns(records, runs) <==> exists i :: 0 <= i < |records| && records[i].id == id && OfRun(records[i], runs)
  {
    if records != [] {
      var n := |records| - 1;
      OfRunsMembers(records[..n], runs, id);
      if id in OfRuns(records[..n], runs) {
        var i :| 0 <= i < n && records[..n][i].id == id && OfRun(records[..n][i], runs);
        assert records[i].id == id && OfRun(records[i], runs);
      }
      if i :| 0 <= i < |records| && records[i].id == id && OfRun(records[i], runs) {
        assert i < n ==> records[..n][i] == records[i];
      }
    }
  }

  lemma {:induction false} RunsOfMembers(records: seq<Record>, ids: set<Id>, run: Id)
    ensures run in RunsOf(records, ids) <==> exists i :: 0 <= i < |records| && records[i].id in ids && run in RunTags(records[i].tags)
  {
    if records != [] {
      var n := |records| - 1;
      RunsOfMembers(records[..n], ids, run);
      if run in RunsOf(records[..n], ids) {
        var i :| 0 <= i < n && records[..n][i].id in ids && run in RunTags(records[..n][i].tags);
        assert records[i].id in ids && run in RunTags(records[i].tags);
      }
      if i :| 0 <= i < |records| && records[i].id in ids && run in RunTags(records[i].tags) {
        assert i < n ==> records[..n][i] == records[i];
      }
    }
  }

  /** The snapshots of any runs are snapshots of the repository. */
  lemma OfRunsWithin(records: seq<Record>, runs: set<Id>)
    ensures OfRuns(records, runs) <= Ids(records)
  {
    if records != [] {
      OfRunsWithin(records[..|records| - 1], runs);
    }
  }

  lemma CarryingWithin(records: seq<Record>, wanted: set<Tag>)
    ensures Carrying(records, wanted) <= Ids(records)
  {
    if records != [] {
      CarryingWithin(records[..|records| - 1], wanted);
    }
  }

  lemma PrefixAppend(records: seq<Record>, i: nat)
    requires i < |records|
    ensures records[..i + 1] != [] && records[..i + 1][..i] == records[..i] && records[..i + 1][i] == records[i]
  {
  }

  /** A list grows by an id it does not hold. */
  lemma AppendDistinct(s: seq<Id>, x: Id)
    requires Distinct(s) && x !in s
    ensures Distinct(s + [x])
  {
  }

  lemma AppendElements(s: seq<Id>, x: Id)
    ensures Elements(s + [x]) == Elements(s) + {x}
  {
  }

  lemma NotYet(records: seq<Record>, i: nat)
    requires DistinctIds(records) && i < |records|
    ensures records[i].id !in Ids(records[..i])
  {
    IdsMembers(records[..i], records[i].id);
  }

  method HasRunTag(tags: seq<Tag>, wanted: set<Tag>) returns (found: bool)
    ensures found <==> exists t :: t in tags && t in wanted
  {
    for i := 0 to |tags|
      invariant forall j | 0 <= j < i :: tags[j] !in wanted
    {
      if tags[i] in wanted {
        return true;
      }
    }
    found := false;
  }

  lemma {:induction false} RunTagsMembers(tags: seq<Tag>, run: Id)
    ensures run in RunTags(tags) <==> RunTag(run) in tags
  {
    if tags != [] {
      var n := |tags| - 1;
      RunTagsMembers(tags[..n], run);
      assert tags == tags[..n] + [tags[n]];
    }
  }

  ghost predicate TagsFor(wanted: set<Tag>, runs: set<Id>) {
    forall t: Tag :: t in wanted <==> t.RunTag? && t.run in runs
  }

  lemma WantedMeansRun(record: Record, wanted: set<Tag>, runs: set<Id>)
    requires TagsFor(wanted, runs)
    ensures Carries(record, wanted) <==> OfRun(record, runs)
  {
    if t :| t in record.tags && t in wanted {
      RunTagsMembers(record.tags, t.run);
      assert t.run in RunTags(record.tags) * runs;
    }
    if OfRun(record, runs) {
      var run :| run in RunTags(record.tags) * runs;
      RunTagsMembers(record.tags, run);
      assert RunTag(run) in record.tags && RunTag(run) in wanted;
    }
  }

  lemma CarryingRuns(records: seq<Record>, wanted: set<Tag>, runs: set<Id>)
    requires TagsFor(wanted, runs)
    ensures Carrying(records, wanted) == OfRuns(records, runs)
  {
    if records != [] {
      CarryingRuns(records[..|records| - 1], wanted, runs);
      WantedMeansRun(records[|records| - 1], wanted, runs);
    }
  }

  lemma NoElements(s: seq<Id>)
    requires s == []
    ensures Elements(s) == {}
  {
  }

  /** The loop that both set builders end with. */
  method Tagged(records: seq<Record>, wanted: set<Tag>) returns (result: seq<Id>)
    ensures Elements(result) == Carrying(records, wanted)
    ensures DistinctIds(records) ==> Distinct(result)
  {
    hide Elements, DistinctIds;
    result := [];
    NoElements(result);
    for i := 0 to |records|
      invariant Elements(result) == Carrying(records[..i], wanted)
      invariant DistinctIds(records) ==> Distinct(result)
    {
      PrefixAppend(records, i);
      var found := HasRunTag(records[i].tags, wanted);
      if found {
        AppendElements(result, records[i].id);
        if DistinctIds(records) {
          NotYet(records, i);
          CarryingWithin(records[..i], wanted);
          InElements(result, records[i].id);
          AppendDistinct(result, records[i].id);
        }
        result := result + [records[i].id];
      }
    }
    assert records[..|records|] == records;
  }

  lemma InElements(s: seq<Id>, x: Id)
    ensures x in Elements(s) <==> x in s
  {
  }

  /** Every snapshot of the given runs, and no other. */
  method SnapshotIdsForRunIds(records: seq<Record>, runs: seq<Id>) returns (result: seq<Id>)
    ensures Elements(result) == OfRuns(records, Elements(runs))
    ensures DistinctIds(records) ==> Distinct(result)
  {
    var wanted: set<Tag> := {};
    for i := 0 to |runs|
      invariant TagsFor(wanted, Elements(runs[..i]))
    {
      AppendElements(runs[..i], runs[i]);
      assert runs[..i + 1] == runs[..i] + [runs[i]];
      wanted := wanted + {RunTag(runs[i])};
    }
    assert runs[..|runs|] == runs;
    CarryingRuns(records, wanted, Elements(runs));
    result := Tagged(records, wanted);
  }

  /** Every snapshot in a group with one of the anchors. */
  method ExpandDatabaseRunCandidates(records: seq<Record>, anchors: seq<Id>) returns (result: seq<Id>)
    ensures Elements(result) == Expanded(records, Elements(anchors))
    ensures DistinctIds(records) ==> Distinct(result)
  {
    hide Carrying, Carries, DistinctIds, Elements;
    var wanted: set<Tag> := {};
    for i := 0 to |records|
      invariant wanted == GroupsOf(records[..i], Elements(anchors))
    {
      PrefixAppend(records, i);
      InElements(anchors, records[i].id);
      if records[i].id in anchors {
        wanted := AddGroups(wanted, records[i].tags);
      }
    }
    assert records[..|records|] == records;
    result := Tagged(records, wanted);
  }

  method AddGroups(before: set<Tag>, tags: seq<Tag>) returns (wanted: set<Tag>)
    ensures wanted == before + set t | t in tags && t.Groups()
  {
    wanted := before;
    for i := 0 to |tags|
      invariant wanted == before + set t | t in tags[..i] && t.Groups()
    {
      assert tags[..i + 1] == tags[..i] + [tags[i]];
      if tags[i].Groups() {
        wanted := wanted + {tags[i]};
      }
    }
    assert tags[..|tags|] == tags;
  }

  /** Every run that a tag of the given snapshots names, each once; malformed tags name none. */
  method RunIdsForSnapshots(records: seq<Record>, ids: seq<Id>) returns (result: seq<Id>)
    ensures Elements(result) == RunsOf(records, Elements(ids))
    ensures Distinct(result)
  {
    hide Elements;
    var runs: set<Id> := {};
    for i := 0 to |records|
      invariant runs == RunsOf(records[..i], Elements(ids))
    {
      PrefixAppend(records, i);
      InElements(ids, records[i].id);
      if records[i].id in ids {
        for j := 0 to |records[i].tags|
          invariant runs == RunsOf(records[..i], Elements(ids)) + RunTags(records[i].tags[..j])
        {
          assert records[i].tags[..j + 1][..j] == records[i].tags[..j];
          if records[i].tags[j].RunTag? {
            runs := runs + {records[i].tags[j].run};
          }
        }
        assert records[i].tags[..|records[i].tags|] == records[i].tags;
      }
    }
    assert records[..|records|] == records;
    result := SnapshotIds(runs);
  }

  /** A set as a list. */
  method SnapshotIds(inventory: set<Id>) returns (result: seq<Id>)
    ensures Elements(result) == inventory && Distinct(result) && |result| == |inventory|
  {
    result := [];
    var rest := inventory;
    while rest != {}
      invariant Elements(result) == inventory - rest && rest <= inventory
      invariant Distinct(result)
      decreases rest
    {
      var x :| x in rest;
      AppendElements(result, x);
      InElements(result, x);
      AppendDistinct(result, x);
      result := result + [x];
      rest := rest - {x};
    }
    DistinctSize(result);
  }

  method UniqueIds(values: seq<Id>) returns (result: seq<Id>)
    ensures Elements(result) == Elements(values) && Distinct(result)
  {
    var unique: set<Id> := {};
    for i := 0 to |values|
      invariant unique == Elements(values[..i])
    {
      AppendElements(values[..i], values[i]);
      assert values[..i + 1] == values[..i] + [values[i]];
      unique := unique + {values[i]};
    }
    assert values[..|values|] == values;
    result := SnapshotIds(unique);
  }

  method WithoutProtected(values: seq<Id>, protected: set<Id>) returns (result: seq<Id>)
    ensures Elements(result) == Elements(values) - protected
    ensures Distinct(values) ==> Distinct(result)
  {
    result := [];
    for i := 0 to |values|
      invariant Elements(result) == Elements(values[..i]) - protected
      invariant Distinct(values) ==> Distinct(result)
    {
      AppendElements(values[..i], values[i]);
      assert values[..i + 1] == values[..i] + [values[i]];
      if values[i] !in protected {
        AppendElements(result, values[i]);
        InElements(result, values[i]);
        InElements(values[..i], values[i]);
        if Distinct(values) {
          AppendDistinct(result, values[i]);
        }
        result := result + [values[i]];
      }
    }
    assert values[..|values|] == values;
  }

  method IntersectsProtected(values: seq<Id>, protected: set<Id>) returns (found: bool)
    ensures found <==> Elements(values) * protected != {}
  {
    for i := 0 to |values|
      invariant forall j | 0 <= j < i :: values[j] !in protected
    {
      if values[i] in protected {
        assert values[i] in Elements(values) * protected;
        return true;
      }
    }
    found := false;
  }

  /** How many of these candidates the repository still has. */
  method CountPresent(candidates: seq<Id>, present: set<Id>) returns (count: nat)
    requires Distinct(candidates)
    ensures count == |Elements(candidates) * present| && count <= |candidates|
  {
    hide Elements;
    count := 0;
    NoElements(candidates[..0]);
    for i := 0 to |candidates|
      invariant count == |Elements(candidates[..i]) * present| && count <= i
    {
      AppendElements(candidates[..i], candidates[i]);
      InElements(candidates[..i], candidates[i]);
      assert candidates[..i + 1] == candidates[..i] + [candidates[i]];
      CountOneMore(Elements(candidates[..i]), candidates[i], present);
      if candidates[i] in present {
        count := count + 1;
      }
    }
    assert candidates[..|candidates|] == candidates;
  }

  lemma CountOneMore(seen: set<Id>, x: Id, present: set<Id>)
    requires x !in seen
    ensures |(seen + {x}) * present| == |seen * present| + if x in present then 1 else 0
  {
    if x in present {
      assert (seen + {x}) * present == seen * present + {x};
    } else {
      assert (seen + {x}) * present == seen * present;
    }
  }

  /**
   * What a snapshot id means in a repository: the last snapshot listed under that id or as a copy of it,
   * or the id itself when there is none.
   */
  function LocalId(records: seq<Record>, id: Id): Id {
    if records == [] then id
    else
      var last := records[|records| - 1];
      if last.id == id || last.original == Some(id) then last.id else LocalId(records[..|records| - 1], id)
  }

  function LocalIds(records: seq<Record>, ids: seq<Id>): set<Id> {
    set id | id in ids :: LocalId(records, id)
  }

  /** The record is listed under that id, or as a copy of it. */
  predicate Names(record: Record, id: Id) {
    record.id == id || record.original == Some(id)
  }

  /** It is the last such record. */
  ghost predicate LastNamed(records: seq<Record>, id: Id, i: nat)
    requires i < |records|
  {
    Names(records[i], id) && forall j | i < j < |records| :: !Names(records[j], id)
  }

  /** The last record of that name is what an id means; an id without any means itself. */
  lemma {:induction false} LocalIdIsLastNamed(records: seq<Record>, id: Id)
    ensures forall i | 0 <= i < |records| && LastNamed(records, id, i) :: LocalId(records, id) == records[i].id
    ensures (exists i :: 0 <= i < |records| && LastNamed(records, id, i)) ||
            (LocalId(records, id) == id && forall i | 0 <= i < |records| :: !Names(records[i], id))
  {
    if records != [] {
      var n := |records| - 1;
      if Names(records[n], id) {
        assert LastNamed(records, id, n);
      } else {
        LocalIdIsLastNamed(records[..n], id);
        forall i | 0 <= i < n ensures LastNamed(records[..n], id, i) <==> LastNamed(records, id, i) {
          assert forall j | 0 <= j < n :: records[..n][j] == records[j];
        }
        assert forall i | 0 <= i < n :: records[..n][i] == records[i];
        if i :| 0 <= i < n && LastNamed(records[..n], id, i) {
          assert LastNamed(records, id, i);
        }
      }
    }
  }

  method RepositorySnapshotIds(records: seq<Record>, ids: seq<Id>) returns (result: seq<Id>)
    ensures Elements(result) == LocalIds(records, ids)
    ensures |result| == |ids|
  {
    hide Elements, LocalIds;
    var localIds: map<Id, Id> := map[];
    for i := 0 to |records|
      invariant forall id :: (if id in localIds then localIds[id] else id) == LocalId(records[..i], id)
    {
      PrefixAppend(records, i);
      localIds := localIds[records[i].id := records[i].id];
      if records[i].original.Some? {
        localIds := localIds[records[i].original.value := records[i].id];
      }
    }
    assert records[..|records|] == records;
    result := [];
    NoElements(result);
    NoLocalIds(records, ids[..0]);
    for i := 0 to |ids|
      invariant Elements(result) == LocalIds(records, ids[..i]) && |result| == i
    {
      var local := if ids[i] in localIds then localIds[ids[i]] else ids[i];
      AppendElements(result, local);
      LocalIdsAppend(records, ids[..i], ids[i]);
      assert ids[..i + 1] == ids[..i] + [ids[i]];
      result := result + [local];
    }
    assert ids[..|ids|] == ids;
  }

  lemma NoLocalIds(records: seq<Record>, ids: seq<Id>)
    requires ids == []
    ensures LocalIds(records, ids) == {}
  {
  }

  lemma LocalIdsAppend(records: seq<Record>, ids: seq<Id>, id: Id)
    ensures LocalIds(records, ids + [id]) == LocalIds(records, ids) + {LocalId(records, id)}
  {
  }

  /** A local id found in the repository is the id itself or that of a copy of it. */
  lemma {:induction false} LocalIdSource(records: seq<Record>, id: Id) returns (i: nat)
    requires LocalId(records, id) in Ids(records)
    ensures i < |records| && records[i].id == LocalId(records, id)
    ensures records[i].id == id || records[i].original == Some(id)
  {
    var n := |records| - 1;
    if records[n].id == id || records[n].original == Some(id) {
      i := n;
    } else {
      if LocalId(records[..n], id) !in Ids(records[..n]) {
        LocalIdUnmatched(records[..n], id);
      }
      i := LocalIdSource(records[..n], id);
    }
  }

  lemma {:induction false} LocalIdUnmatched(records: seq<Record>, id: Id)
    requires LocalId(records, id) !in Ids(records)
    ensures LocalId(records, id) == id
  {
    if records != [] {
      LocalIdUnmatched(records[..|records| - 1], id);
    }
  }

  /** An id protects the snapshot of that id unless a copy of it is listed after it in the same repository. */
  lemma {:induction false} ProtectsItself(records: seq<Record>, k: nat)
    requires k < |records| && DistinctIds(records)
    ensures LocalId(records, records[k].id) == records[k].id <==>
            forall i | k < i < |records| :: records[i].original != Some(records[k].id)
  {
    var n := |records| - 1;
    var id := records[k].id;
    if k < n {
      ProtectsItself(records[..n], k);
      assert records[..n][k] == records[k];
      assert forall i | k < i < n :: records[..n][i] == records[i];
    }
  }

  /** The copy is protected instead of the snapshot. */
  lemma ProtectsCopyInstead()
    ensures var records := [Record(1, None, []), Record(2, Some(1), [])];
            DistinctIds(records) && LocalIds(records, [1]) == {2}
  {
    var records := [Record(1, None, []), Record(2, Some(1), [])];
    assert LocalId(records, 1) == 2;
  }
}
