/**
 * A Restic repository as agent/maintenance.go uses it: a list of tagged snapshots that only `forget`
 * changes, behind an executor whose every answer is arbitrary, together with the durable plan of the
 * run. Everything that was asked, answered and saved is on a trace.
 */
module ResticRepositories {
  import opened Cardinality
  import opened MaintenanceTypes
  import opened Options
  import opened SnapshotSets

  datatype Operation = Snapshots | ForgetPlan(anchorsOnly: bool) | ForgetIds(ids: seq<Id>) | PruneRepository
                     | CheckRepository | CheckDataPart(part: nat, total: nat)

  datatype Request = Request(operation: Operation, recoverStaleLocks: bool)

  /** `listing` and `plan` are the parsed output; they are missing when it is malformed. */
  datatype Response = Response(
    exit: nat, cancelled: bool, deadline: bool, listing: Option<seq<Record>>, plan: Option<seq<Id>>, errors: nat)

  datatype Action = Ran(request: Request, response: Response) | Persisted(plan: Plan, ok: bool)

  /** How the next call goes; `removed` are the snapshots a forget really removes, if it was given them. */
  datatype Fate = Fate(exit: nat, cancelled: bool, deadline: bool, malformed: bool, removed: set<Id>, plan: seq<Id>, errors: nat)

  const LOCKED: nat := 11

  function Without(records: seq<Record>, ids: set<Id>): seq<Record> {
    if records == [] then []
    else
      Without(records[..|records| - 1], ids) + if records[|records| - 1].id in ids then [] else [records[|records| - 1]]
  }

  lemma {:induction false} WithoutIds(records: seq<Record>, ids: set<Id>)
    ensures Ids(Without(records, ids)) == Ids(records) - ids
  {
    if records != [] {
      var n := |records| - 1;
      WithoutIds(records[..n], ids);
      if records[n].id !in ids {
        assert Without(records, ids)[..|Without(records, ids)| - 1] == Without(records[..n], ids);
      } else {
        assert Without(records, ids) == Without(records[..n], ids);
      }
    }
  }

  lemma {:induction false} WithoutDistinct(records: seq<Record>, ids: set<Id>)
    requires DistinctIds(records)
    ensures DistinctIds(Without(records, ids))
  {
    if records != [] {
      var n := |records| - 1;
      WithoutDistinct(records[..n], ids);
      WithoutIds(records[..n], ids);
      NotYet(records, n);
      var rest := Without(records[..n], ids);
      assert records[..|records| - 1] == records[..n];
      forall i | 0 <= i < |rest| ensures rest[i].id != records[n].id {
        IdsMembers(rest, rest[i].id);
      }
    }
  }

  /** The first is what the second became when some snapshots were removed. */
  ghost predicate Part(a: seq<Record>, b: seq<Record>) {
    exists gone: set<Id> :: a == Without(b, gone)
  }

  lemma WithoutLast(records: seq<Record>, ids: set<Id>)
    requires records != []
    ensures var n := |records| - 1;
            var rest, all := Without(records[..n], ids), Without(records, ids);
            if records[n].id in ids then all == rest else all != [] && all[..|all| - 1] == rest && all[|all| - 1] == records[n]
  {
  }

  lemma {:induction false} WithoutTwice(records: seq<Record>, first: set<Id>, second: set<Id>)
    ensures Without(Without(records, first), second) == Without(records, first + second)
  {
    if records != [] {
      var n := |records| - 1;
      WithoutTwice(records[..n], first, second);
      WithoutLast(records, first);
    }
  }

  lemma {:induction false} WithoutNothing(records: seq<Record>)
    ensures Without(records, {}) == records
  {
    if records != [] {
      WithoutNothing(records[..|records| - 1]);
    }
  }

  lemma {:induction false} WithoutMembers(records: seq<Record>, ids: set<Id>)
    ensures forall r | r in Without(records, ids) :: r in records
  {
    if records != [] {
      WithoutMembers(records[..|records| - 1], ids);
    }
  }

  lemma PartItself(a: seq<Record>)
    ensures Part(a, a)
  {
    WithoutNothing(a);
  }

  lemma PartOf(a: seq<Record>, b: seq<Record>, c: seq<Record>)
    requires Part(a, b) && Part(b, c)
    ensures Part(a, c)
  {
    var second: set<Id> :| a == Without(b, second);
    var first: set<Id> :| b == Without(c, first);
    WithoutTwice(c, first, second);
  }

  lemma PartMembers(a: seq<Record>, b: seq<Record>)
    requires Part(a, b)
    ensures forall r | r in a :: r in b
  {
    var gone: set<Id> :| a == Without(b, gone);
    WithoutMembers(b, gone);
  }

  /** What is removed from the repository is removed from its runs. */
  lemma {:induction false} WithoutOfRuns(records: seq<Record>, gone: set<Id>, runs: set<Id>)
    ensures OfRuns(Without(records, gone), runs) == OfRuns(records, runs) - gone
  {
    if records != [] {
      var n := |records| - 1;
      WithoutOfRuns(records[..n], gone, runs);
      WithoutLast(records, gone);
    }
  }

  /** An id goes on meaning the same snapshot for as long as that is there. */
  lemma {:induction false} WithoutLocalId(records: seq<Record>, gone: set<Id>, id: Id)
    requires LocalId(records, id) !in gone
    ensures LocalId(Without(records, gone), id) == LocalId(records, id)
  {
    if records != [] {
      var n := |records| - 1;
      if !(records[n].id == id || records[n].original == Some(id)) {
        WithoutLocalId(records[..n], gone, id);
      }
      WithoutLast(records, gone);
    }
  }

  /** Fewer snapshots have fewer of the runs' snapshots. */
  lemma PartOfRuns(a: seq<Record>, b: seq<Record>, runs: set<Id>)
    requires Part(a, b)
    ensures OfRuns(a, runs) <= OfRuns(b, runs)
  {
    PartMembers(a, b);
    forall id | id in OfRuns(a, runs) ensures id in OfRuns(b, runs) {
      OfRunsMembers(a, runs, id);
      var i :| 0 <= i < |a| && a[i].id == id && OfRun(a[i], runs);
      assert a[i] in b;
      var j :| 0 <= j < |b| && b[j] == a[i];
      OfRunsMembers(b, runs, id);
    }
  }

  function Answer(fate: Fate, operation: Operation, records: seq<Record>): Response {
    var readable := fate.exit == 0 && !fate.malformed;
    Response(fate.exit, fate.cancelled, fate.deadline,
             if operation.Snapshots? && readable then Some(records) else None,
             if operation.ForgetPlan? && readable then Some(fate.plan) else None,
             fate.errors)
  }

  function Effect(fate: Fate, operation: Operation, records: seq<Record>): seq<Record> {
    if operation.ForgetIds? then Without(records, fate.removed * Elements(operation.ids)) else records
  }

  /** All ids that were given to `forget` since `from`. */
  function Asked(trace: seq<Action>, from: nat): set<Id> {
    if |trace| <= from then {}
    else
      var last := trace[|trace| - 1];
      Asked(trace[..|trace| - 1], from) + if IsForget(last) then Elements(last.request.operation.ids) else {}
  }

  predicate IsForget(action: Action) {
    action.Ran? && action.request.operation.ForgetIds?
  }

  predicate IsPrune(action: Action) {
    action.Ran? && action.request.operation.PruneRepository?
  }

  /** A plan that lists these ids was saved between `from` and `before`. */
  ghost predicate Announced(trace: seq<Action>, from: nat, before: int, ids: set<Id>) {
    exists j :: from <= j < before && j < |trace| && trace[j].Persisted? && trace[j].ok && trace[j].plan.forgetPlanned &&
                ids <= Elements(trace[j].plan.candidates)
  }

  /** Write-ahead: whatever `forget` is given is in a plan saved before. */
  ghost predicate WriteAhead(trace: seq<Action>, from: nat) {
    forall i | from <= i < |trace| && IsForget(trace[i]) :: Announced(trace, from, i, Elements(trace[i].request.operation.ids))
  }

  /** Somewhere before, the repository listed none of these ids, and nothing was forgotten since. */
  ghost predicate Cleared(trace: seq<Action>, from: nat, before: int, ids: set<Id>) {
    exists k :: from <= k < before && k < |trace| && ListsNone(trace[k], ids) && (forall i | k < i < before && i < |trace| :: !IsForget(trace[i]))
  }

  predicate ListsNone(action: Action, ids: set<Id>) {
    action.Ran? && action.response.listing.Some? && Ids(action.response.listing.value) * ids == {}
  }

  /** A prune is started only when that has been saved, and only when nothing it was to follow is left. */
  ghost predicate PrunesLast(trace: seq<Action>, from: nat) {
    forall i | from <= i < |trace| && IsPrune(trace[i]) :: PruneDue(trace, from, i)
  }

  ghost predicate PruneDue(trace: seq<Action>, from: nat, before: int) {
    exists j :: from <= j < before && j < |trace| && trace[j].Persisted? && trace[j].ok && trace[j].plan.pruneStarted &&
                Cleared(trace, from, before, Elements(trace[j].plan.candidates))
  }

  ghost predicate Orderly(trace: seq<Action>, from: nat) {
    from <= |trace| && WriteAhead(trace, from) && PrunesLast(trace, from)
  }

  lemma OrderlyStart(trace: seq<Action>)
    ensures Orderly(trace, |trace|) && Asked(trace, |trace|) == {}
  {
  }

  lemma AnnouncedStays(trace: seq<Action>, action: Action, from: nat, before: int, ids: set<Id>)
    requires Announced(trace, from, before, ids)
    ensures Announced(trace + [action], from, before, ids)
  {
    var j :| from <= j < before && j < |trace| && trace[j].Persisted? && trace[j].ok && trace[j].plan.forgetPlanned &&
             ids <= Elements(trace[j].plan.candidates);
    assert (trace + [action])[j] == trace[j];
  }

  lemma ClearedStays(trace: seq<Action>, action: Action, from: nat, before: int, ids: set<Id>)
    requires Cleared(trace, from, before, ids) && before <= |trace|
    ensures Cleared(trace + [action], from, before, ids)
    ensures before == |trace| && !IsForget(action) ==> Cleared(trace + [action], from, before + 1, ids)
  {
    var k :| from <= k < before && k < |trace| && ListsNone(trace[k], ids) && (forall i | k < i < before && i < |trace| :: !IsForget(trace[i]));
    assert (trace + [action])[k] == trace[k];
  }

  lemma PruneDueStays(trace: seq<Action>, action: Action, from: nat, before: int)
    requires PruneDue(trace, from, before) && before <= |trace|
    ensures PruneDue(trace + [action], from, before)
    ensures before == |trace| && !IsForget(action) ==> PruneDue(trace + [action], from, before + 1)
  {
    var j :| from <= j < before && j < |trace| && trace[j].Persisted? && trace[j].ok && trace[j].plan.pruneStarted &&
             Cleared(trace, from, before, Elements(trace[j].plan.candidates));
    assert (trace + [action])[j] == trace[j];
    ClearedStays(trace, action, from, before, Elements(trace[j].plan.candidates));
  }

  /** The trace stays in order when what is forgotten was announced and what is pruned was due. */
  lemma OrderlyAppend(trace: seq<Action>, action: Action, from: nat)
    requires Orderly(trace, from)
    requires IsForget(action) ==> Announced(trace, from, |trace|, Elements(action.request.operation.ids))
    requires IsPrune(action) ==> PruneDue(trace, from, |trace|)
    ensures Orderly(trace + [action], from)
  {
    var after := trace + [action];
    forall i | from <= i < |after| && IsForget(after[i]) ensures Announced(after, from, i, Elements(after[i].request.operation.ids)) {
      if i < |trace| {
        assert after[i] == trace[i];
      }
      AnnouncedStays(trace, action, from, i, Elements(after[i].request.operation.ids));
    }
    forall i | from <= i < |after| && IsPrune(after[i]) ensures PruneDue(after, from, i) {
      if i < |trace| {
        assert after[i] == trace[i];
      }
      PruneDueStays(trace, action, from, i);
    }
  }

  lemma AskedAppend(trace: seq<Action>, action: Action, from: nat)
    requires from <= |trace|
    ensures Asked(trace + [action], from) == Asked(trace, from) + if IsForget(action) then Elements(action.request.operation.ids) else {}
  {
    assert (trace + [action])[..|trace|] == trace;
  }

  lemma {:induction false} AskedSplit(before: seq<Action>, after: seq<Action>, from: nat)
    requires from <= |before| && before <= after
    ensures Asked(after, from) == Asked(before, from) + Asked(after, |before|)
  {
    if |before| < |after| {
      var init := after[..|after| - 1];
      AskedSplit(before, init, from);
    } else {
      assert before == after;
    }
  }

  class Repository {
    const fates: nat -> Fate
    const primary: bool // a replica's plan is not saved
    var clock: nat
    var records: seq<Record>
    var current: Option<Plan> // the plan as last handed over for saving
    var prepared: bool        // this attempt has already run something
    ghost var trace: seq<Action>

    ghost predicate Valid()
      reads this
    {
      DistinctIds(records)
    }

    constructor (fates: nat -> Fate, primary: bool, records: seq<Record>, current: Option<Plan>)
      requires DistinctIds(records)
      ensures Valid() && this.fates == fates && this.primary == primary && this.records == records && this.current == current
      ensures clock == 0 && trace == [] && !prepared
    {
      this.fates, this.primary, this.records, this.current := fates, primary, records, current;
      clock, prepared, trace := 0, false, [];
    }

    method Execute(request: Request) returns (response: Response)
      requires Valid()
      modifies this`clock, this`records, this`trace
      ensures Valid() && clock == old(clock) + 1
      ensures response == Answer(fates(old(clock)), request.operation, old(records))
      ensures records == Effect(fates(old(clock)), request.operation, old(records))
      ensures trace == old(trace) + [Ran(request, response)]
    {
      hide DistinctIds;
      var fate := fates(clock);
      clock := clock + 1;
      response := Answer(fate, request.operation, records);
      if request.operation.ForgetIds? {
        WithoutDistinct(records, fate.removed * Elements(request.operation.ids));
      }
      records := Effect(fate, request.operation, records);
      trace := trace + [Ran(request, response)];
    }

    /**
     * The first call of an attempt also clears stale locks; a later one does so only when it finds the
     * repository locked, by being made again.
     */
    method Run(operation: Operation) returns (response: Response)
      requires Valid()
      modifies this`clock, this`records, this`trace, this`prepared
      ensures Valid() && prepared
      ensures Extends(old(trace), trace, operation, response)
      ensures !operation.ForgetIds? ==> records == old(records)
      ensures response.listing.Some? ==> operation.Snapshots? && response.exit == 0 && response.listing.value == records
      ensures response.plan.Some? ==> operation.ForgetPlan? && response.exit == 0
      ensures operation.ForgetIds? ==> Ids(old(records)) - Elements(operation.ids) <= Ids(records) <= Ids(old(records))
      ensures Part(records, old(records))
    {
      hide DistinctIds, Ids, Elements, Effect;
      var recover := !prepared;
      prepared := true;
      EffectIds(fates(clock), operation, records);
      response := Execute(Request(operation, recover));
      ghost var between := records;
      if response.exit == LOCKED && !recover {
        EffectIds(fates(clock), operation, records);
        response := Execute(Request(operation, true));
        PartOf(records, between, old(records));
      }
    }

    /** Hands over a plan for saving; the primary keeps it in mind even when that fails. */
    method Persist(plan: Plan) returns (ok: bool)
      modifies this`clock, this`trace, this`current
      ensures trace == old(trace) + [Persisted(plan, ok)] && clock == old(clock) + 1
      ensures current == if primary then Some(plan) else old(current)
      ensures ok <==> !primary || fates(old(clock)).exit == 0
    {
      ok := !primary || fates(clock).exit == 0;
      clock := clock + 1;
      if primary {
        current := Some(plan);
      }
      trace := trace + [Persisted(plan, ok)];
    }
  }

  /** The operation was run, and once more, now clearing stale locks, only if it had found the repository locked. */
  ghost predicate Extends(before: seq<Action>, after: seq<Action>, operation: Operation, response: Response) {
    || (exists recover: bool :: after == before + [Ran(Request(operation, recover), response)] && (response.exit == LOCKED ==> recover))
    || (exists first: Response :: first.exit == LOCKED &&
          after == before + [Ran(Request(operation, false), first)] + [Ran(Request(operation, true), response)])
  }

  /** What running an operation means for the order of the trace and for what was asked. */
  lemma AfterRun(before: seq<Action>, after: seq<Action>, from: nat, operation: Operation, response: Response, unplanned: bool)
    requires from <= |before| && Extends(before, after, operation, response)
    requires unplanned ==> Orderly(before, from)
    requires unplanned && operation.ForgetIds? ==> Announced(before, from, |before|, Elements(operation.ids))
    requires unplanned && operation.PruneRepository? ==> PruneDue(before, from, |before|)
    ensures unplanned ==> Orderly(after, from)
    ensures Asked(after, from) == Asked(before, from) + if operation.ForgetIds? then Elements(operation.ids) else {}
    ensures before <= after && from <= |before| < |after| && after[|after| - 1].Ran? && after[|after| - 1].response == response
    ensures after[|after| - 1].request.operation == operation
  {
    hide Orderly, Announced, PruneDue, Elements;
    if recover: bool :| after == before + [Ran(Request(operation, recover), response)] {
      OneMore(before, Ran(Request(operation, recover), response), from, unplanned);
    } else {
      var first: Response :| first.exit == LOCKED && after == before + [Ran(Request(operation, false), first)] + [Ran(Request(operation, true), response)];
      OneMore(before, Ran(Request(operation, false), first), from, unplanned);
      OneMore(before + [Ran(Request(operation, false), first)], Ran(Request(operation, true), response), from, unplanned);
    }
  }

  lemma OneMore(before: seq<Action>, action: Action, from: nat, unplanned: bool)
    requires from <= |before| && action.Ran?
    requires unplanned ==> Orderly(before, from)
    requires unplanned && IsForget(action) ==> Announced(before, from, |before|, Elements(action.request.operation.ids))
    requires unplanned && IsPrune(action) ==> PruneDue(before, from, |before|)
    ensures unplanned ==> Orderly(before + [action], from)
    ensures Asked(before + [action], from) == Asked(before, from) + if IsForget(action) then Elements(action.request.operation.ids) else {}
    ensures unplanned && IsForget(action) ==> Announced(before + [action], from, |before| + 1, Elements(action.request.operation.ids))
    ensures unplanned && IsPrune(action) ==> PruneDue(before + [action], from, |before| + 1)
  {
    AskedAppend(before, action, from);
    if unplanned {
      OrderlyAppend(before, action, from);
      if IsForget(action) {
        AnnouncedLater(before, action, from, Elements(action.request.operation.ids));
      }
      if IsPrune(action) {
        PruneDueStays(before, action, from, |before|);
      }
    }
  }

  lemma AnnouncedLater(trace: seq<Action>, action: Action, from: nat, ids: set<Id>)
    requires Announced(trace, from, |trace|, ids)
    ensures Announced(trace + [action], from, |trace| + 1, ids)
  {
    AnnouncedStays(trace, action, from, |trace|, ids);
    var after := trace + [action];
    var j :| from <= j < |trace| && j < |after| && after[j].Persisted? && after[j].ok && after[j].plan.forgetPlanned &&
             ids <= Elements(after[j].plan.candidates);
    assert from <= j < |trace| + 1;
  }

  /** A part of what was announced was announced. */
  lemma AnnouncedPart(trace: seq<Action>, from: nat, ids: set<Id>, part: set<Id>)
    requires Announced(trace, from, |trace|, ids) && part <= ids
    ensures Announced(trace, from, |trace|, part)
  {
  }

  /** Running anything leaves what was announced announced. */
  lemma AnnouncedAfterRun(before: seq<Action>, after: seq<Action>, from: nat, operation: Operation, response: Response, ids: set<Id>)
    requires Extends(before, after, operation, response) && Announced(before, from, |before|, ids)
    ensures Announced(after, from, |after|, ids)
  {
    hide Announced;
    if recover: bool :| after == before + [Ran(Request(operation, recover), response)] {
      AnnouncedLater(before, Ran(Request(operation, recover), response), from, ids);
    } else {
      var first: Response :| first.exit == LOCKED && after == before + [Ran(Request(operation, false), first)] + [Ran(Request(operation, true), response)];
      AnnouncedLater(before, Ran(Request(operation, false), first), from, ids);
      AnnouncedLater(before + [Ran(Request(operation, false), first)], Ran(Request(operation, true), response), from, ids);
    }
  }

  /** Saving a plan is always in order. */
  lemma AfterPersist(before: seq<Action>, plan: Plan, ok: bool, from: nat, unplanned: bool)
    requires from <= |before|
    requires unplanned ==> Orderly(before, from)
    ensures unplanned ==> Orderly(before + [Persisted(plan, ok)], from)
    ensures Asked(before + [Persisted(plan, ok)], from) == Asked(before, from)
    ensures ok && plan.forgetPlanned ==> Announced(before + [Persisted(plan, ok)], from, |before| + 1, Elements(plan.candidates))
  {
    AskedAppend(before, Persisted(plan, ok), from);
    if unplanned {
      OrderlyAppend(before, Persisted(plan, ok), from);
    }
    assert (before + [Persisted(plan, ok)])[|before|] == Persisted(plan, ok);
  }

  /** With a listing that shows none of the plan's candidates, a saved start makes the prune due. */
  lemma PruneBecomesDue(before: seq<Action>, plan: Plan, from: nat)
    requires Cleared(before, from, |before|, Elements(plan.candidates)) && plan.pruneStarted
    ensures PruneDue(before + [Persisted(plan, true)], from, |before| + 1)
  {
    var after := before + [Persisted(plan, true)];
    ClearedStays(before, Persisted(plan, true), from, |before|, Elements(plan.candidates));
    assert after[|before|] == Persisted(plan, true);
  }

  lemma ClearedAfterRun(before: seq<Action>, after: seq<Action>, from: nat, operation: Operation, response: Response, ids: set<Id>)
    requires Extends(before, after, operation, response) && !operation.ForgetIds? && Cleared(before, from, |before|, ids)
    ensures Cleared(after, from, |after|, ids)
  {
    hide Cleared;
    if recover: bool :| after == before + [Ran(Request(operation, recover), response)] {
      ClearedStays(before, Ran(Request(operation, recover), response), from, |before|, ids);
    } else {
      var first: Response :| first.exit == LOCKED && after == before + [Ran(Request(operation, false), first)] + [Ran(Request(operation, true), response)];
      ClearedStays(before, Ran(Request(operation, false), first), from, |before|, ids);
      var middle := before + [Ran(Request(operation, false), first)];
      ClearedStays(middle, Ran(Request(operation, true), response), from, |middle|, ids);
    }
  }

  lemma ClearedNow(trace: seq<Action>, from: nat, ids: set<Id>)
    requires from < |trace| && ListsNone(trace[|trace| - 1], ids)
    ensures Cleared(trace, from, |trace|, ids)
  {
  }

  lemma EffectIds(fate: Fate, operation: Operation, records: seq<Record>)
    ensures operation.ForgetIds? ==>
              Ids(records) - Elements(operation.ids) <= Ids(Effect(fate, operation, records)) <= Ids(records)
    ensures !operation.ForgetIds? ==> Effect(fate, operation, records) == records
    ensures Part(Effect(fate, operation, records), records)
  {
    if operation.ForgetIds? {
      WithoutIds(records, fate.removed * Elements(operation.ids));
    } else {
      PartItself(records);
    }
  }
}
