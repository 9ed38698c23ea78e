/**
 * updater/updater.go: installing one package version and putting the previous one back when the
 * new agent does not become ready. Everything the helper remembers is in files that are replaced
 * atomically, so it can die at any point and be started again.
 */
module Updaters {
  import opened Options

  const MAX_INT: nat := 0x7FFF_FFFF_FFFF_FFFF

  /** A version the agent accepts: three decimal numbers. */
  datatype Version = Version(major: nat, minor: nat, patch: nat) {
    /** What strconv.Atoi gives for one of the numbers when its error is ignored. */
    function Part(index: nat): nat {
      var part := if index == 0 then major else if index == 1 then minor else patch;
      if part <= MAX_INT then part else MAX_INT
    }

    predicate Fits() {
      major < MAX_INT && minor < MAX_INT && patch < MAX_INT
    }
  }

  /** The order of versions: the first number in which they differ decides. */
  predicate Newer(a: Version, b: Version) {
    a.major > b.major || (a.major == b.major && (a.minor > b.minor || (a.minor == b.minor && a.patch > b.patch)))
  }

  method CompareVersions(left: Version, right: Version) returns (order: int)
    ensures order == Compare(left, right)
  {
    for index := 0 to 3
      invariant forall i: nat | i < index :: left.Part(i) == right.Part(i)
    {
      if left.Part(index) < right.Part(index) {
        return -1;
      }
      if left.Part(index) > right.Part(index) {
        return 1;
      }
    }
    order := 0;
  }

  function Compare(left: Version, right: Version): int {
    Sign(if left.Part(0) != right.Part(0) then left.Part(0) - right.Part(0)
         else if left.Part(1) != right.Part(1) then left.Part(1) - right.Part(1)
         else left.Part(2) - right.Part(2))
  }

  function Sign(n: int): int {
    if n < 0 then -1 else if n > 0 then 1 else 0
  }

  ghost predicate OrdersRightly(left: Version, right: Version) {
    && (Compare(left, right) > 0 <==> Newer(left, right))
    && (Compare(left, right) < 0 <==> Newer(right, left))
    && (Compare(left, right) == 0 <==> left == right)
  }

  /** Against whatever version it is held, the comparison is right exactly when all numbers are below the largest machine word. */
  lemma ComparesExactlyWhen(left: Version)
    ensures (forall right :: OrdersRightly(left, right)) <==> left.Fits()
  {
    var next := if left.major >= MAX_INT then left.(major := left.major + 1)
                else if left.minor >= MAX_INT then left.(minor := left.minor + 1)
                else left.(patch := left.patch + 1);
    if !left.Fits() {
      assert !OrdersRightly(left, next);
    }
  }

  /** Numbers past the machine word are all taken for the largest one: then a newer version may compare equal. */
  lemma HugeVersionsCompareEqual()
    ensures var a, b := Version(MAX_INT + 2, 0, 0), Version(MAX_INT + 1, 0, 0);
            Newer(a, b) && Compare(a, b) == 0
  {
  }

  datatype Request = Request(command: nat, run: nat, generation: nat, previous: Version, target: Version, startedAt: nat)

  datatype Phase = Preflight | Installing | RollingBack

  datatype Stored = Stored(request: Request, previous: Version, phase: Phase)

  datatype Readiness = Readiness(command: nat, run: nat, version: Version)

  datatype Code = Success | AlreadyInstalled | TargetNotNewer | PreflightFailed | InstallationFailed
                | RollbackFailed | ReadinessFailedRolledBack

  datatype Result = Result(run: nat, generation: nat, code: Code, previous: Version, target: Version, installed: Version, startedAt: nat) {
    predicate Complete() {
      code.Success? || code.AlreadyInstalled?
    }
  }

  predicate SameRequest(left: Request, right: Request) {
    left.command == right.command && left.run == right.run && left.generation == right.generation &&
    left.target == right.target && left.startedAt == right.startedAt
  }

  /** A result as it was written, and what was true at that moment. */
  datatype Posted = Posted(
    result: Result, command: nat,
    package: Version,          // what was really installed
    base: Option<Version>,     // the version recorded before the first installation of this run
    rolling: bool,             // a rollback of this run had been recorded
    ready: Option<Readiness>,  // the readiness report this result rests on
    sight: Sight)              // what the package manager had said last

  /** The installed version as far as the package manager tells: it is known, cannot be read, or the change to this version failed. */
  datatype Sight = Known | ReadFailed | ChangeFailed(version: Version)

  datatype Ledger = Ledger(requested: set<nat>, posted: seq<Posted>, base: map<nat, Version>, rolling: set<nat>, touched: bool, sight: Sight)

  /** What a written result promises about the package. */
  predicate Honest(p: Posted) {
    && (p.result.Complete() ==> p.package == p.result.target && !p.rolling)
    && (p.result.code.Success? ==>
          && p.ready == Some(Readiness(p.command, p.result.run, p.result.target))
          && p.base.Some? && Compare(p.result.target, p.base.value) > 0)
    && (p.result.code.ReadinessFailedRolledBack? ==>
          && p.base == Some(p.package) && p.rolling && p.result.previous == p.package
          && p.ready == Some(Readiness(p.command, p.result.run, p.package)))
    && (p.result.code.TargetNotNewer? ==> Compare(p.result.target, p.package) <= 0)
    && (p.result.code.InstallationFailed? ==> p.base.Some?)
    && (p.result.code.RollbackFailed? ==> p.rolling)
    && match p.sight {
         case Known => p.result.installed == p.package && (p.base.Some? ==> p.result.Complete() || p.base == Some(p.package))
         case ReadFailed => p.result.code in {PreflightFailed, InstallationFailed}
         case ChangeFailed(version) => p.result.code.RollbackFailed? && p.base == Some(version)
       }
  }

  function BaseOf(ledger: Ledger, run: nat): Option<Version> {
    if run in ledger.base then Some(ledger.base[run]) else None
  }

  /**
   * How an installation that was begun ends: the target is there, or the version from before, or going back
   * to that was tried and failed, or the package manager could not say what is there.
   */
  predicate Ended(p: Posted, installed: Version, base: Version) {
    || (p.result.Complete() && installed == p.result.target)
    || installed == base
    || (p.result.code.RollbackFailed? && p.sight == ChangeFailed(base))
    || (p.result.code in {PreflightFailed, InstallationFailed} && p.sight.ReadFailed?)
  }

  /** Every result was honest, and a run that has begun to roll back never completes. */
  ghost predicate AllHonest(ledger: Ledger) {
    && (forall i | 0 <= i < |ledger.posted| :: Honest(ledger.posted[i]))
    && (forall i | 0 <= i < |ledger.posted| :: ledger.posted[i].rolling ==> ledger.posted[i].result.run in ledger.rolling)
    && (forall i, j | 0 <= i < j < |ledger.posted| ::
          ledger.posted[i].rolling && ledger.posted[i].result.run == ledger.posted[j].result.run ==> !ledger.posted[j].result.Complete())
  }

  ghost predicate Answered(posted: seq<Posted>, run: nat) {
    exists i :: 0 <= i < |posted| && posted[i].result.run == run
  }

  /** No request is lost: it is still there or it has a result. */
  ghost predicate NothingLost(request: Option<Request>, ledger: Ledger) {
    && (forall run | run in ledger.requested :: (request.Some? && request.value.run == run) || Answered(ledger.posted, run))
    && (request.Some? ==> request.value.run in ledger.requested)
  }

  /** What the state file of the current request says about the package and the run. */
  predicate Recorded(request: Request, state: Stored, installed: Version, ledger: Ledger) {
    && state.request.previous == state.previous
    && (request.run in ledger.base ==> ledger.base[request.run] == state.previous && Compare(request.target, state.previous) > 0)
    && (!state.phase.Preflight? ==> request.run in ledger.base)
    && (state.phase.Preflight? ==> installed == state.previous)
    && (request.run in ledger.rolling <==> state.phase.RollingBack?)
  }

  ghost predicate StateOk(request: Option<Request>, state: Option<Stored>, installed: Version, ledger: Ledger) {
    && (forall run | run in ledger.base :: run in ledger.requested)
    && (forall run | run in ledger.rolling :: run in ledger.requested)
    && (state.Some? ==> state.value.request.run in ledger.requested)
    && (request.Some? ==>
          if state.Some? && SameRequest(state.value.request, request.value) then Recorded(request.value, state.value, installed, ledger)
          else request.value.run !in ledger.base && request.value.run !in ledger.rolling)
  }

  /** The result file, if there, is the last result written; only a further run of the same request outdates it. */
  ghost predicate LastOk(request: Option<Request>, result: Option<Result>, installed: Version, ledger: Ledger) {
    && (ledger.posted != [] && !ledger.touched ==> ledger.posted[|ledger.posted| - 1].package == installed)
    && (ledger.touched ==> request.Some?)
    && (result.Some? ==> ledger.posted != [] && result.value == ledger.posted[|ledger.posted| - 1].result)
    && (request.None? && ledger.posted != [] ==>
          var p := ledger.posted[|ledger.posted| - 1]; p.base == BaseOf(ledger, p.result.run))
  }

  ghost predicate Sound(request: Option<Request>, state: Option<Stored>, result: Option<Result>, installed: Version, ledger: Ledger) {
    && StateOk(request, state, installed, ledger)
    && NothingLost(request, ledger)
    && AllHonest(ledger)
    && LastOk(request, result, installed, ledger)
  }

  /**
   * Once the request is gone, the result file tells the truth about the package: after "complete" it is
   * the target, after a successful rollback it is the version recorded before the first installation, and an
   * installation that was begun has ended in one of four ways.
   */
  lemma SettledResult(request: Option<Request>, state: Option<Stored>, result: Option<Result>, installed: Version, ledger: Ledger)
    requires Sound(request, state, result, installed, ledger)
    requires result.Some? && (request.None? || !ledger.touched)
    ensures result.value.Complete() ==> installed == result.value.target
    ensures result.value.code.ReadinessFailedRolledBack? ==> installed == result.value.previous
    ensures ledger.posted != [] && ledger.posted[|ledger.posted| - 1].result == result.value
    ensures request.None? && result.value.run in ledger.base ==>
              Ended(ledger.posted[|ledger.posted| - 1], installed, ledger.base[result.value.run])
    ensures request.None? && result.value.code.InstallationFailed? ==>
              result.value.run in ledger.base &&
              (installed == ledger.base[result.value.run] || ledger.posted[|ledger.posted| - 1].sight.ReadFailed?)
  {
    assert Honest(ledger.posted[|ledger.posted| - 1]);
  }

  lemma PlaceSound(state: Option<Stored>, result: Option<Result>, installed: Version, ledger: Ledger, request: Request)
    requires Sound(None, state, result, installed, ledger) && request.run !in ledger.requested
    ensures Sound(Some(request), state, result, installed, ledger.(requested := ledger.requested + {request.run}))
  {
  }

  lemma ConsumeSound(request: Option<Request>, state: Option<Stored>, result: Option<Result>, installed: Version, ledger: Ledger)
    requires Sound(request, state, result, installed, ledger)
    ensures Sound(request, state, None, installed, ledger)
  {
  }

  /** Saving the first phase: the package has not been touched since it was read. */
  lemma PreflightSound(file: Request, state: Option<Stored>, result: Option<Result>, installed: Version, ledger: Ledger, request: Request)
    requires Sound(Some(file), state, result, installed, ledger)
    requires SameRequest(request, file) && request.previous == installed && file.run !in ledger.rolling
    requires file.run in ledger.base ==> ledger.base[file.run] == installed
    requires Compare(file.target, installed) > 0
    ensures Sound(Some(file), Some(Stored(request, installed, Preflight)), result, installed, ledger)
  {
  }

  function Based(ledger: Ledger, run: nat, version: Version): Ledger {
    ledger.(base := ledger.base[run := version])
  }

  lemma InstallingSound(file: Request, result: Option<Result>, installed: Version, ledger: Ledger, request: Request)
    requires Sound(Some(file), Some(Stored(request, installed, Preflight)), result, installed, ledger)
    requires SameRequest(request, file) && Compare(file.target, installed) > 0
    ensures Sound(Some(file), Some(Stored(request, installed, Installing)), result, installed, Based(ledger, file.run, installed))
  {
  }

  function Rolled(ledger: Ledger, run: nat): Ledger {
    ledger.(rolling := ledger.rolling + {run})
  }

  lemma RollingSound(file: Request, result: Option<Result>, installed: Version, ledger: Ledger, request: Request, previous: Version)
    requires Sound(Some(file), Some(Stored(request, previous, Installing)), result, installed, ledger)
    requires SameRequest(request, file)
    ensures Sound(Some(file), Some(Stored(request, previous, RollingBack)), result, installed, Rolled(ledger, file.run))
  {
  }

  function Touched(ledger: Ledger, sight: Sight): Ledger {
    ledger.(touched := true, sight := sight)
  }

  lemma SightSound(request: Option<Request>, state: Option<Stored>, result: Option<Result>, installed: Version, ledger: Ledger, sight: Sight)
    requires Sound(request, state, result, installed, ledger)
    ensures Sound(request, state, result, installed, ledger.(sight := sight))
  {
  }

  lemma PackageSound(file: Request, result: Option<Result>, installed: Version, ledger: Ledger, state: Stored, version: Version, sight: Sight)
    requires Sound(Some(file), Some(state), result, installed, ledger)
    requires SameRequest(state.request, file) && !state.phase.Preflight?
    ensures Sound(Some(file), Some(state), result, version, Touched(ledger, sight))
  {
  }

  function Entry(ledger: Ledger, command: nat, result: Result, installed: Version, ready: Option<Readiness>): Posted {
    Posted(result, command, installed, BaseOf(ledger, result.run), result.run in ledger.rolling, ready, ledger.sight)
  }

  function Post(ledger: Ledger, entry: Posted): Ledger {
    ledger.(posted := ledger.posted + [entry], touched := false)
  }

  lemma PostSound(file: Request, state: Option<Stored>, old_: Option<Result>, installed: Version, ledger: Ledger,
                  result: Result, ready: Option<Readiness>)
    requires Sound(Some(file), state, old_, installed, ledger) && result.run == file.run
    requires Honest(Entry(ledger, file.command, result, installed, ready))
    ensures Sound(Some(file), state, Some(result), installed, Post(ledger, Entry(ledger, file.command, result, installed, ready)))
    ensures Answered(Post(ledger, Entry(ledger, file.command, result, installed, ready)).posted, file.run)
  {
    var entry := Entry(ledger, file.command, result, installed, ready);
    var after := Post(ledger, entry);
    assert after.posted[|ledger.posted|] == entry;
    forall run | run in ledger.requested && run != file.run ensures Answered(after.posted, run) {
      var i :| 0 <= i < |ledger.posted| && ledger.posted[i].result.run == run;
      assert after.posted[i] == ledger.posted[i];
    }
  }

  lemma RemoveSound(file: Request, state: Option<Stored>, result: Option<Result>, installed: Version, ledger: Ledger)
    requires Sound(Some(file), state, result, installed, ledger) && !ledger.touched && Answered(ledger.posted, file.run)
    requires var p := ledger.posted[|ledger.posted| - 1]; p.base == BaseOf(ledger, p.result.run)
    ensures Sound(None, state, result, installed, ledger)
    ensures Sound(None, None, result, installed, ledger)
  {
  }

  datatype Outcome = Ok | Failed | Crashed

  /** How the next operation goes. The helper may die in it, before or after its effect. */
  datatype Fate = Fate(outcome: Outcome, done: bool, version: Version, ready: Option<Readiness>, readable: bool)

  predicate Happens(fate: Fate) {
    fate.outcome.Ok? || (fate.outcome.Crashed? && fate.done)
  }

  class Host {
    const fates: nat -> Fate // everything that is not decided by this program
    const polls: nat         // how often readiness is looked for before the deadline
    var clock: nat
    var request: Option<Request>
    var state: Option<Stored>
    var readiness: Option<Readiness>
    var result: Option<Result>
    var installed: Version
    ghost var ledger: Ledger

    ghost predicate Valid()
      reads this
    {
      Sound(request, state, result, installed, ledger)
    }

    /** The helper is at work on the request in the file. */
    ghost predicate Working(active: Request)
      reads this
    {
      Valid() && request.Some? && SameRequest(active, request.value)
    }

    /** The state file belongs to the request and is past the first phase. */
    ghost predicate Begun(active: Request, previous: Version, phase: Phase)
      reads this
    {
      Working(active) && state == Some(Stored(active, previous, phase))
    }

    constructor (installed: Version, fates: nat -> Fate, polls: nat)
      ensures Valid() && this.installed == installed && this.fates == fates && this.polls == polls && clock == 0
      ensures request == None && state == None && readiness == None && result == None && ledger.requested == {}
    {
      this.installed, this.fates, this.polls, clock := installed, fates, polls, 0;
      request, state, readiness, result := None, None, None, None;
      ledger := Ledger({}, [], map[], {}, false, Known);
    }

    /** The daemon asks for an update; it does so only when no request is there, under a new run. */
    method PlaceRequest(asked: Request)
      requires Valid() && request.None? && asked.run !in ledger.requested
      modifies this`request, this`ledger
      ensures Valid() && request == Some(asked) && asked.run in ledger.requested
      ensures ledger == old(ledger).(requested := old(ledger).requested + {asked.run})
    {
      PlaceSound(state, result, installed, ledger, asked);
      request := Some(asked);
      ledger := ledger.(requested := ledger.requested + {asked.run});
    }

    /** The daemon takes the result away after it has saved it. */
    method ConsumeResult()
      requires Valid()
      modifies this`result
      ensures Valid()
    {
      ConsumeSound(request, state, result, installed, ledger);
      result := None;
    }

    method Tick() returns (fate: Fate)
      modifies this`clock
      ensures fate == fates(old(clock)) && clock == old(clock) + 1
    {
      fate := fates(clock);
      clock := clock + 1;
    }

    method SaveState(next: Stored) returns (outcome: Outcome)
      modifies this`clock, this`state
      ensures outcome == fates(old(clock)).outcome && clock == old(clock) + 1
      ensures state == if Happens(fates(old(clock))) then Some(next) else old(state)
    {
      var fate := Tick();
      if Happens(fate) {
        state := Some(next);
      }
      outcome := fate.outcome;
    }

    method RemoveReadiness() returns (outcome: Outcome)
      modifies this`clock, this`readiness
      ensures outcome == fates(old(clock)).outcome && clock == old(clock) + 1
    {
      var fate := Tick();
      if Happens(fate) {
        readiness := None;
      }
      outcome := fate.outcome;
    }

    /** Install or Downgrade: success means the version is installed, anything else may leave any version. */
    method ChangePackage(version: Version) returns (outcome: Outcome)
      modifies this`clock, this`installed, this`ledger
      ensures outcome == fates(old(clock)).outcome && clock == old(clock) + 1
      ensures installed == if outcome.Ok? then version else fates(old(clock)).version
      ensures ledger == Touched(old(ledger), if outcome.Ok? then Known else ChangeFailed(version))
    {
      var fate := Tick();
      installed := if fate.outcome.Ok? then version else fate.version;
      ledger := Touched(ledger, if fate.outcome.Ok? then Known else ChangeFailed(version));
      outcome := fate.outcome;
    }

    /** `CurrentVersion`; before that, the package manager has to be found. */
    method ReadVersion() returns (outcome: Outcome)
      requires Valid()
      modifies this`clock, this`ledger
      ensures Valid() && outcome == fates(old(clock)).outcome && clock == old(clock) + 1
      ensures ledger == old(ledger).(sight := if outcome.Ok? then Known else ReadFailed)
    {
      var fate := Tick();
      SightSound(request, state, result, installed, ledger, if fate.outcome.Ok? then Known else ReadFailed);
      ledger := ledger.(sight := if fate.outcome.Ok? then Known else ReadFailed);
      outcome := fate.outcome;
    }

    /** Polls until the agent of this very command, run and version has reported, or the time is up. */
    method WaitForReadiness(active: Request, version: Version) returns (outcome: Outcome)
      modifies this`clock, this`readiness
      ensures outcome.Ok? ==> readiness == Some(Readiness(active.command, active.run, version))
      ensures polls > 0 && fates(old(clock)).outcome.Failed? && !fates(old(clock)).readable ==> outcome.Failed? && clock == old(clock) + 1
      ensures polls > 0 && fates(old(clock)).readable && fates(old(clock)).ready == Some(Readiness(active.command, active.run, version)) ==>
                outcome.Ok? && clock == old(clock) + 1
    {
      for poll := 0 to polls
        invariant poll == 0 ==> clock == old(clock)
        invariant poll > 0 ==> !(fates(old(clock)).readable && fates(old(clock)).ready == Some(Readiness(active.command, active.run, version)))
        invariant poll > 0 ==> fates(old(clock)).outcome.Ok? || fates(old(clock)).readable
      {
        var fate := Tick();
        if fate.ready.Some? {
          readiness := fate.ready; // written by an agent that was started meanwhile
        }
        if fate.readable && readiness == Some(Readiness(active.command, active.run, version)) {
          return Ok;
        }
        if !fate.outcome.Ok? {
          return fate.outcome; // the deadline, a cancelled context or a crash
        }
      }
      outcome := Failed;
    }

    /**
     * The result is written first and the request removed after it, so that a request never
     * disappears without a result; the other two files are only tidied up.
     */
    method WriteTerminal(active: Request, code: Code, reported: Version, ghost ready: Option<Readiness>)
      returns (outcome: Outcome)
      requires Working(active)
      requires Honest(Entry(ledger, active.command, Report(active, code, reported), installed, ready))
      modifies this`clock, this`request, this`state, this`readiness, this`result, this`ledger
      ensures Valid() && ledger.requested == old(ledger.requested)
      ensures outcome.Ok? ==> request.None? && Answered(ledger.posted, active.run) && result == Some(Report(active, code, reported))
      ensures request.None? ==> result == Some(Report(active, code, reported))
      ensures GoesWell(fates, old(clock), 4) ==> outcome.Ok?
      ensures request == None || (request == old(request) && state == old(state))
      ensures fates(old(clock)).outcome.Ok? && fates(old(clock) + 1).outcome.Crashed? && !fates(old(clock) + 1).done ==>
                outcome.Crashed? && clock == old(clock) + 2 && request == old(request) && state == old(state) &&
                result == Some(Report(active, code, reported))
    {
      hide Sound, Honest;
      var answer := Report(active, code, reported);
      var fate := Tick();
      if Happens(fate) {
        PostSound(request.value, state, result, installed, ledger, answer, ready);
        result := Some(answer);
        ledger := Post(ledger, Entry(ledger, active.command, answer, installed, ready));
      }
      if !fate.outcome.Ok? {
        return fate.outcome;
      }
      fate := Tick();
      if Happens(fate) {
        RemoveSound(request.value, state, result, installed, ledger);
        request := None;
      }
      if !fate.outcome.Ok? {
        return fate.outcome;
      }
      outcome := RemoveReadiness();
      if outcome.Crashed? {
        return;
      }
      fate := Tick();
      if Happens(fate) {
        state := None;
      }
      outcome := if fate.outcome.Crashed? then Crashed else Ok;
    }

    /** Records the rollback before it touches the package. */
    method Rollback(active: Request, previous: Version) returns (outcome: Outcome)
      requires Begun(active, previous, Installing)
      modifies this`clock, this`request, this`state, this`readiness, this`result, this`installed, this`ledger
      ensures Valid() && ledger.requested == old(ledger.requested)
      ensures outcome.Ok? ==> request.None? && Answered(ledger.posted, active.run) && result.Some?
      ensures request.None? ==> result.Some? && result.value.run == active.run
      ensures fates(old(clock)).outcome.Ok? && fates(old(clock) + 1).outcome.Ok? &&
              fates(old(clock) + 2).outcome.Crashed? && fates(old(clock) + 2).version == previous ==>
                outcome.Crashed? && installed == previous && request == old(request) && result == old(result)
    {
      hide Sound, Honest;
      outcome := RemoveReadiness();
      if outcome.Crashed? {
        return;
      }
      RollingSound(request.value, result, installed, ledger, active, previous);
      outcome := SaveState(Stored(active, previous, RollingBack));
      if state == Some(Stored(active, previous, RollingBack)) {
        ledger := Rolled(ledger, active.run);
      }
      if !outcome.Ok? {
        return;
      }
      BegunFacts(request.value, state.value, result, installed, ledger);
      PackageSound(request.value, result, installed, ledger, state.value, previous, Known);
      PackageSound(request.value, result, installed, ledger, state.value, fates(clock).version, ChangeFailed(previous));
      outcome := ChangePackage(previous);
      if outcome.Crashed? {
        return;
      }
      if outcome.Failed? {
        FailureHonest(ledger, active, RollbackFailed, active.target, installed);
        outcome := WriteTerminal(active, RollbackFailed, active.target, None);
        return;
      }
      outcome := FinishRollback(active, previous);
    }

    /** The common end of both ways to roll back, once the previous version is installed. */
    method FinishRollback(active: Request, previous: Version) returns (outcome: Outcome)
      requires Begun(active, previous, RollingBack) && installed == previous && ledger.sight.Known?
      modifies this`clock, this`request, this`state, this`readiness, this`result, this`ledger
      ensures Valid() && ledger.requested == old(ledger.requested)
      ensures outcome.Ok? ==> request.None? && Answered(ledger.posted, active.run) && result.Some?
      ensures request.None? ==> result.Some? && result.value.run == active.run
    {
      hide Sound, Honest;
      outcome := WaitForReadiness(active, previous);
      if outcome.Crashed? {
        return;
      }
      if outcome.Failed? {
        BegunFacts(request.value, state.value, result, installed, ledger);
        FailureHonest(ledger, active, RollbackFailed, previous, installed);
        outcome := WriteTerminal(active, RollbackFailed, previous, None);
        return;
      }
      RolledBackHonest(request.value, state.value, result, installed, ledger, active, readiness);
      outcome := WriteTerminal(active, ReadinessFailedRolledBack, previous, readiness);
    }

    method ResumeRollback(persisted: Stored, current: Version) returns (outcome: Outcome)
      requires Begun(persisted.request, persisted.previous, RollingBack) && persisted.phase.RollingBack? && current == installed && ledger.sight.Known?
      modifies this`clock, this`request, this`state, this`readiness, this`result, this`installed, this`ledger
      ensures Valid() && ledger.requested == old(ledger.requested)
      ensures outcome.Ok? ==> request.None? && Answered(ledger.posted, persisted.request.run) && result.Some?
      ensures request.None? ==> result.Some? && result.value.run == persisted.request.run
    {
      hide Sound, Honest;
      var previous := persisted.previous;
      if current != previous {
        outcome := RemoveReadiness();
        if outcome.Crashed? {
          return;
        }
        BegunFacts(request.value, state.value, result, installed, ledger);
        PackageSound(request.value, result, installed, ledger, state.value, previous, Known);
        PackageSound(request.value, result, installed, ledger, state.value, fates(clock).version, ChangeFailed(previous));
        outcome := ChangePackage(previous);
        if outcome.Crashed? {
          return;
        }
        if outcome.Failed? {
          FailureHonest(ledger, persisted.request, RollbackFailed, current, installed);
          outcome := WriteTerminal(persisted.request, RollbackFailed, current, None);
          return;
        }
      }
      outcome := FinishRollback(persisted.request, previous);
    }

    /** The new package is installed: it stays if its agent reports, and goes otherwise. */
    method Judge(active: Request, previous: Version) returns (outcome: Outcome)
      requires Begun(active, previous, Installing) && installed == active.target && ledger.sight.Known?
      modifies this`clock, this`request, this`state, this`readiness, this`result, this`installed, this`ledger
      ensures Valid() && ledger.requested == old(ledger.requested)
      ensures polls > 0 && DiesAfterSuccess(fates, old(clock), active) ==>
                clock == old(clock) + 3 && request == old(request) && state == old(state) && installed == old(installed) &&
                result == Some(Report(active, Success, active.target))
      ensures polls > 0 && Succeeds(fates, old(clock), active) ==>
                outcome.Ok? && installed == active.target && result == Some(Report(active, Success, active.target))
      ensures polls > 0 && DiesInRollback(fates, old(clock), previous) ==>
                installed == previous && request == old(request) && result == old(result)
      ensures outcome.Ok? ==> request.None? && Answered(ledger.posted, active.run) && result.Some?
      ensures request.None? ==> result.Some? && result.value.run == active.run
    {
      hide Sound, Honest;
      outcome := WaitForReadiness(active, active.target);
      if outcome.Crashed? {
        return;
      }
      if outcome.Ok? {
        SuccessHonest(request.value, state.value, result, installed, ledger, active, readiness);
        outcome := WriteTerminal(active, Success, active.target, readiness);
      } else {
        outcome := Rollback(active, previous);
      }
    }

    /** A result that only says why nothing was installed, or that the version could not be read. */
    method Fail(active: Request, code: Code, reported: Version) returns (outcome: Outcome)
      requires Working(active) && code in {PreflightFailed, InstallationFailed} && (code.InstallationFailed? ==> active.run in ledger.base)
      requires ledger.sight.ReadFailed? || (ledger.sight.Known? && reported == installed && (active.run in ledger.base ==> ledger.base[active.run] == installed))
      modifies this`clock, this`request, this`state, this`readiness, this`result, this`ledger
      ensures Valid() && ledger.requested == old(ledger.requested)
      ensures outcome.Ok? ==> request.None? && Answered(ledger.posted, active.run) && result.Some?
      ensures request.None? ==> result.Some? && result.value.run == active.run
    {
      hide Sound, Honest;
      FailureHonest(ledger, active, code, reported, installed);
      outcome := WriteTerminal(active, code, reported, None);
    }

    /**
     * One run of the helper. Once the request of an installation that was begun is gone, the target is
     * installed and reported, or the version recorded before the first installation is, or going back to that
     * was tried and failed, or the package manager could not say what is installed.
     */
    method Run() returns (outcome: Outcome)
      requires Valid()
      modifies this`clock, this`request, this`state, this`readiness, this`result, this`installed, this`ledger
      ensures Valid() && ledger.requested == old(ledger.requested)
      ensures polls > 0 && old(request).Some? && old(state).None? && Compare(old(request).value.target, old(installed)) > 0 &&
              GoesWell(fates, old(clock), 10) && DiesAfterSuccess(fates, old(clock) + 10, old(request).value) ==>
                var active := old(request).value.(previous := old(installed));
                clock == old(clock) + 13 && request == old(request) && installed == active.target &&
                state == Some(Stored(active, old(installed), Installing)) && result == Some(Report(active, Success, active.target))
      ensures polls > 0 && old(request).Some? && old(state).None? && Compare(old(request).value.target, old(installed)) > 0 &&
              GoesWell(fates, old(clock), 10) && Succeeds(fates, old(clock) + 10, old(request).value) ==>
                outcome.Ok? && installed == old(request).value.target &&
                result == Some(Report(old(request).value.(previous := old(installed)), Success, old(request).value.target))
      ensures polls > 0 && old(request).Some? && old(state).Some? && old(state).value.phase.Installing? &&
              SameRequest(old(state).value.request, old(request).value) && old(installed) == old(request).value.target &&
              GoesWell(fates, old(clock), 3) && DiesInRollback(fates, old(clock) + 3, old(state).value.previous) ==>
                installed == old(state).value.previous && request == old(request) && result == old(result)
      ensures outcome.Ok? ==> old(request).Some? && request.None? && Answered(ledger.posted, old(request).value.run) && result.Some?
      ensures old(request).Some? && request.None? ==>
                && result.Some? && result.value.run == old(request).value.run && ledger.posted != []
                && ledger.posted[|ledger.posted| - 1].result == result.value
                && (result.value.run in ledger.base ==>
                      Ended(ledger.posted[|ledger.posted| - 1], installed, ledger.base[result.value.run]))
    {
      outcome := RunLocked();
      if old(request).Some? && request.None? {
        SettledResult(request, state, result, installed, ledger);
      }
    }

    /** What it does while it has the lock. */
    method RunLocked() returns (outcome: Outcome)
      requires Valid()
      modifies this`clock, this`request, this`state, this`readiness, this`result, this`installed, this`ledger
      ensures Valid() && ledger.requested == old(ledger.requested)
      ensures polls > 0 && old(request).Some? && old(state).None? && Compare(old(request).value.target, old(installed)) > 0 &&
              GoesWell(fates, old(clock), 10) && DiesAfterSuccess(fates, old(clock) + 10, old(request).value) ==>
                var active := old(request).value.(previous := old(installed));
                clock == old(clock) + 13 && request == old(request) && installed == active.target &&
                state == Some(Stored(active, old(installed), Installing)) && result == Some(Report(active, Success, active.target))
      ensures polls > 0 && old(request).Some? && old(state).None? && Compare(old(request).value.target, old(installed)) > 0 &&
              GoesWell(fates, old(clock), 10) && Succeeds(fates, old(clock) + 10, old(request).value) ==>
                outcome.Ok? && installed == old(request).value.target &&
                result == Some(Report(old(request).value.(previous := old(installed)), Success, old(request).value.target))
      ensures polls > 0 && old(request).Some? && old(state).Some? && old(state).value.phase.Installing? &&
              SameRequest(old(state).value.request, old(request).value) && old(installed) == old(request).value.target &&
              GoesWell(fates, old(clock), 3) && DiesInRollback(fates, old(clock) + 3, old(state).value.previous) ==>
                installed == old(state).value.previous && request == old(request) && result == old(result)
      ensures outcome.Ok? ==> old(request).Some? && request.None? && Answered(ledger.posted, old(request).value.run) && result.Some?
      ensures old(request).Some? && request.None? ==> result.Some? && result.value.run == old(request).value.run
    {
      hide Sound, Honest, StateOk, Recorded;
      if request.None? {
        return Failed;
      }
      var active := request.value;
      var detected := ReadVersion();
      if !detected.Ok? {
        outcome := Fail(active, PreflightFailed, active.previous);
        return;
      }
      var read := ReadVersion();
      if !read.Ok? {
        outcome := Fail(active, PreflightFailed, active.previous);
        return;
      }
      var current := installed;
      var fate := Tick();
      if !fate.readable {
        return Failed;
      }
      if state.Some? {
        var persisted := state.value;
        if !SameRequest(persisted.request, active) {
          return Failed;
        }
        RecordedFacts(request.value, persisted, result, installed, ledger);
        active := persisted.request;
        if persisted.phase.Installing? {
          if current == active.target {
            outcome := Judge(active, persisted.previous);
            return;
          }
          if current != persisted.previous {
            outcome := Rollback(active, persisted.previous);
            return;
          }
        } else if persisted.phase.RollingBack? {
          outcome := ResumeRollback(persisted, current);
          return;
        }
      } else {
        FreshFacts(request.value, result, installed, ledger);
        active := active.(previous := current);
      }
      if current == active.target {
        PresentHonest(ledger, active, installed);
        outcome := WriteTerminal(active, AlreadyInstalled, current, None);
        return;
      }
      var order := CompareVersions(active.target, current);
      if order <= 0 {
        OldTargetHonest(ledger, active, installed);
        outcome := WriteTerminal(active, TargetNotNewer, current, None);
        return;
      }
      outcome := Install(active);
    }

    /**
     * The life of a host: the daemon hands over these requests one after the other, takes results away and
     * is restarted, and the helper runs and dies any number of times. No request is ever lost.
     */
    method Serve(requests: seq<Request>, rounds: nat)
      requires Valid()
      requires forall i | 0 <= i < |requests| :: requests[i].run !in ledger.requested
      requires forall i, j | 0 <= i < j < |requests| :: requests[i].run != requests[j].run
      modifies this`clock, this`request, this`state, this`readiness, this`result, this`installed, this`ledger
      ensures Valid() && old(ledger).requested <= ledger.requested
      ensures forall run | run in ledger.requested :: (request.Some? && request.value.run == run) || Answered(ledger.posted, run)
    {
      var next := 0;
      for round := 0 to rounds
        invariant Valid() && next <= |requests| && old(ledger).requested <= ledger.requested
        invariant forall i | next <= i < |requests| :: requests[i].run !in ledger.requested
      {
        hide Sound;
        var choice: Option<Option<Readiness>> := *;
        match choice {
          case None =>
            var outcome := Run();
          case Some(None) =>
            ConsumeResult();
          case Some(report) =>
            readiness := report;
            if request.None? && next < |requests| {
              PlaceRequest(requests[next]);
              next := next + 1;
            }
        }
      }
    }

    /** Refreshes the package lists and looks for the target and for the way back. */
    method Prepare() returns (available: bool)
      modifies this`clock
      ensures available <==> fates(old(clock)).outcome.Ok? && fates(old(clock) + 1).outcome.Ok? && fates(old(clock) + 2).outcome.Ok?
      ensures available ==> clock == old(clock) + 3
    {
      var fate := Tick();
      if !fate.outcome.Ok? {
        return false;
      }
      fate := Tick();
      if !fate.outcome.Ok? {
        return false;
      }
      fate := Tick();
      available := fate.outcome.Ok?;
    }

    /** From the first saved phase to the installation; the package is the one read, and older than the target. */
    method Install(active: Request) returns (outcome: Outcome)
      requires Working(active) && active.previous == installed && active.run !in ledger.rolling && ledger.sight.Known?
      requires active.run in ledger.base ==> ledger.base[active.run] == installed
      requires Compare(active.target, installed) > 0
      modifies this`clock, this`request, this`state, this`readiness, this`result, this`installed, this`ledger
      ensures Valid() && ledger.requested == old(ledger.requested)
      ensures polls > 0 && GoesWell(fates, old(clock), 7) && DiesAfterSuccess(fates, old(clock) + 7, active) ==>
                clock == old(clock) + 10 && request == old(request) && installed == active.target &&
                state == Some(Stored(active, old(installed), Installing)) && result == Some(Report(active, Success, active.target))
      ensures polls > 0 && GoesWell(fates, old(clock), 7) && Succeeds(fates, old(clock) + 7, active) ==>
                outcome.Ok? && installed == active.target && result == Some(Report(active, Success, active.target))
      ensures installed != old(installed) ==>
                fates(old(clock) + 1).outcome.Ok? && fates(old(clock) + 2).outcome.Ok? && fates(old(clock) + 3).outcome.Ok?
      ensures outcome.Ok? ==> request.None? && Answered(ledger.posted, active.run) && result.Some?
      ensures request.None? ==> result.Some? && result.value.run == active.run
    {
      hide Sound, Honest;
      var previous := installed;
      PreflightSound(request.value, state, result, installed, ledger, active);
      outcome := SaveState(Stored(active, previous, Preflight));
      if !outcome.Ok? {
        return;
      }
      var available := Prepare();
      if !available {
        outcome := Fail(active, PreflightFailed, previous);
        return;
      }
      outcome := RemoveReadiness();
      if outcome.Crashed? {
        return;
      }
      InstallingSound(request.value, result, installed, ledger, active);
      outcome := SaveState(Stored(active, previous, Installing));
      if state == Some(Stored(active, previous, Installing)) {
        ledger := Based(ledger, active.run, previous);
      }
      if !outcome.Ok? {
        return;
      }
      outcome := Upgrade(active, previous);
    }

    /** Installs the target and decides by what the new agent reports. */
    method Upgrade(active: Request, previous: Version) returns (outcome: Outcome)
      requires Begun(active, previous, Installing) && installed == previous
      modifies this`clock, this`request, this`state, this`readiness, this`result, this`installed, this`ledger
      ensures Valid() && ledger.requested == old(ledger.requested)
      ensures polls > 0 && fates(old(clock)).outcome.Ok? && DiesAfterSuccess(fates, old(clock) + 1, active) ==>
                clock == old(clock) + 4 && request == old(request) && installed == active.target && state == old(state) &&
                result == Some(Report(active, Success, active.target))
      ensures polls > 0 && fates(old(clock)).outcome.Ok? && Succeeds(fates, old(clock) + 1, active) ==>
                outcome.Ok? && installed == active.target && result == Some(Report(active, Success, active.target))
      ensures outcome.Ok? ==> request.None? && Answered(ledger.posted, active.run) && result.Some?
      ensures request.None? ==> result.Some? && result.value.run == active.run
    {
      hide Sound, Honest;
      BegunFacts(request.value, state.value, result, installed, ledger);
      PackageSound(request.value, result, installed, ledger, state.value, active.target, Known);
      PackageSound(request.value, result, installed, ledger, state.value, fates(clock).version, ChangeFailed(active.target));
      outcome := ChangePackage(active.target);
      if outcome.Crashed? {
        return;
      }
      if outcome.Failed? {
        var read := ReadVersion();
        if read.Ok? && installed != previous {
          outcome := Rollback(active, previous);
        } else {
          outcome := Fail(active, InstallationFailed, previous);
        }
        return;
      }
      outcome := Judge(active, previous);
    }
  }

  lemma RecordedFacts(file: Request, state: Stored, result: Option<Result>, installed: Version, ledger: Ledger)
    requires Sound(Some(file), Some(state), result, installed, ledger) && SameRequest(state.request, file)
    ensures !state.phase.RollingBack? ==> file.run !in ledger.rolling
    ensures state.phase.Preflight? ==> installed == state.previous
    ensures state.request.previous == state.previous
    ensures file.run in ledger.base ==> ledger.base[file.run] == state.previous
  {
  }

  /** Once the installation is begun, the version to go back to is on record. */
  lemma BegunFacts(file: Request, state: Stored, result: Option<Result>, installed: Version, ledger: Ledger)
    requires Sound(Some(file), Some(state), result, installed, ledger) && SameRequest(state.request, file) && !state.phase.Preflight?
    ensures file.run in ledger.base && ledger.base[file.run] == state.previous && (state.phase.RollingBack? ==> file.run in ledger.rolling)
  {
  }

  lemma FreshFacts(file: Request, result: Option<Result>, installed: Version, ledger: Ledger)
    requires Sound(Some(file), None, result, installed, ledger)
    ensures file.run !in ledger.base && file.run !in ledger.rolling
  {
  }

  lemma PresentHonest(ledger: Ledger, active: Request, installed: Version)
    requires active.run !in ledger.rolling && installed == active.target && ledger.sight.Known?
    ensures Honest(Entry(ledger, active.command, Report(active, AlreadyInstalled, installed), installed, None))
  {
  }

  lemma OldTargetHonest(ledger: Ledger, active: Request, installed: Version)
    requires Compare(active.target, installed) <= 0 && ledger.sight.Known? && (active.run in ledger.base ==> ledger.base[active.run] == installed)
    ensures Honest(Entry(ledger, active.command, Report(active, TargetNotNewer, installed), installed, None))
  {
  }

  /** The agent reports at the first poll, the result is written, and the helper dies before it removes the request. */
  predicate DiesAfterSuccess(fates: nat -> Fate, clock: nat, active: Request) {
    && fates(clock).readable && fates(clock).ready == Some(Readiness(active.command, active.run, active.target))
    && fates(clock + 1).outcome.Ok? && fates(clock + 2).outcome.Crashed? && !fates(clock + 2).done
  }

  /** The agent reports at the first poll, and nothing else goes wrong. */
  predicate Succeeds(fates: nat -> Fate, clock: nat, active: Request) {
    fates(clock).readable && fates(clock).ready == Some(Readiness(active.command, active.run, active.target)) && GoesWell(fates, clock + 1, 4)
  }

  /** The time is up at the first poll, and the helper dies as soon as the previous version is back. */
  predicate DiesInRollback(fates: nat -> Fate, clock: nat, previous: Version) {
    && !fates(clock).readable && fates(clock).outcome.Failed?
    && fates(clock + 1).outcome.Ok? && fates(clock + 2).outcome.Ok?
    && fates(clock + 3).outcome.Crashed? && fates(clock + 3).version == previous
  }

  predicate GoesWell(fates: nat -> Fate, clock: nat, steps: nat) {
    forall i: nat | clock <= i < clock + steps :: fates(i).outcome.Ok? && fates(i).readable
  }

  function Report(active: Request, code: Code, reported: Version): Result {
    Result(active.run, active.generation, code, active.previous, active.target, reported, active.startedAt)
  }

  lemma FailureHonest(ledger: Ledger, active: Request, code: Code, reported: Version, installed: Version)
    requires code in {PreflightFailed, InstallationFailed, RollbackFailed}
    requires code.InstallationFailed? ==> active.run in ledger.base
    requires code.RollbackFailed? ==> active.run in ledger.rolling && active.run in ledger.base
    requires match ledger.sight
             case Known => reported == installed && (active.run in ledger.base ==> ledger.base[active.run] == installed)
             case ReadFailed => !code.RollbackFailed?
             case ChangeFailed(version) => code.RollbackFailed? && ledger.base[active.run] == version
    ensures Honest(Entry(ledger, active.command, Report(active, code, reported), installed, None))
  {
  }

  lemma SuccessHonest(file: Request, state: Stored, result: Option<Result>, installed: Version, ledger: Ledger, active: Request, ready: Option<Readiness>)
    requires Sound(Some(file), Some(state), result, installed, ledger) && SameRequest(active, file)
    requires state.request == active && state.phase.Installing? && installed == active.target
    requires ready == Some(Readiness(active.command, active.run, active.target)) && ledger.sight.Known?
    ensures Honest(Entry(ledger, active.command, Report(active, Success, active.target), installed, ready))
  {
  }

  lemma RolledBackHonest(file: Request, state: Stored, result: Option<Result>, installed: Version, ledger: Ledger, active: Request, ready: Option<Readiness>)
    requires Sound(Some(file), Some(state), result, installed, ledger) && SameRequest(active, file)
    requires state.request == active && state.phase.RollingBack? && installed == state.previous
    requires ready == Some(Readiness(active.command, active.run, installed)) && ledger.sight.Known?
    ensures Honest(Entry(ledger, active.command, Report(active, ReadinessFailedRolledBack, installed), installed, ready))
  {
  }

  /** The deaths that make a result file lie: after 13 steps, and again in the next run. */
  function Unlucky(previous: Version, ready: Readiness): nat -> Fate {
    (i: nat) =>
      if i == 10 then Fate(Ok, true, previous, Some(ready), true)
      else if i == 12 then Fate(Crashed, false, previous, None, true)
      else if i == 16 then Fate(Failed, false, previous, None, false)
      else if i == 19 then Fate(Crashed, true, previous, None, true)
      else Fate(Ok, true, previous, None, true)
  }

  /**
   * While the request is still there the result file can say "complete" although the previous version is
   * back: the helper died between writing the result and removing the request, and the next run rolled back.
   */
  method ResultCanBeOutdated() returns (host: Host)
    ensures fresh(host) && host.Valid()
    ensures host.result.Some? && host.result.value.Complete() && host.installed != host.result.value.target
    ensures host.request.Some? && host.ledger.touched
  {
    hide Sound;
    var before, target := Version(1, 0, 0), Version(1, 1, 0);
    var asked := Request(1, 2, 1, before, target, 0);
    host := new Host(before, Unlucky(before, Readiness(1, 2, target)), 1);
    host.PlaceRequest(asked);
    var first := host.Run();
    var second := host.Run();
    OutdatedIsTouched(host.request, host.state, host.result, host.installed, host.ledger);
  }

  lemma OutdatedIsTouched(request: Option<Request>, state: Option<Stored>, result: Option<Result>, installed: Version, ledger: Ledger)
    requires Sound(request, state, result, installed, ledger)
    requires result.Some? && result.value.Complete() && installed != result.value.target
    ensures request.Some? && ledger.touched
  {
    if request.None? || !ledger.touched {
      SettledResult(request, state, result, installed, ledger);
    }
  }
}
