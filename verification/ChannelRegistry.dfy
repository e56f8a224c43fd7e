/**
  * apps/control-plane/src/channel-registry.ts: the channel table and the cache of running
  * channels kept beside it.
  */
module ChannelRegistry {
  import opened Wrappers
  import opened Schema
  import opened ChannelPurge

  datatype RegistryError =
    | ChannelExists(id: string)
    | ChannelNotFound(id: string)
    | ChannelNotEditable(id: string)
    | ChannelInUse(id: string, refs: References)
    | InvalidInterpreter
    | CannotBuild
    | ConstraintViolation

  datatype References = References(tasks: nat, threads: nat)

  /** A channel as the cache holds it, with its interpreter built. */
  datatype Runtime = Runtime(labelName: string, key: string, interpreter: Interpreter)

  /** The channel table and the cache. */
  datatype Registry = Registry(channels: map<string, ChannelRow>, runtimes: map<string, Runtime>)

  datatype ConfigChannel = ConfigChannel(id: string, labelName: Option<string>, key: string, interpreter: Interpreter)

  /** What toRuntime does not throw on: the channel schema, and http mode only with a url. */
  predicate Buildable(id: string, row: ChannelRow) {
    && id != "" && row.labelName != "" && row.key != ""
    && (row.interpreter.mode == Http ==> row.interpreter.http.Some?)
  }

  function RuntimeOf(row: ChannelRow): Runtime {
    Runtime(row.labelName, row.key, row.interpreter)
  }

  predicate Enabled(row: ChannelRow) {
    row.disabledAt.None?
  }

  // ----- What each method does -----

  /** Writes the row, then puts it in the cache; the row stays written when building it throws. */
  function Install(r: Registry, id: string, row: ChannelRow): (Registry, bool) {
    var written := r.(channels := r.channels[id := row]);
    if Buildable(id, row) then (written.(runtimes := r.runtimes[id := RuntimeOf(row)]), true) else (written, false)
  }

  /** A key as generateChannelKey makes it out of its random part. */
  function NewKey(random: string): string {
    "ch_" + random
  }

  /** What an upsert writes: a row that exists keeps its creation time. */
  function Upserted(channels: map<string, ChannelRow>, id: string, row: ChannelRow): ChannelRow {
    if id in channels then row.(createdAt := channels[id].createdAt) else row
  }

  /** `interpreter` is the validated input, None when validation threw. */
  function Created(r: Registry, id: string, labelName: Option<string>, interpreter: Option<Interpreter>,
                   random: string, now: int): (Registry, Result<string, RegistryError>)
  {
    if id in r.runtimes then (r, Err(ChannelExists(id)))
    else if interpreter.None? then (r, Err(InvalidInterpreter))
    else
      var row := ChannelRow(labelName.GetOr(id), NewKey(random), interpreter.value, FromApi, now, None);
      var (next, ok) := Install(r, id, Upserted(r.channels, id, row));
      (next, if ok then Ok(row.key) else Err(CannotBuild))
  }

  /** Why a channel may not be edited through the registry. */
  function Refusal(r: Registry, id: string): Option<RegistryError> {
    if id !in r.channels then Some(ChannelNotFound(id))
    else if r.channels[id].source != FromApi then Some(ChannelNotEditable(id))
    else None
  }

  function Patched(row: ChannelRow, labelName: Option<string>, interpreter: Option<Interpreter>): ChannelRow {
    row.(labelName := if labelName.Some? && !Blank(labelName.value) then Trim(labelName.value) else row.labelName,
         interpreter := interpreter.GetOr(row.interpreter))
  }

  /** `interpreter` is None when the patch leaves it out, Some(None) when its validation threw. */
  function Updated(r: Registry, id: string, labelName: Option<string>, interpreter: Option<Option<Interpreter>>)
    : (Registry, Option<RegistryError>)
  {
    if Refusal(r, id).Some? then (r, Refusal(r, id))
    else if interpreter == Some(None) then (r, Some(InvalidInterpreter))
    else
      var row := Patched(r.channels[id], labelName, if interpreter.Some? then interpreter.value else None);
      if !Enabled(row) then (r.(channels := r.channels[id := row]), None)
      else
        var (next, ok) := Install(r, id, row);
        (next, if ok then None else Some(CannotBuild))
  }

  /** Puts the channel in the cache without looking at whether it is disabled. */
  function Rotated(r: Registry, id: string, random: string): (Registry, Result<string, RegistryError>) {
    if Refusal(r, id).Some? then (r, Err(Refusal(r, id).value))
    else
      var (next, ok) := Install(r, id, r.channels[id].(key := NewKey(random)));
      (next, if ok then Ok(NewKey(random)) else Err(CannotBuild))
  }

  function Disabled(r: Registry, id: string, now: int): (Registry, Option<RegistryError>) {
    if Refusal(r, id).Some? then (r, Refusal(r, id))
    else (Registry(r.channels[id := r.channels[id].(disabledAt := Some(now))], r.runtimes - {id}), None)
  }

  /** Rows that refer to the channel stop a removal without purge; a shared payload stops the transaction. */
  function Removal(r: Registry, t: Tables, id: string, purge: bool): Result<References, RegistryError> {
    var refs := References(|TasksOf(t, id)|, |ThreadsOf(t, id)|);
    if Refusal(r, id).Some? then Err(Refusal(r, id).value)
    else if !purge && refs != References(0, 0) then Err(ChannelInUse(id, refs))
    else if SharesPayloads(t, id) then Err(ConstraintViolation)
    else Ok(refs)
  }

  /** The registry's side of a removal that goes through. */
  function Forget(r: Registry, id: string): Registry {
    Registry(r.channels - {id}, r.runtimes - {id})
  }

  /** The cache that load() builds from the table. */
  function Rebuild(channels: map<string, ChannelRow>): map<string, Runtime> {
    map id <- channels | Enabled(channels[id]) :: RuntimeOf(channels[id])
  }

  /** load() throws at the first enabled row it cannot build. */
  predicate Loadable(channels: map<string, ChannelRow>) {
    forall id <- channels :: Enabled(channels[id]) ==> Buildable(id, channels[id])
  }

  function SyncOne(channels: map<string, ChannelRow>, c: ConfigChannel, now: int): map<string, ChannelRow> {
    var row := ChannelRow(c.labelName.GetOr(c.id), c.key, c.interpreter, FromConfig, now, None);
    channels[c.id := Upserted(channels, c.id, row)]
  }

  function Sync(channels: map<string, ChannelRow>, config: seq<ConfigChannel>, now: int): map<string, ChannelRow> {
    if config == [] then channels
    else SyncOne(Sync(channels, config[..|config| - 1], now), config[|config| - 1], now)
  }

  function Authenticate(runtimes: map<string, Runtime>, id: string, key: Option<string>): Option<Runtime> {
    if id in runtimes && key.GetOr("") != "" && runtimes[id].key == key.value then Some(runtimes[id]) else None
  }

  class ChannelRegistry {
    const db: Database
    var runtimes: map<string, Runtime>

    constructor (db: Database)
      ensures this.db == db && runtimes == map[]
    {
      this.db, runtimes := db, map[];
    }

    function State(): (r: Registry)
      reads this, db
    {
      Registry(db.channels, runtimes)
    }

    /** All tables but the channels. */
    function Rest(): (t: Tables)
      reads db
    {
      db.Snapshot().(channels := map[])
    }

    method SyncFromConfig(config: seq<ConfigChannel>, now: int)
      modifies db
      ensures db.channels == Sync(old(db.channels), config, now) && Rest() == old(Rest())
    {
      for i := 0 to |config|
        invariant db.channels == Sync(old(db.channels), config[..i], now) && Rest() == old(Rest())
      {
        var c := config[i];
        var row := ChannelRow(c.labelName.GetOr(c.id), c.key, c.interpreter, FromConfig, now, None);
        if c.id in db.channels {
          row := row.(createdAt := db.channels[c.id].createdAt);
        }
        db.channels := db.channels[c.id := row];
        assert config[..i + 1][..i] == config[..i];
      }
      assert config[..|config|] == config;
    }

    /** Rebuilds the cache; when a row cannot be built it stops there. */
    method Load() returns (ok: bool)
      modifies `runtimes
      ensures ok <==> Loadable(db.channels)
      ensures ok ==> runtimes == Rebuild(db.channels)
    {
      runtimes := map[];
      var rebuilt := Rebuild(db.channels);
      var ids := Enumerate(rebuilt.Keys);
      for i := 0 to |ids|
        invariant runtimes.Keys == SetOf(ids[..i])
        invariant forall id <- runtimes ::
          id in rebuilt && runtimes[id] == rebuilt[id] && Buildable(id, db.channels[id])
      {
        var row := db.channels[ids[i]];
        if !Buildable(ids[i], row) {
          return false;
        }
        runtimes := runtimes[ids[i] := RuntimeOf(row)];
        assert SetOf(ids[..i + 1]) == SetOf(ids[..i]) + {ids[i]};
      }
      assert ids[..|ids|] == ids && SetOf(ids) == rebuilt.Keys;
      assert runtimes == rebuilt;
      ok := true;
    }

    method TryBuild(id: string, row: ChannelRow) returns (ok: bool)
      modifies `runtimes
      ensures ok == Buildable(id, row)
      ensures runtimes == if ok then old(runtimes)[id := RuntimeOf(row)] else old(runtimes)
    {
      ok := Buildable(id, row);
      if ok {
        runtimes := runtimes[id := RuntimeOf(row)];
      }
    }

    method Create(id: string, labelName: Option<string>, interpreter: Option<Interpreter>, random: string, now: int)
      returns (key: Result<string, RegistryError>)
      modifies this`runtimes, db
      ensures (State(), key) == Created(old(State()), id, labelName, interpreter, random, now) && Rest() == old(Rest())
      ensures State() == After(old(State()), CreateOp(id, labelName, interpreter, random, now))
    {
      if id in runtimes {
        return Err(ChannelExists(id));
      }
      if interpreter.None? {
        return Err(InvalidInterpreter);
      }
      var row := ChannelRow(labelName.GetOr(id), NewKey(random), interpreter.value, FromApi, now, None);
      if id in db.channels {
        row := row.(createdAt := db.channels[id].createdAt);
      }
      db.channels := db.channels[id := row];
      var ok := TryBuild(id, row);
      key := if ok then Ok(row.key) else Err(CannotBuild);
    }

    method Update(id: string, labelName: Option<string>, interpreter: Option<Option<Interpreter>>)
      returns (error: Option<RegistryError>)
      modifies this`runtimes, db
      ensures (State(), error) == Updated(old(State()), id, labelName, interpreter) && Rest() == old(Rest())
      ensures State() == After(old(State()), UpdateOp(id, labelName, interpreter))
    {
      if id !in db.channels {
        return Some(ChannelNotFound(id));
      }
      var row := db.channels[id];
      if row.source != FromApi {
        return Some(ChannelNotEditable(id));
      }
      if labelName.Some? && Trim(labelName.value) != "" {
        row := row.(labelName := Trim(labelName.value));
      }
      if interpreter.Some? {
        if interpreter.value.None? {
          return Some(InvalidInterpreter);
        }
        row := row.(interpreter := interpreter.value.value);
      }
      db.channels := db.channels[id := row];
      error := None;
      if row.disabledAt.None? {
        var ok := TryBuild(id, row);
        error := if ok then None else Some(CannotBuild);
      }
    }

    method RotateKey(id: string, random: string) returns (key: Result<string, RegistryError>)
      modifies this`runtimes, db
      ensures (State(), key) == Rotated(old(State()), id, random) && Rest() == old(Rest())
      ensures State() == After(old(State()), RotateOp(id, random))
    {
      if id !in db.channels {
        return Err(ChannelNotFound(id));
      }
      if db.channels[id].source != FromApi {
        return Err(ChannelNotEditable(id));
      }
      var row := db.channels[id].(key := NewKey(random));
      db.channels := db.channels[id := row];
      var ok := TryBuild(id, row);
      key := if ok then Ok(row.key) else Err(CannotBuild);
    }

    method Disable(id: string, now: int) returns (error: Option<RegistryError>)
      modifies this`runtimes, db
      ensures (State(), error) == Disabled(old(State()), id, now) && Rest() == old(Rest())
      ensures State() == After(old(State()), DisableOp(id, now))
    {
      if id !in db.channels {
        return Some(ChannelNotFound(id));
      }
      if db.channels[id].source != FromApi {
        return Some(ChannelNotEditable(id));
      }
      db.channels := db.channels[id := db.channels[id].(disabledAt := Some(now))];
      runtimes := runtimes - {id};
      error := None;
    }

    method Restore(t: Tables)
      modifies db
      ensures db.Snapshot() == t
    {
      db.channels, db.payloads, db.tasks := t.channels, t.payloads, t.tasks;
      db.taskEvents, db.threads, db.threadEvents := t.taskEvents, t.threads, t.threadEvents;
    }

    /** One statement, which throws and changes nothing when it would break a foreign key. */
    method RunStatement(s: Statement) returns (ok: bool)
      modifies db
      ensures var next := Delete(old(db.Snapshot()), s);
        ok == ForeignKeysOk(next) && db.Snapshot() == if ok then next else old(db.Snapshot())
    {
      var next := Delete(db.Snapshot(), s);
      ok := ForeignKeysOk(next);
      if ok {
        Restore(next);
      }
    }

    /** Runs the statements in order; the first that would break a foreign key rolls all of them back. */
    method Transaction(plan: seq<Statement>) returns (ok: bool)
      modifies db
      ensures ok <==> Execute(old(db.Snapshot()), plan).Some?
      ensures db.Snapshot() == Execute(old(db.Snapshot()), plan).GetOr(old(db.Snapshot()))
    {
      var saved := db.Snapshot();
      for i := 0 to |plan|
        invariant Execute(saved, plan[..i]) == Some(db.Snapshot())
      {
        assert plan[..i + 1] == plan[..i] + [plan[i]];
        ExecuteSnoc(saved, plan[..i], plan[i]);
        ok := RunStatement(plan[i]);
        if !ok {
          FailedForGood(saved, plan, i + 1);
          Restore(saved);
          return;
        }
      }
      assert plan[..|plan|] == plan;
      ok := true;
    }

    /** The payload references of a channel's tasks, one per row. */
    method SelectPayloadRefs(channelId: string) returns (refs: seq<string>)
      ensures SetOf(refs) == PayloadRefsOf(db.Snapshot(), channelId)
    {
      var rows := Enumerate(TasksOf(db.Snapshot(), channelId));
      refs := [];
      for i := 0 to |rows|
        invariant |refs| == i && forall k :: 0 <= k < i ==> refs[k] == db.tasks[rows[k]].payloadRef
      {
        refs := refs + [db.tasks[rows[i]].payloadRef];
      }
      forall id <- TasksOf(db.Snapshot(), channelId) ensures db.tasks[id].payloadRef in refs {
        var k :| 0 <= k < |rows| && rows[k] == id;
        assert refs[k] == db.tasks[id].payloadRef;
      }
    }

    /** Deletes the channel and all that belongs to it, or, when a payload is shared, nothing. */
    method PurgeAll(id: string) returns (ok: bool)
      requires ForeignKeysOk(db.Snapshot())
      modifies db
      ensures ForeignKeysOk(db.Snapshot()) && ok == !SharesPayloads(old(db.Snapshot()), id)
      ensures db.Snapshot() == if ok then Purged(old(db.Snapshot()), id) else old(db.Snapshot())
    {
      var refs := SelectPayloadRefs(id);
      PurgeRuns(db.Snapshot(), id, refs);
      ok := Transaction(PurgePlan(id, refs));
      if ok {
        PurgedIsWhole(old(db.Snapshot()), id);
      }
    }

    method Remove(id: string, purge: bool) returns (r: Result<References, RegistryError>)
      requires ForeignKeysOk(db.Snapshot())
      modifies this`runtimes, db
      ensures ForeignKeysOk(db.Snapshot())
      ensures r == Removal(old(State()), old(db.Snapshot()), id, purge)
      ensures r.Ok? ==> db.Snapshot() == Purged(old(db.Snapshot()), id)
      ensures State() == After(old(State()), RemoveOp(id, r.Ok?))
      ensures r.Ok? && !purge ==>
        && (forall x <- old(db.tasks) :: old(db.tasks)[x].channelId != id)
        && (forall x <- old(db.threads) :: old(db.threads)[x].channelId != id)
      ensures r.Err? ==> db.Snapshot() == old(db.Snapshot()) && runtimes == old(runtimes)
    {
      if id !in db.channels {
        return Err(ChannelNotFound(id));
      }
      if db.channels[id].source != FromApi {
        return Err(ChannelNotEditable(id));
      }
      var t := db.Snapshot();
      RemovalTells(State(), t, id, purge);
      var refs := References(|TasksOf(t, id)|, |ThreadsOf(t, id)|);
      if (refs.tasks > 0 || refs.threads > 0) && !purge {
        return Err(ChannelInUse(id, refs));
      }
      var ok := PurgeAll(id);
      if !ok {
        return Err(ConstraintViolation);
      }
      runtimes := runtimes - {id};
      r := Ok(refs);
    }
  }

  lemma {:induction false} FailedForGood(t: Tables, plan: seq<Statement>, k: nat)
    requires k <= |plan| && Execute(t, plan[..k]).None?
    ensures Execute(t, plan).None?
    decreases |plan|
  {
    if k < |plan| {
      assert plan[..|plan| - 1][..k] == plan[..k];
      FailedForGood(t, plan[..|plan| - 1], k);
    } else {
      assert plan[..k] == plan;
    }
  }

  /**
    * Deleting: only a channel of the screen. Without purge any task or thread of the channel refuses
    * it; with purge only a payload that a task of another channel shares does.
    */
  lemma RemovalTells(r: Registry, t: Tables, id: string, purge: bool)
    ensures var result := Removal(r, t, id, purge);
      var editable := id in r.channels && r.channels[id].source == FromApi;
      var used := (exists x <- t.tasks :: t.tasks[x].channelId == id)
                  || (exists x <- t.threads :: t.threads[x].channelId == id);
      var shared := exists x <- t.tasks, y <- t.tasks ::
        t.tasks[x].channelId == id && t.tasks[y].channelId != id && t.tasks[x].payloadRef == t.tasks[y].payloadRef;
      && (result.Ok? <==> editable && (purge || !used) && !shared)
      && (result.Err? && result.error.ChannelInUse? <==> editable && !purge && used)
      && (result.Err? ==>
            || (id !in r.channels && result.error == ChannelNotFound(id))
            || (id in r.channels && !editable && result.error == ChannelNotEditable(id))
            || (editable && !purge && used && result.error == ChannelInUse(id, Referring(t, id)))
            || (editable && shared && result.error == ConstraintViolation))
      && (result.Ok? ==> result.value == Referring(t, id))
  {
    forall x <- t.tasks | t.tasks[x].channelId == id ensures |TasksOf(t, id)| > 0 {
      assert x in TasksOf(t, id);
    }
    forall x <- t.threads | t.threads[x].channelId == id ensures |ThreadsOf(t, id)| > 0 {
      assert x in ThreadsOf(t, id);
    }
    forall x <- t.tasks, y <- t.tasks
      | t.tasks[x].channelId == id && t.tasks[y].channelId != id && t.tasks[x].payloadRef == t.tasks[y].payloadRef
      ensures SharesPayloads(t, id)
    {
      assert t.tasks[x].payloadRef in PayloadRefsOf(t, id);
    }
    SomeReference(t, id);
  }

  /** How many rows of either table refer to a channel. */
  function Referring(t: Tables, id: string): References {
    References(|set x <- t.tasks | t.tasks[x].channelId == id|, |set x <- t.threads | t.threads[x].channelId == id|)
  }

  lemma SomeReference(t: Tables, id: string)
    ensures |TasksOf(t, id)| > 0 ==> exists x <- t.tasks :: t.tasks[x].channelId == id
    ensures |ThreadsOf(t, id)| > 0 ==> exists x <- t.threads :: t.threads[x].channelId == id
    ensures SharesPayloads(t, id) ==> exists x <- t.tasks, y <- t.tasks ::
      t.tasks[x].channelId == id && t.tasks[y].channelId != id && t.tasks[x].payloadRef == t.tasks[y].payloadRef
    ensures References(|TasksOf(t, id)|, |ThreadsOf(t, id)|) == Referring(t, id)
  {
    if |TasksOf(t, id)| > 0 {
      var x :| x in TasksOf(t, id);
    }
    if |ThreadsOf(t, id)| > 0 {
      var x :| x in ThreadsOf(t, id);
    }
  }

  // ----- The cache and the table -----

  /** The cache is what a restart would build. */
  predicate Agrees(r: Registry) {
    Loadable(r.channels) && r.runtimes == Rebuild(r.channels)
  }

  /** A restart succeeds and every key opens exactly what it opened before. */
  ghost predicate SurvivesRestart(r: Registry) {
    && Loadable(r.channels)
    && forall id, key :: Authenticate(r.runtimes, id, key) == Authenticate(Rebuild(r.channels), id, key)
  }

  datatype Op =
    | CreateOp(id: string, labelName: Option<string>, interpreter: Option<Interpreter>, random: string, now: int)
    | UpdateOp(id: string, labelName: Option<string>, change: Option<Option<Interpreter>>)
    | RotateOp(id: string, random: string)
    | DisableOp(id: string, now: int)
    | RemoveOp(id: string, goesThrough: bool)

  function After(r: Registry, op: Op): Registry {
    match op
    case CreateOp(id, labelName, interpreter, random, now) => Created(r, id, labelName, interpreter, random, now).0
    case UpdateOp(id, labelName, change) => Updated(r, id, labelName, change).0
    case RotateOp(id, random) => Rotated(r, id, random).0
    case DisableOp(id, now) => Disabled(r, id, now).0
    case RemoveOp(id, goesThrough) => if goesThrough && Refusal(r, id).None? then Forget(r, id) else r
  }

  /**
    * The operations that keep the cache in step. The others write a row that cannot be built,
    * or put a disabled channel back into the cache.
    */
  predicate Harmless(r: Registry, op: Op) {
    match op
    case CreateOp(id, labelName, interpreter, random, now) =>
      || id in r.runtimes || interpreter.None?
      || Buildable(id, ChannelRow(labelName.GetOr(id), NewKey(random), interpreter.value, FromApi, now, None))
    case UpdateOp(id, labelName, change) =>
      || Refusal(r, id).Some? || change == Some(None) || !Enabled(r.channels[id])
      || Buildable(id, Patched(r.channels[id], labelName, if change.Some? then change.value else None))
    case RotateOp(id, random) =>
      Refusal(r, id).Some? || Enabled(r.channels[id]) || !Buildable(id, r.channels[id].(key := NewKey(random)))
    case _ => true
  }

  lemma AgreementSurvives(r: Registry)
    requires Agrees(r)
    ensures SurvivesRestart(r)
  {}

  lemma InstallKeepsAgreement(r: Registry, id: string, row: ChannelRow)
    requires Agrees(r) && Enabled(row) && Buildable(id, row)
    ensures Agrees(Install(r, id, row).0)
  {
    var q := Install(r, id, row).0;
    assert q.runtimes == Rebuild(q.channels);
  }

  /** A row that is written without the cache being touched. */
  lemma ShutRowKeepsAgreement(r: Registry, id: string, row: ChannelRow)
    requires Agrees(r) && !Enabled(row) && (id in r.channels ==> id !in r.runtimes)
    ensures Agrees(r.(channels := r.channels[id := row]))
  {
    var channels := r.channels[id := row];
    assert Rebuild(channels) == r.runtimes;
  }

  lemma HarmlessKeepsAgreement(r: Registry, op: Op)
    requires Agrees(r) && Harmless(r, op)
    ensures Agrees(After(r, op))
  {
    var q := After(r, op);
    match op
    case CreateOp(id, labelName, interpreter, random, now) =>
      if id !in r.runtimes && interpreter.Some? {
        var row := ChannelRow(labelName.GetOr(id), NewKey(random), interpreter.value, FromApi, now, None);
        InstallKeepsAgreement(r, id, Upserted(r.channels, id, row));
      }
    case UpdateOp(id, labelName, change) =>
      if Refusal(r, id).None? && change != Some(None) {
        var row := Patched(r.channels[id], labelName, if change.Some? then change.value else None);
        if Enabled(row) {
          InstallKeepsAgreement(r, id, row);
        } else {
          ShutRowKeepsAgreement(r, id, row);
        }
      }
    case RotateOp(id, random) =>
      if Refusal(r, id).None? {
        var row := r.channels[id].(key := NewKey(random));
        if Enabled(row) {
          InstallKeepsAgreement(r, id, row);
        } else {
          ShutRowKeepsAgreement(r, id, row);
        }
      }
    case _ => assert q.runtimes == Rebuild(q.channels);
  }

  /** From an agreeing cache, one operation leaves a registry that survives a restart exactly when it is harmless. */
  lemma RestartTells(r: Registry, op: Op)
    requires Agrees(r)
    ensures SurvivesRestart(After(r, op)) <==> Harmless(r, op)
  {
    var q := After(r, op);
    if Harmless(r, op) {
      HarmlessKeepsAgreement(r, op);
    } else if op.RotateOp? {
      var key := Some(NewKey(op.random));
      assert Authenticate(q.runtimes, op.id, key) != Authenticate(Rebuild(q.channels), op.id, key);
    } else {
      assert op.id in q.channels && Enabled(q.channels[op.id]) && !Buildable(op.id, q.channels[op.id]);
    }
  }

  function AfterAll(r: Registry, ops: seq<Op>): Registry {
    if ops == [] then r else After(AfterAll(r, ops[..|ops| - 1]), ops[|ops| - 1])
  }

  predicate AllHarmless(r: Registry, ops: seq<Op>) {
    ops == [] ||
    (AllHarmless(r, ops[..|ops| - 1]) && Harmless(AfterAll(r, ops[..|ops| - 1]), ops[|ops| - 1]))
  }

  /** After any sequence of harmless operations the cache is what load() would rebuild. */
  lemma {:induction false} CacheFollowsTable(r: Registry, ops: seq<Op>)
    requires Agrees(r) && AllHarmless(r, ops)
    ensures Agrees(AfterAll(r, ops)) && SurvivesRestart(AfterAll(r, ops))
    decreases |ops|
  {
    if ops != [] {
      CacheFollowsTable(r, ops[..|ops| - 1]);
      HarmlessKeepsAgreement(AfterAll(r, ops[..|ops| - 1]), ops[|ops| - 1]);
    }
    AgreementSurvives(AfterAll(r, ops));
  }

  /** Only the key just issued opens the channel. */
  lemma OnlyNewKeyOpens(r: Registry, op: Op, key: string)
    requires op.CreateOp? ==> Created(r, op.id, op.labelName, op.interpreter, op.random, op.now).1.Ok?
    requires op.RotateOp? ==> Rotated(r, op.id, op.random).1.Ok?
    requires op.CreateOp? || op.RotateOp?
    ensures Authenticate(After(r, op).runtimes, op.id, Some(key)).Some? <==> key == NewKey(op.random)
  {}

  /** Editing a channel leaves its keys as they were, so that existing webhooks go on working. */
  lemma EditsKeepKeys(r: Registry, op: Op, id: string, key: Option<string>)
    requires Agrees(r) && op.UpdateOp?
    ensures Authenticate(After(r, op).runtimes, id, key).Some? <==> Authenticate(r.runtimes, id, key).Some?
  {
    var q := After(r, op);
    assert id in q.runtimes <==> id in r.runtimes;
    assert id in r.runtimes ==> q.runtimes[id].key == r.runtimes[id].key;
  }

  /** An operation concerns one channel: rows and cache entries of the others stay. */
  lemma OthersStay(r: Registry, op: Op, id: string)
    requires id != op.id
    ensures var q := After(r, op);
      && (id in q.channels <==> id in r.channels) && (id in r.channels ==> q.channels[id] == r.channels[id])
      && (id in q.runtimes <==> id in r.runtimes) && (id in r.runtimes ==> q.runtimes[id] == r.runtimes[id])
  {}

  /** A disabled channel opens to no key, until it is registered again or its key is rotated. */
  lemma {:induction false} DisabledStaysShut(r: Registry, ops: seq<Op>, id: string, key: Option<string>)
    requires id in r.channels && !Enabled(r.channels[id]) && id !in r.runtimes
    requires forall op <- ops :: op.id == id ==> !op.CreateOp? && !op.RotateOp?
    ensures id !in AfterAll(r, ops).runtimes && Authenticate(AfterAll(r, ops).runtimes, id, key).None?
    ensures id in AfterAll(r, ops).channels ==> !Enabled(AfterAll(r, ops).channels[id])
    decreases |ops|
  {
    if ops != [] {
      DisabledStaysShut(r, ops[..|ops| - 1], id, key);
    }
  }

  // ----- Starting up -----

  /** What the last entry for `id` in the configuration says. */
  function LastEntry(config: seq<ConfigChannel>, id: string): Option<ConfigChannel> {
    if config == [] then None
    else if config[|config| - 1].id == id then Some(config[|config| - 1])
    else LastEntry(config[..|config| - 1], id)
  }

  /**
    * The file is the truth for the channels it names: each is enabled and as its last entry says,
    * whatever the table held, and keeps its creation time; the others are untouched.
    */
  lemma {:induction false} FileWins(channels: map<string, ChannelRow>, config: seq<ConfigChannel>, now: int, id: string)
    ensures var synced := Sync(channels, config, now);
      match LastEntry(config, id)
      case None => (id in synced <==> id in channels) && (id in channels ==> synced[id] == channels[id])
      case Some(c) =>
        && id in synced
        && synced[id] == ChannelRow(c.labelName.GetOr(id), c.key, c.interpreter, FromConfig,
                                    if id in channels then channels[id].createdAt else now, None)
    decreases |config|
  {
    if config != [] {
      FileWins(channels, config[..|config| - 1], now, id);
    }
  }
}
