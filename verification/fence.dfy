/** Monotonic fencing on the ledger's control row, and the run lease composed from lock and fence. */
module Fence {
  import opened Work

  const SCHEMA_VERSION := 1

  datatype TaskId =
    | ControlTask(namespace: string)
    | WorkTask(namespace: string, fingerprint: Fingerprint)
    | OtherTask(name: string)

  datatype TaskStatus = CREATED | PAUSED | TASK_SUCCEEDED

  /** The fence_generation entry of a marker, as decoded. */
  datatype Generation = Absent | Value(n: int) | NotAnInteger

  /** A row's marker, as decoded; the record of a work marker is None when it cannot be decoded. */
  datatype Metadata =
    | Malformed
    | ControlMarker(schema: int, namespace: string, checkpoints: seq<Checkpoint>, generation: Generation)
    | WorkMarker(schema: int, namespace: string, fingerprint: Fingerprint, record: Option<Item>)

  datatype Task = Task(id: TaskId, status: TaskStatus, createdAt: int, metadata: Metadata)

  datatype FenceError = Invalid(reason: string) | Stale(reason: string) | Unreachable | NotHeld

  datatype Result<+T> = Ok(value: T) | Err(error: FenceError)

  datatype Token = Token(namespace: string, controlId: TaskId, generation: nat)

  // ----- the fencing rules on a well-formed control row

  datatype Control = Control(generation: nat, checkpoints: seq<Checkpoint>)

  /** The control row after one more token was issued. */
  function Issue(control: Option<Control>): Control {
    match control
    case None => Control(1, [])
    case Some(c) => c.(generation := c.generation + 1)
  }

  /** A write under this generation is let through. */
  predicate Admits(control: Option<Control>, generation: nat) {
    control.Some? && control.value.generation == generation
  }

  /** A control write rebuilt without a generation gets the writer's generation back. */
  function Stamp(checkpoints: seq<Checkpoint>, generation: nat): Control {
    Control(generation, checkpoints)
  }

  // ----- decoding a control row

  function ValidatedMarker(m: Metadata, namespace: string): (r: Option<FenceError>)
    ensures r.None? <==> m.ControlMarker? && m.schema == SCHEMA_VERSION && m.namespace == namespace
  {
    if m.Malformed? then Some(Invalid("invalid PostgreSQL upgrade fence metadata"))
    else if m.schema != SCHEMA_VERSION then Some(Invalid("unsupported PostgreSQL upgrade fence schema"))
    else if !m.ControlMarker? then Some(Invalid("PostgreSQL upgrade fence requires a control record"))
    else if m.namespace != namespace then Some(Invalid("PostgreSQL upgrade fence namespace mismatch"))
    else None
  }

  /** A marker without a generation, as the ledger writes it, counts as generation zero. */
  function GenerationOf(m: Metadata, namespace: string): (r: Result<nat>)
    ensures r.Ok? <==>
      && m.ControlMarker? && m.schema == 1 && m.namespace == namespace
      && (m.generation == Absent || (m.generation.Value? && m.generation.n >= 0))
    ensures r.Ok? ==> if m.generation == Absent then r.value == 0 else m.generation == Value(r.value)
  {
    var problem := ValidatedMarker(m, namespace);
    if problem.Some? then Result<nat>.Err(problem.value)
    else if m.generation.Absent? then Ok(0)
    else if m.generation.Value? && m.generation.n >= 0 then Result<nat>.Ok(m.generation.n)
    else Result<nat>.Err(Invalid("invalid PostgreSQL upgrade fence generation"))
  }

  /** The control row as the fencing rules see it, when it is missing or well formed. */
  function ControlOf(rows: map<TaskId, Task>, namespace: string, id: TaskId): Result<Option<Control>> {
    if id !in rows then Ok(None)
    else
      match GenerationOf(rows[id].metadata, namespace)
      case Ok(g) => Ok(Some(Control(g, rows[id].metadata.checkpoints)))
      case Err(e) => Err(e)
  }

  /** The table of engineering tasks, shared by every runner. */
  class EngineeringTable {
    var rows: map<TaskId, Task>

    constructor ()
      ensures rows == map[]
    {
      rows := map[];
    }
  }

  /** What ON CONFLICT keeps: the creation time of an existing row. */
  function Upsert(rows: map<TaskId, Task>, task: Task): map<TaskId, Task> {
    rows[task.id := if task.id in rows then task.(createdAt := rows[task.id].createdAt) else task]
  }

  class PostgresUpgradeFence {
    const table: EngineeringTable
    const namespace: string
    const controlId: TaskId

    constructor (table: EngineeringTable, namespace: string, controlId: TaskId)
      ensures this.table == table && this.namespace == namespace && this.controlId == controlId
    {
      this.table, this.namespace, this.controlId := table, namespace, controlId;
    }

    ghost function Current(): Result<Option<Control>>
      reads table
    {
      ControlOf(table.rows, namespace, controlId)
    }

    /** One transaction under the row lock: issue the next generation, or change nothing. The row is never claimable. */
    method AcquireToken(reachable: bool, now: int) returns (r: Result<Token>)
      modifies table
      ensures r.Ok? <==> reachable && old(Current()).Ok?
      ensures r.Ok? ==> r.value == Token(namespace, controlId, Issue(old(Current()).value).generation)
      ensures r.Ok? ==> Current() == Ok(Some(Issue(old(Current()).value)))
      ensures r.Ok? ==> table.rows - {controlId} == old(table.rows) - {controlId}
      ensures r.Ok? ==>
        && controlId in table.rows && table.rows[controlId].status == PAUSED
        && table.rows[controlId].metadata.generation == Value(r.value.generation)
        && (controlId !in old(table.rows) ==>
              table.rows[controlId].createdAt == now && r.value.generation == 1 && Current().value.value.checkpoints == [])
        && (controlId in old(table.rows) ==>
              && table.rows[controlId].createdAt == old(table.rows)[controlId].createdAt
              && r.value.generation == old(Current()).value.value.generation + 1
              && Current().value.value.checkpoints == old(Current()).value.value.checkpoints)
      ensures r.Err? ==> table.rows == old(table.rows) && (r.error.Unreachable? <==> !reachable) && !r.error.Stale?
    {
      if !reachable { return Err(Unreachable); }
      var generation: nat;
      if controlId !in table.rows {
        generation := 1;
        var metadata := ControlMarker(SCHEMA_VERSION, namespace, [], Value(generation));
        table.rows := table.rows[controlId := Task(controlId, PAUSED, now, metadata)];
      } else {
        var row := table.rows[controlId];
        match GenerationOf(row.metadata, namespace)
        case Err(e) => return Err(e);
        case Ok(g) =>
          generation := g + 1;
          var metadata := row.metadata.(generation := Value(generation));
          table.rows := table.rows[controlId := row.(status := PAUSED, metadata := metadata)];
      }
      return Ok(Token(namespace, controlId, generation));
    }

    ghost predicate Names(token: Token) {
      token.namespace == namespace && token.controlId == controlId && token.generation >= 1
    }

    method CheckGeneration(token: Token) returns (problem: Option<FenceError>)
      ensures problem.None? <==> Current().Ok? && Admits(Current().value, token.generation)
      ensures problem.Some? ==> (problem.value.Stale? <==> Current().Ok?) && (problem.value.Invalid? <==> Current().Err?)
    {
      if controlId !in table.rows { return Some(Stale("control row is missing")); }
      match GenerationOf(table.rows[controlId].metadata, namespace)
      case Err(e) => return Some(e);
      case Ok(g) =>
        if g != token.generation { return Some(Stale("a newer generation exists")); }
        return None;
    }

    /** Checks a token without changing any work. */
    method AssertCurrent(token: Token, reachable: bool) returns (r: Result<()>)
      ensures r.Ok? <==> reachable && Names(token) && Current().Ok? && Admits(Current().value, token.generation)
      ensures r.Err? ==>
        && (r.error.Unreachable? <==> Names(token) && !reachable)
        && (r.error.Stale? <==> !Names(token) || (reachable && Current().Ok?))
    {
      if token.namespace != namespace || token.controlId != controlId || token.generation < 1 {
        return Err(Stale("token identity mismatch"));
      }
      if !reachable { return Err(Unreachable); }
      var problem := CheckGeneration(token);
      return if problem.Some? then Err(problem.value) else Ok(());
    }

    /** The row a fenced write stores: a control row always carries the writer's generation. */
    ghost function Written(task: Task, token: Token): Task {
      if task.id == controlId && task.metadata.ControlMarker?
      then task.(metadata := task.metadata.(generation := Value(token.generation)))
      else task
    }

    /** Upserts a task in the transaction that checks the token; a refused write changes nothing. */
    method SaveTask(task: Task, token: Token, reachable: bool) returns (r: Result<()>)
      modifies table
      ensures r.Ok? <==>
        && reachable && Names(token)
        && old(Current()).Ok? && Admits(old(Current()).value, token.generation)
        && (task.id == controlId ==> ValidatedMarker(task.metadata, namespace).None?)
      ensures r.Err? ==>
        && table.rows == old(table.rows)
        && (r.error.Unreachable? <==> Names(token) && !reachable)
        && (r.error.Stale? <==>
              || !Names(token)
              || (reachable && old(Current()).Ok? && !Admits(old(Current()).value, token.generation)))
      ensures r.Ok? ==> table.rows == Upsert(old(table.rows), Written(task, token))
      ensures r.Ok? ==>
        && table.rows - {task.id} == old(table.rows) - {task.id}
        && task.id in table.rows && table.rows[task.id].id == task.id && table.rows[task.id].status == task.status
        && table.rows[task.id].createdAt
           == (if task.id in old(table.rows) then old(table.rows)[task.id].createdAt else task.createdAt)
        && (task.id != controlId ==> table.rows[task.id].metadata == task.metadata)
      ensures r.Ok? && task.id == controlId ==>
        Current() == Ok(Some(Stamp(task.metadata.checkpoints, token.generation)))
      ensures r.Ok? && task.id != controlId ==> Current() == old(Current())
    {
      if token.namespace != namespace || token.controlId != controlId || token.generation < 1 {
        return Err(Stale("token identity mismatch"));
      }
      if !reachable { return Err(Unreachable); }
      var problem := CheckGeneration(token);
      if problem.Some? { return Err(problem.value); }
      var metadata := task.metadata;
      if task.id == controlId {
        var invalid := ValidatedMarker(metadata, namespace);
        if invalid.Some? { return Err(invalid.value); }
        metadata := metadata.(generation := Value(token.generation));
      }
      table.rows := Upsert(table.rows, task.(metadata := metadata));
      return Ok(());
    }
  }

  // ----- lock, then token

  type SessionId = nat

  /** The server side of session advisory locks: a lock is free or belongs to one session. */
  class AdvisoryLocks {
    var holders: map<string, SessionId>

    constructor ()
      ensures holders == map[]
    {
      holders := map[];
    }
  }

  class PostgresAdvisoryRunLease {
    const locks: AdvisoryLocks
    const key: string
    var session: Option<SessionId>

    constructor (locks: AdvisoryLocks, key: string)
      ensures this.locks == locks && this.key == key && session == None
    {
      this.locks, this.key, session := locks, key, None;
    }

    /** Takes the lock in the given database session, or fails and holds nothing. */
    method Acquire(connection: SessionId, reachable: bool) returns (r: Result<()>)
      modifies this, locks
      ensures r.Ok? <==>
        && old(session).None? && reachable
        && (key !in old(locks.holders) || old(locks.holders)[key] == connection)
      ensures r.Ok? ==> session == Some(connection) && locks.holders == old(locks.holders)[key := connection]
      ensures r.Err? ==> session == old(session) && locks.holders == old(locks.holders)
    {
      if session.Some? { return Err(Invalid("already acquired")); }
      if !reachable { return Err(Unreachable); }
      if key in locks.holders && locks.holders[key] != connection { return Err(Invalid("already held")); }
      locks.holders := locks.holders[key := connection];
      session := Some(connection);
      return Ok(());
    }

    /** Gives the lock up; reports an error when the session had lost it already, or cannot be reached. */
    method Release(reachable: bool) returns (r: Result<()>)
      modifies this, locks
      ensures session.None?
      ensures old(session).None? ==> r.Ok? && locks.holders == old(locks.holders)
      ensures old(session).Some? ==>
        (r.Ok? <==> reachable && key in old(locks.holders) && old(locks.holders)[key] == old(session).value)
      ensures old(session).Some? && r.Ok? ==> locks.holders == old(locks.holders) - {key}
      ensures r.Err? ==> locks.holders == old(locks.holders)
    {
      if session.None? { return Ok(()); }
      var held := reachable && key in locks.holders && locks.holders[key] == session.value;
      session := None;
      if !held { return Err(Invalid("ownership lost before release")); }
      locks.holders := locks.holders - {key};
      return Ok(());
    }
  }

  class PostgresFencedRunLease {
    const advisory: PostgresAdvisoryRunLease
    const fence: PostgresUpgradeFence
    var token: Option<Token>

    /** A token is out only while the advisory lease object is held. */
    ghost predicate Valid()
      reads this, advisory
    {
      token.Some? ==> advisory.session.Some? && token.value.generation >= 1 && fence.Names(token.value)
    }

    constructor (advisory: PostgresAdvisoryRunLease, fence: PostgresUpgradeFence)
      ensures Valid() && token == None && this.advisory == advisory && this.fence == fence
    {
      this.advisory, this.fence, token := advisory, fence, None;
    }

    /** Lock first, then token; if no token can be issued the lock is given back. */
    method Acquire(
      connection: SessionId, lockReachable: bool, fenceReachable: bool, releaseReachable: bool, now: int)
      returns (r: Result<()>)
      requires Valid() && advisory.locks as object != fence.table
      modifies this, advisory, advisory.locks, fence.table
      ensures Valid()
      ensures r.Ok? <==>
        && old(token).None? && old(advisory.session).None? && lockReachable
        && (advisory.key !in old(advisory.locks.holders) || old(advisory.locks.holders)[advisory.key] == connection)
        && fenceReachable && old(fence.Current()).Ok?
      ensures r.Ok? ==>
        && token.Some?
        && advisory.session == Some(connection)
        && advisory.locks.holders == old(advisory.locks.holders)[advisory.key := connection]
        && fence.Current() == Ok(Some(Issue(old(fence.Current()).value)))
        && Admits(fence.Current().value, token.value.generation)
      ensures r.Err? ==> token == old(token) && fence.table.rows == old(fence.table.rows)
      ensures
        && r.Err? && old(token).None? && old(advisory.session).None? && releaseReachable
        && advisory.key !in old(advisory.locks.holders) ==>
        advisory.session.None? && advisory.locks.holders == old(advisory.locks.holders)
    {
      if token.Some? { return Err(Invalid("already acquired")); }
      var locked := advisory.Acquire(connection, lockReachable);
      if locked.Err? { return Err(locked.error); }
      var issued := fence.AcquireToken(fenceReachable, now);
      if issued.Err? {
        var undone := advisory.Release(releaseReachable);
        return Err(if undone.Err? then Invalid("unable to roll back lease") else issued.error);
      }
      token := Some(issued.value);
      return Ok(());
    }

    method RequireToken() returns (r: Result<Token>)
      ensures r.Ok? <==> token.Some?
      ensures r.Ok? ==> r.value == token.value
    {
      return if token.Some? then Ok(token.value) else Err(NotHeld);
    }

    /** The token is gone before the lock is. */
    method Release(reachable: bool) returns (r: Result<()>)
      requires Valid()
      modifies this, advisory, advisory.locks
      ensures Valid() && token.None?
      ensures old(token).Some? ==>
        && advisory.session.None?
        && (r.Ok? <==>
              && reachable && advisory.key in old(advisory.locks.holders)
              && Some(old(advisory.locks.holders)[advisory.key]) == old(advisory.session))
        && (r.Ok? ==> advisory.locks.holders == old(advisory.locks.holders) - {advisory.key})
      ensures old(token).None? ==> r.Ok? && advisory.session == old(advisory.session)
      ensures old(token).None? || r.Err? ==> advisory.locks.holders == old(advisory.locks.holders)
    {
      if token.None? { return Ok(()); }
      token := None;
      r := advisory.Release(reachable);
    }
  }

  /** The store the ledger writes through: every write needs the token of the active lease. */
  class FencedUpgradeEngineeringStore {
    const lease: PostgresFencedRunLease

    constructor (lease: PostgresFencedRunLease)
      ensures this.lease == lease
    {
      this.lease := lease;
    }

    /** Nothing is stored without a lease, and nothing under a token that is no longer the newest. */
    method SaveTask(task: Task, reachable: bool) returns (r: Result<()>)
      requires lease.Valid()
      modifies lease.fence.table
      ensures r.Ok? <==>
        && lease.token.Some? && reachable
        && old(lease.fence.Current()).Ok?
        && Admits(old(lease.fence.Current()).value, lease.token.value.generation)
        && (task.id == lease.fence.controlId ==> ValidatedMarker(task.metadata, lease.fence.namespace).None?)
      ensures r.Ok? ==>
        lease.fence.table.rows == Upsert(old(lease.fence.table.rows), lease.fence.Written(task, lease.token.value))
      ensures r.Err? ==> lease.fence.table.rows == old(lease.fence.table.rows)
    {
      var token := lease.RequireToken();
      if token.Err? { return Err(token.error); }
      r := lease.fence.SaveTask(task, token.value, reachable);
    }

    method CreateAttempt() returns (r: Result<()>)
      ensures r.Err?
    {
      return Err(Invalid("fenced upgrade store does not permit attempt mutations"));
    }

    method SaveCheckpoint() returns (r: Result<()>)
      ensures r.Err?
    {
      return Err(Invalid("fenced upgrade store does not permit checkpoint-table mutations"));
    }
  }
}
