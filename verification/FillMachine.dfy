/** process_count_stat as a state machine with one step for each autocommitted write. A run can
    be cut off between any two writes, and logging and other traffic can come between them. */
module FillMachine {
  import opened TimeGrid
  import opened CountStats
  import opened CountTables
  import opened SourceData
  import opened Queries

  datatype Phase = Started | Done

  datatype FillState = FillState(endTime: int, phase: Phase)

  type Fills = map<CountStat, FillState>

  datatype Db = Db(fills: Fills, user: seq<Row>, stream: seq<Row>, realm: seq<Row>, installation: seq<Row>) {
    function Table(k: TableName): seq<Row> {
      match k
      case UserTable => user
      case StreamTable => stream
      case RealmTable => realm
      case InstallationTable => installation
    }

    function With(k: TableName, rows: seq<Row>): (db: Db)
      ensures db.fills == fills
      ensures forall j :: db.Table(j) == if j == k then rows else Table(j)
    {
      match k
      case UserTable => this.(user := rows)
      case StreamTable => this.(stream := rows)
      case RealmTable => this.(realm := rows)
      case InstallationTable => this.(installation := rows)
    }

    function SetFill(stat: CountStat, endTime: int, phase: Phase): Db {
      this.(fills := fills[stat := FillState(endTime, phase)])
    }
  }

  /** The next write of a run. */
  datatype Point =
    | Create                // insert the FillState row
    | Undo(deleted: nat)    // delete from UndoTables()[deleted]
    | Reset                 // step the FillState back and mark it DONE
    | Mark                  // mark the next end_time STARTED
    | Pulling
    | RollRealm
    | RollInstallation
    | Finish                // mark the end_time DONE

  datatype Job = Idle | Busy(stat: CountStat, fillTo: int, time: int, point: Point)

  datatype State = State(src: Source, db: Db, job: Job)

  function Epoch(src: Source): int { InstallationEpoch(src.realms) }

  /** analytics/models.py: one hour is subtracted whatever the stat's frequency is. */
  function LastSuccessfulFill(fills: Fills, stat: CountStat): Option<int> {
    if stat !in fills then None
    else if fills[stat].phase.Done? then Some(fills[stat].endTime)
    else Some(fills[stat].endTime - HOUR)
  }

  function EffectiveTarget(fills: Fills, dependencies: seq<CountStat>, fillTo: int): Option<int> {
    if dependencies == [] then Some(fillTo)
    else
      match LastSuccessfulFill(fills, dependencies[0])
      case None => None
      case Some(filled) => EffectiveTarget(fills, dependencies[1..], Min(fillTo, filled))
  }

  /** The loop test. */
  function Loop(stat: CountStat, target: int, time: int): Job {
    if time <= target then Busy(stat, target, time, Mark) else Idle
  }

  /** From the dependency check to the first loop test. */
  function Enter(fills: Fills, stat: CountStat, fillTo: int, filled: int): Job {
    match EffectiveTarget(fills, stat.Dependencies(), fillTo)
    case None => Idle
    case Some(target) => Loop(stat, target, filled + stat.Step())
  }

  /** The call itself; a fillTo off the hour grid is a ValueError, which writes nothing. */
  function Begin(src: Source, db: Db, stat: CountStat, fillTo: int): Job {
    if !OnGrid(fillTo, Hour) then Idle
    else if stat !in db.fills then Busy(stat, fillTo, Epoch(src), Create)
    else if db.fills[stat].phase.Started? then Busy(stat, fillTo, db.fills[stat].endTime, Undo(0))
    else Enter(db.fills, stat, fillTo, db.fills[stat].endTime)
  }

  function SummaryPoint(stat: CountStat): Point {
    if stat.Output() != RealmTable then RollRealm else RollInstallation
  }

  function FirstPoint(stat: CountStat): Point { if stat.Logging? then SummaryPoint(stat) else Pulling }

  function Write(s: State): State
    requires s.job.Busy?
  {
    var Busy(stat, fillTo, time, point) := s.job;
    match point
    case Create =>
      var db := s.db.SetFill(stat, time, Done);
      State(s.src, db, Enter(db.fills, stat, fillTo, time))
    case Undo(n) =>
      if n < |stat.UndoTables()| then
        var k := stat.UndoTables()[n];
        State(s.src, s.db.With(k, Without(s.db.Table(k), stat, time)),
              s.job.(point := if n + 1 < |stat.UndoTables()| then Undo(n + 1) else Reset))
      else s
    case Reset =>
      var db := s.db.SetFill(stat, time - stat.Step(), Done);
      State(s.src, db, Enter(db.fills, stat, fillTo, time - stat.Step()))
    case Mark =>
      State(s.src, s.db.SetFill(stat, time, Started), s.job.(point := FirstPoint(stat)))
    case Pulling =>
      if stat.Logging? then s
      else
        var rows := Pull(stat, s.src, s.db.user, time - stat.Interval(), time);
        State(s.src, s.db.With(stat.Output(), s.db.Table(stat.Output()) + rows), s.job.(point := SummaryPoint(stat)))
    case RollRealm =>
      var rows := RealmRollup(s.src.realms, s.db.Table(stat.Output()), stat, time);
      State(s.src, s.db.With(RealmTable, s.db.realm + rows), s.job.(point := RollInstallation))
    case RollInstallation =>
      var rows := InstallationRollup(s.db.realm, stat, time);
      State(s.src, s.db.With(InstallationTable, s.db.installation + rows), s.job.(point := Finish))
    case Finish =>
      State(s.src, s.db.SetFill(stat, time, Done), Loop(stat, fillTo, time + stat.Step()))
  }

  // ----- histories

  /** Call: a run begins (the lock directory admits one at a time). Step: it makes its next write.
      Crash: it dies. Log: an increment arrives. Grow: the other tables change. */
  datatype Event = Call(stat: CountStat, fillTo: int) | Step | Crash | Log(increment: Increment) | Grow(src: Source)

  predicate Fits(i: Increment) {
    i.stat.Logging?
    && match i.stat.level
       case PerUser => i.slot.key.UserKey?
       case PerStream => i.slot.key.StreamKey?
       case PerRealm => i.slot.key.RealmKey?
  }

  function Apply(s: State, e: Event): State {
    match e
    case Call(stat, fillTo) => if s.job.Idle? then s.(job := Begin(s.src, s.db, stat, fillTo)) else s
    case Step => if s.job.Busy? then Write(s) else s
    case Crash => s.(job := Idle)
    case Log(i) =>
      if Fits(i) then
        var k := i.stat.Output();
        State(s.src.(increments := s.src.increments + [i]),
              s.db.With(k, IncrementRow(s.db.Table(k), i.stat, i.slot, i.EndTime(), i.amount)), s.job)
      else s
    case Grow(src) => s.(src := src.(increments := s.src.increments))
  }

  function Initial(src: Source): State {
    State(src.(increments := []), Db(map[], [], [], [], []), Idle)
  }

  function Reach(src: Source, es: seq<Event>): State {
    if es == [] then Initial(src) else Apply(Reach(src, es[..|es| - 1]), es[|es| - 1])
  }
}
