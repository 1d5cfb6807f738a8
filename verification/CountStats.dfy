/** The declared statistics (analytics/lib/counts.py, count_stats_). */
module CountStats {
  import opened TimeGrid

  datatype TableName = UserTable | StreamTable | RealmTable | InstallationTable

  /** The kind of object a logging stat counts for. */
  datatype Level = PerUser | PerStream | PerRealm

  datatype CountStat =
    | MessagesSentByIsBot      // messages_sent:is_bot:hour
    | MessagesSentByType       // messages_sent:message_type:day
    | MessagesSentByClient     // messages_sent:client:day
    | MessagesInStreamByIsBot  // messages_in_stream:is_bot:day
    | ActiveUsersAudit         // active_users_audit:is_bot:day
    | FifteenDayActives        // 15day_actives::day
    | MinutesActive            // minutes_active::day
    | RealmActiveHumans        // realm_active_humans::day
    | Logging(name: string, level: Level, period: Frequency)  // any LoggingCountStat
  {
    function Frequency(): Frequency {
      match this
      case MessagesSentByIsBot => Hour
      case Logging(_, _, period) => period
      case _ => Day
    }

    function Step(): int { Frequency().Step() }

    function Interval(): int {
      if FifteenDayActives? then 15 * DAY - MIN_INTERVAL_LENGTH else Step()
    }

    function Output(): TableName {
      match this
      case MessagesInStreamByIsBot => StreamTable
      case RealmActiveHumans => RealmTable
      case Logging(_, PerStream, _) => StreamTable
      case Logging(_, PerRealm, _) => RealmTable
      case _ => UserTable
    }

    function Dependencies(): seq<CountStat> {
      if RealmActiveHumans? then [ActiveUsersAudit, FifteenDayActives] else []
    }

    /** The tables do_delete_counts_at_hour deletes from, in its order. */
    function UndoTables(): seq<TableName> {
      if !Logging? then [UserTable, StreamTable, RealmTable, InstallationTable]
      else if Output() != RealmTable then [InstallationTable, RealmTable]
      else [InstallationTable]
    }
  }

  const MIN_INTERVAL_LENGTH := 15 * MINUTE

  const ACTIVE_USERS_LOG := Logging("active_users_log:is_bot:day", PerRealm, Day)
}
