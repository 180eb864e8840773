/** The records the pipeline reads and writes: users, activity-log entries,
    risk notes, and the wall-clock snapshot every decision is taken against. */
module Domain {
  import opened Basics
  import opened Text

  type UserId = string

  /** The role enumeration of the user schema. */
  datatype Role = Admin | Manager | Analyst | Intern

  /** Local hour of day, as `Date.getHours` reports it. */
  type Hour = h: int | 0 <= h < 24

  /** Local day of week, 0 = Sunday, as `Date.getDay` reports it. */
  type Weekday = d: int | 0 <= d < 7

  /** One activity-log entry. `timestamp` is in milliseconds; `hour` and
      `weekday` are its local-time breakdown. `riskScore` is the stored
      `additionalData.riskScore` (0 when absent) and `workHours` the stored
      `additionalData.workHours` flag (false when absent). */
  datatype LogEntry = LogEntry(
    userId: UserId,
    role: Role,
    action: string,
    ipAddress: string,
    timestamp: int,
    hour: Hour,
    weekday: Weekday,
    riskScore: real,
    workHours: bool)

  /** What a risk note (and a behaviour evaluation) decides. */
  datatype Action = Monitor | Block

  /** Why a note was written. `NoReason` is the empty reason string; the other
      cases carry the values the source formats into its reason text. */
  datatype NoteReason =
    | NoReason
    | DownloadLimitExceeded(current: nat, limit: nat)
    | WeeklyViolationLimit
    | RiskScoreAboveThreshold(score: real, role: Role)
    | HighRiskActivity(score: real)
    | AIHighRisk(score: real, analysis: string)
    | AIMediumRisk(score: real, analysis: string)

  /** A risk note as the services push it: a record, although the user schema
      declares the notes as strings. */
  datatype RiskNote = RiskNote(reason: NoteReason, timestamp: int, action: Action)

  datatype User = User(
    id: UserId,
    name: string,
    email: string,
    role: Role,
    isBlocked: bool,
    blockedAt: Option<int>,
    riskNotes: seq<RiskNote>)

  /** One reading of the clock: `now` in milliseconds, its local hour and
      weekday, the start of the local day, and the instant seven calendar
      days earlier. */
  datatype Clock = Clock(now: int, hour: Hour, weekday: Weekday, midnight: int, weekAgo: int)

  /** The entries of one user. */
  function UserP(id: UserId): LogEntry -> bool
  {
    (e: LogEntry) => e.userId == id
  }

  function UserLogs(logs: seq<LogEntry>, id: UserId): (r: seq<LogEntry>)
    ensures forall e :: e in r ==> e in logs && e.userId == id
  {
    Filter(logs, UserP(id))
  }

  /** The entry the request logger appends: the user's id and role, the
      action, the source address, the clock, and the given risk score;
      `workHours` is stored as false because no caller passes it. */
  function NewEntry(u: User, action: string, ip: string, c: Clock, riskScore: real): LogEntry
  {
    LogEntry(u.id, u.role, action, ip, c.now, c.hour, c.weekday, riskScore, false)
  }

  /** Outside 06:00-22:59: the scorer's late-hours window and the analyser's
      unusual-hours window. */
  predicate OffHours(hour: Hour)
  {
    hour < 6 || hour > 22
  }

  /** `action.toLowerCase().includes('download')`. */
  predicate MentionsDownload(action: string)
  {
    Contains(Lower(action), "download")
  }
}
