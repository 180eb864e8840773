/** The decision rules of the user endpoints: the download gate (blocked,
    then quota, then risk evaluation and consequences), the unblock effect
    with the Manager's team restriction, and what each role may see of the
    user list and of another user's log.

    The file binds `logActivity` to the logger module object rather than to
    the function it exports, so every call to it throws and the handler
    answers 500 from there on. The `...AsWritten` members model that; the
    rest of the model uses the evidently intended binding, under which a log
    write appends one entry. */
module UserRoutes {
  import opened Basics
  import opened Text
  import opened Domain
  import opened RiskEngine
  import opened BehaviorMonitor

  const OK: nat := 200
  const FORBIDDEN: nat := 403
  const NOT_FOUND: nat := 404
  const TOO_MANY_REQUESTS: nat := 429
  const SERVER_ERROR: nat := 500

  /** Analysts and Interns: a Manager's team. */
  predicate InTeam(role: Role)
  {
    role == Analyst || role == Intern
  }

  function TeamP(): User -> bool
  {
    (u: User) => InTeam(u.role)
  }

  /** `findById`: the first record with the id, if any. */
  function Lookup(store: seq<User>, id: UserId): (r: Option<User>)
    ensures r.Some? ==> r.value in store && r.value.id == id
    ensures r.None? <==> forall u :: u in store ==> u.id != id
  {
    if |store| == 0 then None
    else if store[0].id == id then Some(store[0])
    else Lookup(store[1..], id)
  }

  // ---------------------------------------------------------------------------
  // GET /download-files
  // ---------------------------------------------------------------------------

  const LIMIT_EXCEEDED_ACTION: string := "Download Limit Exceeded"
  const DOWNLOADED_ACTION: string := "Downloaded Files"
  const DOWNLOAD_REQUEST: string := "Download Files"
  /** The score the quota refusal is logged with. */
  const LIMIT_EXCEEDED_SCORE: real := 0.8

  datatype DownloadReply =
    | AlreadyBlocked(blockedAt: Option<int>, reasons: seq<RiskNote>)
    | LimitExceeded(current: nat, limit: nat)
    | BlockedNow(riskScore: int, reason: NoteReason, blockedAt: Option<int>)
    | Downloaded(riskScore: int, downloadCount: nat, limit: nat, workHours: bool)
    | DownloadFailed
  {
    function Status(): nat
    {
      match this
      case AlreadyBlocked(_, _) => FORBIDDEN
      case LimitExceeded(_, _) => TOO_MANY_REQUESTS
      case BlockedNow(_, _, _) => FORBIDDEN
      case Downloaded(_, _, _, _) => OK
      case DownloadFailed => SERVER_ERROR
    }
  }

  /** The answer, the log afterwards, the user record afterwards, and the
      admin alerts the behaviour evaluation sent. */
  datatype DownloadResult = DownloadResult(reply: DownloadReply, logs: seq<LogEntry>, user: User, alerts: seq<Alert>)

  /** The raw scorer result the handler evaluates the user with. */
  function RiskOf(u: User, logs: seq<LogEntry>, ip: string, c: Clock): Assessment
  {
    Evaluate(UserLogs(logs, u.id), ip, c.now, c.hour)
  }

  /** `GET /download-files` with the logger bound as intended. The gates run
      in order: an already-blocked user is refused before anything is
      counted or logged; an exhausted quota is refused with one logged entry
      at 0.8 and no evaluation; otherwise the download is logged with the
      raw score, the behaviour is evaluated on the log including it, the
      consequences are applied, and the user is refused if that blocked
      them. The raw score (0 to 34) is what the monitor compares with its
      thresholds, which are meant for [0, 1]. */
  function DownloadFiles(u: User, logs: seq<LogEntry>, ip: string, c: Clock): (r: DownloadResult)
    ensures u.isBlocked ==> r == DownloadResult(AlreadyBlocked(u.blockedAt, u.riskNotes), logs, u, [])
    ensures !u.isBlocked && CheckDownloadLimit(logs, u.id, u.role, c).exceeded ==>
              r.reply == LimitExceeded(CheckDownloadLimit(logs, u.id, u.role, c).current, DownloadLimit(u.role))
              && r.logs == logs + [NewEntry(u, LIMIT_EXCEEDED_ACTION, ip, c, LIMIT_EXCEEDED_SCORE)]
              && r.user == u && r.alerts == []
    ensures !u.isBlocked && !CheckDownloadLimit(logs, u.id, u.role, c).exceeded ==>
              var score := RiskOf(u, logs, ip, c).score;
              var ev := EvaluateBehavior(u, r.logs, DOWNLOAD_REQUEST, score as real, c);
              r.logs == logs + [NewEntry(u, DOWNLOADED_ACTION, ip, c, score as real)]
              && r.user == ApplyConsequences(u, ev.eval, c.now)
              && r.alerts == ev.alerts
              && (r.reply.BlockedNow? <==> ev.eval.shouldBlock)
              && (r.reply.Downloaded? <==> !ev.eval.shouldBlock)
    ensures r.reply.BlockedNow? ==> r.user.isBlocked && r.reply.blockedAt == Some(c.now)
    ensures r.reply.Downloaded? ==>
              r.reply.downloadCount == CheckDownloadLimit(logs, u.id, u.role, c).current + 1
              && r.reply.limit == CheckDownloadLimit(logs, u.id, u.role, c).limit
              && r.reply.workHours == IsWorkHours(c)
    ensures !r.reply.DownloadFailed?
  {
    if u.isBlocked then DownloadResult(AlreadyBlocked(u.blockedAt, u.riskNotes), logs, u, [])
    else
      var dc := CheckDownloadLimit(logs, u.id, u.role, c);
      if dc.exceeded then
        DownloadResult(LimitExceeded(dc.current, dc.limit),
                       logs + [NewEntry(u, LIMIT_EXCEEDED_ACTION, ip, c, LIMIT_EXCEEDED_SCORE)], u, [])
      else
        var risk := RiskOf(u, logs, ip, c);
        var logs' := logs + [NewEntry(u, DOWNLOADED_ACTION, ip, c, risk.score as real)];
        var ev := EvaluateBehavior(u, logs', DOWNLOAD_REQUEST, risk.score as real, c);
        var u' := ApplyConsequences(u, ev.eval, c.now);
        if ev.eval.shouldBlock then DownloadResult(BlockedNow(risk.score, ev.eval.reason, u'.blockedAt), logs', u', ev.alerts)
        else DownloadResult(Downloaded(risk.score, dc.current + 1, dc.limit, IsWorkHours(c)), logs', u', ev.alerts)
  }

  /** The handler as written: past the blocked check, the first log write
      throws, whether on the quota refusal or after the scoring, so the
      answer is 500 and neither the log nor the user changes. */
  function DownloadFilesAsWritten(u: User, logs: seq<LogEntry>, ip: string, c: Clock): (r: DownloadResult)
    ensures u.isBlocked ==> r == DownloadFiles(u, logs, ip, c)
    ensures !u.isBlocked ==> r == DownloadResult(DownloadFailed, logs, u, [])
  {
    if u.isBlocked then DownloadResult(AlreadyBlocked(u.blockedAt, u.riskNotes), logs, u, [])
    else DownloadResult(DownloadFailed, logs, u, [])
  }

  /** The discrepancy: for every user who is not blocked, the handler as
      written fails with 500 where the intended one answers 429, 403 or 200;
      no download ever succeeds and nothing is ever logged or blocked here. */
  lemma LoggerBindingBreaksDownloads(u: User, logs: seq<LogEntry>, ip: string, c: Clock)
    requires !u.isBlocked
    ensures DownloadFilesAsWritten(u, logs, ip, c).reply.Status() == SERVER_ERROR
    ensures DownloadFiles(u, logs, ip, c).reply.Status() in {TOO_MANY_REQUESTS, FORBIDDEN, OK}
  {
  }

  /** On success during work hours, the reported count is the day's
      downloads including this one, as the log now records them. */
  lemma DownloadCountIsLogged(u: User, logs: seq<LogEntry>, ip: string, c: Clock)
    requires c.midnight <= c.now && IsWorkHours(c)
    requires DownloadFiles(u, logs, ip, c).reply.Downloaded?
    ensures DownloadFiles(u, logs, ip, c).reply.downloadCount == TodayDownloads(DownloadFiles(u, logs, ip, c).logs, u.id, c)
  {
    var score := RiskOf(u, logs, ip, c).score as real;
    var e := NewEntry(u, DOWNLOADED_ACTION, ip, c, score);
    assert MentionsDownload(DOWNLOADED_ACTION) by { DownloadedMentionsDownload(); }
    QuotaMonotone(logs, e, u.id, u.role, c);
  }

  lemma DownloadedMentionsDownload()
    ensures MentionsDownload(DOWNLOADED_ACTION)
  {
    var l := Lower(DOWNLOADED_ACTION);
    assert l[0..8] == "download";
    ContainsAt(l, "download", 0);
  }

  /** The unit mismatch at work: a Manager or Analyst within quota whose raw
      score is 1 or more (a single heuristic, such as a new address, is
      enough) is blocked by the download itself, because the monitor's 0.8
      threshold is meant for scores in [0, 1]. */
  lemma RawScoreBlocksTeamLeads(u: User, logs: seq<LogEntry>, ip: string, c: Clock)
    requires !u.isBlocked && (u.role == Manager || u.role == Analyst)
    requires !CheckDownloadLimit(logs, u.id, u.role, c).exceeded
    requires RiskOf(u, logs, ip, c).score >= 1
    ensures DownloadFiles(u, logs, ip, c).reply.BlockedNow?
    ensures DownloadFiles(u, logs, ip, c).user.isBlocked
  {
  }

  /** Admins are never blocked by a download, whatever the score. */
  lemma DownloadNeverBlocksAdmin(u: User, logs: seq<LogEntry>, ip: string, c: Clock)
    requires u.role == Admin && !u.isBlocked
    ensures !DownloadFiles(u, logs, ip, c).reply.BlockedNow?
    ensures !DownloadFiles(u, logs, ip, c).user.isBlocked
  {
    if !CheckDownloadLimit(logs, u.id, u.role, c).exceeded {
      var score := RiskOf(u, logs, ip, c).score as real;
      var logs' := logs + [NewEntry(u, DOWNLOADED_ACTION, ip, c, score)];
      AdminNeverBlocked(u, logs', DOWNLOAD_REQUEST, score, c);
    }
  }

  // ---------------------------------------------------------------------------
  // POST /unblock/:userId
  // ---------------------------------------------------------------------------

  /** The unblocked record: flag cleared, time and notes erased. */
  function Cleared(u: User): (v: User)
    ensures v.id == u.id && v.name == u.name && v.email == u.email && v.role == u.role
    ensures !v.isBlocked && v.blockedAt.None? && v.riskNotes == []
  {
    u.(isBlocked := false, blockedAt := None, riskNotes := [])
  }

  /** The answer and the record saved, if any. */
  datatype UnblockResult = UnblockResult(status: nat, saved: Option<User>)

  /** `POST /unblock/:userId` (Admins and Managers only): an unknown id is
      404, a Manager may unblock only Analysts and Interns (403 otherwise),
      and anyone else allowed through is unblocked and saved. */
  function Unblock(actor: User, store: seq<User>, id: UserId): (r: UnblockResult)
    requires actor.role == Admin || actor.role == Manager
    ensures r.status == NOT_FOUND <==> Lookup(store, id).None?
    ensures r.status == FORBIDDEN <==>
              Lookup(store, id).Some? && actor.role == Manager && !InTeam(Lookup(store, id).value.role)
    ensures r.status == OK <==> r.saved.Some?
    ensures r.saved.Some? ==> r.saved.value == Cleared(Lookup(store, id).value)
    ensures actor.role == Admin && Lookup(store, id).Some? ==> r.status == OK
  {
    match Lookup(store, id)
    case None => UnblockResult(NOT_FOUND, None)
    case Some(t) =>
      if actor.role == Manager && !InTeam(t.role) then UnblockResult(FORBIDDEN, None)
      else UnblockResult(OK, Some(Cleared(t)))
  }

  /** Unblocking an unblocked record changes nothing: the record saved the
      second time is the one saved the first. */
  lemma UnblockIdempotent(actor: User, store: seq<User>, id: UserId)
    requires actor.role == Admin || actor.role == Manager
    requires Unblock(actor, store, id).saved.Some?
    ensures var v := Unblock(actor, store, id).saved.value;
            Unblock(actor, [v], id) == UnblockResult(OK, Some(v))
  {
  }

  /** The handler as written: the record is unblocked and saved before the
      log write, which throws, so the unblock takes effect while the answer
      is 500. */
  function UnblockAsWritten(actor: User, store: seq<User>, id: UserId): (r: UnblockResult)
    requires actor.role == Admin || actor.role == Manager
    ensures r.saved == Unblock(actor, store, id).saved
    ensures r.saved.Some? ==> r.status == SERVER_ERROR
    ensures r.saved.None? ==> r.status == Unblock(actor, store, id).status
  {
    var r := Unblock(actor, store, id);
    if r.saved.Some? then UnblockResult(SERVER_ERROR, r.saved) else r
  }

  /** The discrepancy: a permitted unblock reports failure although it took
      effect. */
  lemma LoggerBindingMisreportsUnblock(actor: User, store: seq<User>, id: UserId)
    requires actor.role == Admin && Lookup(store, id).Some?
    ensures UnblockAsWritten(actor, store, id).status == SERVER_ERROR
    ensures UnblockAsWritten(actor, store, id).saved.Some?
    ensures !UnblockAsWritten(actor, store, id).saved.value.isBlocked
  {
  }

  // ---------------------------------------------------------------------------
  // GET /all-users and GET /logs/:userId
  // ---------------------------------------------------------------------------

  /** A user as listed: the whole record, or the basic fields only. */
  datatype Listing =
    | Full(user: User)
    | Basic(id: UserId, name: string, email: string, role: Role, isBlocked: bool)

  function BasicOf(u: User): Listing
  {
    Basic(u.id, u.name, u.email, u.role, u.isBlocked)
  }

  function AllFull(us: seq<User>): (r: seq<Listing>)
    ensures |r| == |us| && forall i :: 0 <= i < |us| ==> r[i] == Full(us[i])
  {
    seq(|us|, i requires 0 <= i < |us| => Full(us[i]))
  }

  /** `GET /all-users`: an Admin sees every record whole, a Manager only the
      Analysts and Interns, whole, and an Analyst or Intern every user but
      only the basic fields, without notes or block time. */
  function AllUsers(actor: User, store: seq<User>): (r: seq<Listing>)
    ensures actor.role == Admin ==> |r| == |store| && forall i :: 0 <= i < |r| ==> r[i] == Full(store[i])
    ensures actor.role == Manager ==>
              |r| == Count(store, TeamP())
              && forall i :: 0 <= i < |r| ==> r[i].Full? && r[i].user in store && InTeam(r[i].user.role)
    ensures InTeam(actor.role) ==>
              |r| == |store| && forall i :: 0 <= i < |r| ==> r[i] == BasicOf(store[i])
  {
    match actor.role
    case Admin => AllFull(store)
    case Manager =>
      var team := Filter(store, TeamP());
      assert forall i :: 0 <= i < |team| ==> team[i] in team;
      AllFull(team)
    case _ => seq(|store|, i requires 0 <= i < |store| => BasicOf(store[i]))
  }

  /** The answer of `GET /all-users`: the list, or a 500. */
  datatype UsersReply = UsersOf(listing: seq<Listing>) | UsersFailed

  /** The handler as written: the list is fetched, then the log write
      throws, so every request the middleware admits answers 500. */
  function AllUsersAsWritten(actor: User, store: seq<User>): (r: UsersReply)
    ensures r.UsersFailed?
  {
    UsersFailed
  }

  /** The discrepancy: as written nobody gets the list, while the intended
      binding gives an Admin every record. */
  lemma LoggerBindingBreaksListing(actor: User, store: seq<User>)
    requires actor.role == Admin
    ensures AllUsersAsWritten(actor, store) == UsersFailed
    ensures |AllUsers(actor, store)| == |store|
  {
  }

  /** A Manager's list leaves out no team member: every Analyst and Intern
      of the store is in it. */
  lemma ManagerSeesWholeTeam(actor: User, store: seq<User>, u: User)
    requires actor.role == Manager && u in store && InTeam(u.role)
    ensures Full(u) in AllUsers(actor, store)
  {
    FilterComplete(store, TeamP(), u);
    var f := Filter(store, TeamP());
    var k :| 0 <= k < |f| && f[k] == u;
    assert AllUsers(actor, store)[k] == Full(u);
  }

  lemma {:induction false} FilterComplete<T>(s: seq<T>, p: T -> bool, x: T)
    requires x in s && p(x)
    ensures x in Filter(s, p)
    decreases |s|
  {
    if s[|s| - 1] != x {
      assert x in s[..|s| - 1] by {
        var k :| 0 <= k < |s| && s[k] == x;
        assert s[..|s| - 1][k] == x;
      }
      FilterComplete(s[..|s| - 1], p, x);
    }
  }

  datatype LogsReply = LogsForbidden(message: string) | LogsOf(entries: seq<LogEntry>) | LogsFailed

  const TEAM_ONLY: string := "You can only view logs of your team members"
  const OWN_ONLY: string := "You can only view your own logs"

  /** `GET /logs/:userId`: an Admin sees anyone's log; a Manager sees the
      log of an existing Analyst or Intern (403 otherwise, an unknown id
      included); an Analyst or Intern sees only their own. */
  function ViewLogs(actor: User, store: seq<User>, logs: seq<LogEntry>, id: UserId): (r: LogsReply)
    ensures !r.LogsFailed?
    ensures r.LogsOf? ==> r.entries == UserLogs(logs, id)
    ensures actor.role == Admin ==> r.LogsOf?
    ensures actor.role == Manager ==>
              (r.LogsOf? <==> Lookup(store, id).Some? && InTeam(Lookup(store, id).value.role))
    ensures actor.role == Manager && r.LogsForbidden? ==> r.message == TEAM_ONLY
    ensures InTeam(actor.role) ==> (r.LogsOf? <==> id == actor.id)
    ensures InTeam(actor.role) && r.LogsForbidden? ==> r.message == OWN_ONLY
  {
    match actor.role
    case Admin => LogsOf(UserLogs(logs, id))
    case Manager =>
      var t := Lookup(store, id);
      if t.None? || !InTeam(t.value.role) then LogsForbidden(TEAM_ONLY) else LogsOf(UserLogs(logs, id))
    case _ =>
      if id != actor.id then LogsForbidden(OWN_ONLY) else LogsOf(UserLogs(logs, id))
  }

  /** Whoever sees a log other than their own is an Admin, or a Manager
      looking at a team member. */
  lemma LogVisibility(actor: User, store: seq<User>, logs: seq<LogEntry>, id: UserId)
    requires ViewLogs(actor, store, logs, id).LogsOf? && id != actor.id
    ensures actor.role == Admin
            || (actor.role == Manager && exists t :: t in store && t.id == id && InTeam(t.role))
  {
    if actor.role == Manager {
      var t := Lookup(store, id).value;
      assert t in store && t.id == id && InTeam(t.role);
    }
  }

  /** The handler as written: the two refusals come before the log write
      and stand; every permitted view reaches the log write, which throws,
      so it answers 500. */
  function ViewLogsAsWritten(actor: User, store: seq<User>, logs: seq<LogEntry>, id: UserId): (r: LogsReply)
    ensures r.LogsForbidden? <==> ViewLogs(actor, store, logs, id).LogsForbidden?
    ensures r.LogsForbidden? ==> r == ViewLogs(actor, store, logs, id)
    ensures !r.LogsOf?
  {
    var v := ViewLogs(actor, store, logs, id);
    if v.LogsForbidden? then v else LogsFailed
  }

  /** The discrepancy: as written an Admin, Analyst or Intern cannot see
      even their own log, which the intended binding shows them. */
  lemma LoggerBindingHidesLogs(actor: User, store: seq<User>, logs: seq<LogEntry>)
    requires actor.role != Manager
    ensures ViewLogsAsWritten(actor, store, logs, actor.id) == LogsFailed
    ensures ViewLogs(actor, store, logs, actor.id) == LogsOf(UserLogs(logs, actor.id))
  {
  }
}
