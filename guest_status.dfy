/** `GET /api/auth/guest-status` (src/app/api/auth/guest-status/route.ts): the quota a
    guest has left today, from the session's count and the per-IP count. */
module GuestStatus {
  import opened Util
  import opened GuestRateLimit

  /** The session fields the route reads. */
  datatype Session = Session(
    isAuthenticated: bool,
    isGuest: bool,
    guestExecutionCount: Option<nat>,
    guestExecutionDate: Option<string>)

  /** The JSON reply of the route. */
  datatype StatusReply =
    | StatusError(status: nat, error: string)
    | Unlimited
    | Quota(executionLimit: Limit, executionsUsed: nat, executionsRemaining: nat, limitReached: bool, resetsDaily: bool)

  /** `session.guestExecutionCount || 0`, reset to 0 unless it was recorded today. */
  function SessionCount(session: Session, today: string): (c: nat)
    ensures session.guestExecutionDate != Some(today) ==> c == 0
    ensures session.guestExecutionDate == Some(today) ==> c == session.guestExecutionCount.GetOr(0)
  {
    if session.guestExecutionDate != Some(today) then 0 else session.guestExecutionCount.GetOr(0)
  }

  /** The reply for a guest with the given session and IP counts. */
  function QuotaOf(sessionCount: nat, ipCount: nat, limit: Limit): (r: StatusReply)
    ensures r.Quota? && r.executionLimit == limit && r.resetsDaily
    ensures r.executionsUsed == Max(sessionCount, ipCount)
    ensures r.limitReached <==> IsGuestLimitExceeded(sessionCount, ipCount, limit)
    ensures r.executionsRemaining <= limit
    ensures !r.limitReached ==> r.executionsUsed + r.executionsRemaining == limit
  {
    var remaining := RemainingExecutions(sessionCount, ipCount, limit);
    Quota(limit, Max(sessionCount, ipCount), remaining, remaining == 0, true)
  }

  /** The route's reply. `session` is `None` when reading the session throws; `ipCount`
      is what `getIPExecutionCount` returned for the client's address. */
  function StatusOf(session: Option<Session>, ipCount: nat, today: string, limit: Limit): (r: StatusReply)
    ensures session.None? ==> r == StatusError(500, "Failed to get guest status")
    ensures session.Some? && !session.value.isAuthenticated ==> r == StatusError(401, "Not authenticated")
    ensures session.Some? && session.value.isAuthenticated && !session.value.isGuest ==> r == Unlimited
    ensures session.Some? && session.value.isAuthenticated && session.value.isGuest
      ==> r == QuotaOf(SessionCount(session.value, today), ipCount, limit)
  {
    match session
    case None => StatusError(500, "Failed to get guest status")
    case Some(s) =>
      if !s.isAuthenticated then StatusError(401, "Not authenticated")
      else if !s.isGuest then Unlimited
      else QuotaOf(SessionCount(s, today), ipCount, limit)
  }

  /** A session count from an earlier day is ignored: only the IP count decides. */
  lemma StaleSessionIgnored(session: Session, ipCount: nat, today: string, limit: Limit)
    requires session.isAuthenticated && session.isGuest && session.guestExecutionDate != Some(today)
    ensures StatusOf(Some(session), ipCount, today, limit) == QuotaOf(0, ipCount, limit)
    ensures StatusOf(Some(session), ipCount, today, limit).limitReached <==> ipCount >= limit
  {
  }

  /** The route as a whole: the per-IP read (which drops a stale record) and the reply. */
  method Get(store: IPStore, session: Option<Session>, headers: map<string, string>, today: string, limit: Limit)
    returns (r: StatusReply)
    modifies store
    ensures session.Some? && session.value.isAuthenticated && session.value.isGuest
      ==> (r == StatusOf(session, CountOf(old(store.records), ClientIP(headers), today), today, limit)
           && store.records == AfterCount(old(store.records), ClientIP(headers), today))
    ensures !(session.Some? && session.value.isAuthenticated && session.value.isGuest)
      ==> r == StatusOf(session, 0, today, limit) && store.records == old(store.records)
  {
    if session.None? {
      return StatusError(500, "Failed to get guest status");
    }
    var s := session.value;
    if !s.isAuthenticated {
      return StatusError(401, "Not authenticated");
    }
    if !s.isGuest {
      return Unlimited;
    }
    var clientIP := ClientIP(headers);
    var sessionCount := SessionCount(s, today);
    var ipCount := store.GetIPExecutionCount(clientIP, today);
    r := QuotaOf(sessionCount, ipCount, limit);
  }
}
