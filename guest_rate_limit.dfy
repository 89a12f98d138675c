/** The in-memory guest quota of src/lib/guest-rate-limit.ts: the configured daily limit,
    the per-IP record table with its day-based reset, the client-IP extraction and the
    limit arithmetic. Dates are the `YYYY-MM-DD` strings the caller passes in. */
module GuestRateLimit {
  import opened Util

  /** A limit that `getGuestExecutionLimit` can return. */
  type Limit = l: int | l > 0 witness 20

  const DEFAULT_LIMIT: Limit := 20

  predicate IsDigit(c: char) {
    '0' <= c <= '9'
  }

  function DigitValue(c: char): nat
    requires IsDigit(c)
  {
    (c as int) - ('0' as int)
  }

  /** The length of the run of decimal digits at the start of `s`. */
  function DigitRun(s: string): (n: nat)
    ensures n <= |s|
    ensures forall i :: 0 <= i < n ==> IsDigit(s[i])
    ensures n < |s| ==> !IsDigit(s[n])
  {
    if |s| > 0 && IsDigit(s[0]) then 1 + DigitRun(s[1..]) else 0
  }

  /** The value of a string of decimal digits. */
  function DigitsValue(s: string): nat
    requires forall i :: 0 <= i < |s| ==> IsDigit(s[i])
  {
    if |s| == 0 then 0 else DigitsValue(s[..|s| - 1]) * 10 + DigitValue(s[|s| - 1])
  }

  /** `parseInt(s, 10)`: leading whitespace is skipped, an optional sign is read, then the
      longest run of digits; with no digit the result is `NaN`, here `None`. */
  function ParseInt(s: string): (r: Option<int>)
    ensures r.Some? ==> exists i :: 0 <= i < |s| && IsDigit(s[i])
  {
    var t := TrimStart(s);
    var neg := |t| > 0 && t[0] == '-';
    var u := if |t| > 0 && (t[0] == '-' || t[0] == '+') then t[1..] else t;
    var n := DigitRun(u);
    if n == 0 then None
    else
      assert IsDigit(s[|s| - |u|]);
      var v: int := DigitsValue(u[..n]);
      Some(if neg then -v else v)
  }

  /** Decimal rendering and `parseInt` are inverse: every count rendered in decimal
      parses back to itself. */
  lemma ParseIntOfDecimal(n: nat)
    ensures ParseInt(NatToString(n)) == Some(n)
  {
    var s := NatToString(n);
    assert !IsWhitespace(s[0]);
    assert TrimStart(s) == s;
    DigitRunAll(s);
    assert s[..|s|] == s;
    DecimalValue(n);
  }

  lemma {:induction false} DigitRunAll(s: string)
    requires forall i :: 0 <= i < |s| ==> IsDigit(s[i])
    ensures DigitRun(s) == |s|
  {
    if |s| > 0 {
      DigitRunAll(s[1..]);
    }
  }

  lemma {:induction false} DecimalValue(n: nat)
    ensures DigitsValue(NatToString(n)) == n
  {
    if n >= 10 {
      DecimalValue(n / 10);
      var s := NatToString(n);
      assert s[..|s| - 1] == NatToString(n / 10);
    }
  }

  /** `getGuestExecutionLimit()`; `env` is `GUEST_DAILY_EXECUTION_LIMIT`. */
  function GuestExecutionLimit(env: Option<string>): (l: Limit)
    ensures env.None? || env.value == "" ==> l == DEFAULT_LIMIT
    ensures env.Some? && env.value != "" && ParseInt(env.value).Some? && ParseInt(env.value).value > 0
      ==> l == ParseInt(env.value).value
    ensures env.Some? && env.value != "" && (ParseInt(env.value).None? || ParseInt(env.value).value <= 0)
      ==> l == DEFAULT_LIMIT
  {
    if env.Some? && env.value != "" then
      var parsed := ParseInt(env.value);
      if parsed.Some? && parsed.value > 0 then parsed.value else DEFAULT_LIMIT
    else DEFAULT_LIMIT
  }

  /** A positive limit written in decimal is taken as configured. */
  lemma ConfiguredLimit(n: nat)
    requires n > 0
    ensures GuestExecutionLimit(Some(NatToString(n))) == n
  {
    ParseIntOfDecimal(n);
  }

  /** `isGuestLimitExceeded(sessionCount, ipCount)` */
  predicate IsGuestLimitExceeded(sessionCount: nat, ipCount: nat, limit: Limit) {
    sessionCount >= limit || ipCount >= limit
  }

  /** `getRemainingExecutions(sessionCount, ipCount)` */
  function RemainingExecutions(sessionCount: nat, ipCount: nat, limit: Limit): (r: nat)
    ensures r <= limit
    ensures r == 0 <==> IsGuestLimitExceeded(sessionCount, ipCount, limit)
    ensures !IsGuestLimitExceeded(sessionCount, ipCount, limit) ==> r + Max(sessionCount, ipCount) == limit
  {
    Max(0, limit - Max(sessionCount, ipCount))
  }

  /** `s.split(sep)[0]`: everything before the first separator. */
  function FirstField(s: string, sep: char): (r: string)
    ensures sep !in r
    ensures |r| <= |s| && r == s[..|r|]
    ensures |r| < |s| ==> s[|r|] == sep
  {
    if |s| == 0 || s[0] == sep then "" else [s[0]] + FirstField(s[1..], sep)
  }

  /** `getClientIP(request)`; `headers` maps header names to values. */
  function ClientIP(headers: map<string, string>): (ip: string)
    ensures "x-forwarded-for" in headers && headers["x-forwarded-for"] != ""
      ==> ip == Trim(FirstField(headers["x-forwarded-for"], ','))
    ensures !("x-forwarded-for" in headers && headers["x-forwarded-for"] != "")
      && "x-real-ip" in headers && headers["x-real-ip"] != ""
      ==> ip == Trim(headers["x-real-ip"])
    ensures !("x-forwarded-for" in headers && headers["x-forwarded-for"] != "")
      && !("x-real-ip" in headers && headers["x-real-ip"] != "")
      ==> ip == if "x-client-ip" in headers && headers["x-client-ip"] != "" then headers["x-client-ip"] else "unknown"
  {
    if "x-forwarded-for" in headers && headers["x-forwarded-for"] != "" then
      Trim(FirstField(headers["x-forwarded-for"], ','))
    else if "x-real-ip" in headers && headers["x-real-ip"] != "" then
      Trim(headers["x-real-ip"])
    else if "x-client-ip" in headers && headers["x-client-ip"] != "" then
      headers["x-client-ip"]
    else "unknown"
  }

  /** The forwarded-for branch never yields an address containing a comma or surrounded
      by whitespace. */
  lemma ForwardedIPShape(headers: map<string, string>)
    requires "x-forwarded-for" in headers && headers["x-forwarded-for"] != ""
    ensures ',' !in ClientIP(headers)
    ensures ClientIP(headers) == "" || (!IsWhitespace(ClientIP(headers)[0]) && !IsWhitespace(ClientIP(headers)[|ClientIP(headers)| - 1]))
  {
    var f := FirstField(headers["x-forwarded-for"], ',');
    var ts := TrimStart(f);
    assert ts == f[|f| - |ts|..];
    var r := TrimEnd(ts);
    assert r == ts[..|r|];
    if r != "" {
      TrimEndKeepsStartShape(ts);
    }
  }

  /** Trimming the end keeps a non-whitespace first character. */
  lemma TrimEndKeepsStartShape(t: string)
    requires TrimEnd(t) != "" && (t == "" || !IsWhitespace(t[0]))
    ensures !IsWhitespace(TrimEnd(t)[0])
  {
    assert TrimEnd(t)[0] == t[0];
  }

  /** `IPRecord` */
  datatype IPRecord = IPRecord(count: nat, date: string)

  /** The store after `cleanupOldEntries`: exactly today's records, untouched. */
  function Cleaned(store: map<string, IPRecord>, today: string): (r: map<string, IPRecord>)
    ensures forall ip :: ip in r <==> ip in store && store[ip].date == today
    ensures forall ip :: ip in r ==> r[ip] == store[ip]
  {
    map ip | ip in store && store[ip].date == today :: store[ip]
  }

  /** The count `getIPExecutionCount` returns, and whether it deletes a stale record. */
  function CountOf(store: map<string, IPRecord>, ip: string, today: string): (c: nat)
    ensures ip !in store ==> c == 0
    ensures ip in store && store[ip].date != today ==> c == 0
    ensures ip in store && store[ip].date == today ==> c == store[ip].count
  {
    if ip !in store || store[ip].date != today then 0 else store[ip].count
  }

  /** The store after `getIPExecutionCount(ip)`: a record from another day is deleted. */
  function AfterCount(store: map<string, IPRecord>, ip: string, today: string): (r: map<string, IPRecord>)
    ensures ip in store && store[ip].date != today ==> r == store - {ip}
    ensures !(ip in store && store[ip].date != today) ==> r == store
  {
    if ip in store && store[ip].date != today then store - {ip} else store
  }

  /** The store after `incrementIPExecutionCount(ip)`, and the count it returns. */
  function AfterIncrement(store: map<string, IPRecord>, ip: string, today: string): (r: (map<string, IPRecord>, nat))
    ensures ip in r.0 && r.0[ip] == IPRecord(r.1, today) && r.1 >= 1
    ensures r.1 == CountOf(store, ip, today) + 1
    ensures forall other :: other != ip ==> (other in r.0 <==> other in store) && (other in store ==> r.0[other] == store[other])
  {
    if ip in store && store[ip].date == today then
      var c := store[ip].count + 1;
      (store[ip := IPRecord(c, today)], c)
    else (store[ip := IPRecord(1, today)], 1)
  }

  /** n increments on one day raise that day's count by exactly n; a record from an
      earlier day counts as 0. */
  lemma {:induction false} IncrementsAccumulate(store: map<string, IPRecord>, ip: string, today: string, n: nat)
    ensures CountOf(IncrementTimes(store, ip, today, n), ip, today) == CountOf(store, ip, today) + n
  {
    if n > 0 {
      IncrementsAccumulate(store, ip, today, n - 1);
    }
  }

  /** The store after n calls of `incrementIPExecutionCount(ip)` on one day. */
  function IncrementTimes(store: map<string, IPRecord>, ip: string, today: string, n: nat): map<string, IPRecord> {
    if n == 0 then store else AfterIncrement(IncrementTimes(store, ip, today, n - 1), ip, today).0
  }

  /** Reading a count never changes what a later read on the same day returns. */
  lemma CountIsStable(store: map<string, IPRecord>, ip: string, other: string, today: string)
    ensures CountOf(AfterCount(store, ip, today), other, today) == CountOf(store, other, today)
  {
  }

  /** `ipStore` with its three mutating operations. */
  class IPStore {
    var records: map<string, IPRecord>

    constructor ()
      ensures records == map[]
    {
      records := map[];
    }

    /** `getIPExecutionCount(ip)` */
    method GetIPExecutionCount(ip: string, today: string) returns (c: nat)
      modifies this
      ensures c == CountOf(old(records), ip, today)
      ensures records == AfterCount(old(records), ip, today)
    {
      if ip !in records {
        return 0;
      }
      var record := records[ip];
      if record.date != today {
        records := records - {ip};
        return 0;
      }
      c := record.count;
    }

    /** `incrementIPExecutionCount(ip)` */
    method IncrementIPExecutionCount(ip: string, today: string) returns (c: nat)
      modifies this
      ensures (records, c) == AfterIncrement(old(records), ip, today)
    {
      if ip in records && records[ip].date == today {
        var existing := records[ip];
        c := existing.count + 1;
        records := records[ip := existing.(count := c)];
        return;
      }
      records := records[ip := IPRecord(1, today)];
      c := 1;
    }

    /** `cleanupOldEntries()`: the loop over the records deletes those of other days. */
    method CleanupOldEntries(today: string)
      modifies this
      ensures records == Cleaned(old(records), today)
    {
      var pending := records.Keys;
      ghost var start := records;
      while pending != {}
        invariant pending <= start.Keys
        invariant forall ip :: ip in records <==> ip in start && (ip in pending || start[ip].date == today)
        invariant forall ip :: ip in records ==> records[ip] == start[ip]
        decreases |pending|
      {
        var ip :| ip in pending;
        if records[ip].date != today {
          records := records - {ip};
        }
        pending := pending - {ip};
      }
      assert records == Cleaned(start, today);
    }
  }
}
