/** The request gate in front of the API routes: the session-cookie check
    (server.js:82-93), the client fingerprint (server.js:76-80), and the daily
    per-fingerprint request counter kept in one usage file per day
    (server.js:96-153). The file for the current day is the state of a
    `UsageStore`; reading and writing it are its methods, with the outcome of
    the write passed in. */
module RateLimit {
  import opened Wrappers
  import opened Text

  // ---------------------------------------------------------------------------
  // Session check
  // ---------------------------------------------------------------------------

  datatype AuthOutcome = Proceed | Unauthorized

  /** Paths whose unauthenticated requests are answered with 401 instead of
      being passed on to the page routes. */
  predicate IsApiPath(path: string) {
    StartsWith(path, "/search") || StartsWith(path, "/process-and-summarize") || StartsWith(path, "/api/")
  }

  /** `sessionToken && sessionToken === SESSION_SECRET`. */
  predicate HasSession(token: Option<string>, secret: string) {
    Filled(token) && token.value == secret
  }

  function CheckAuthentication(token: Option<string>, secret: string, path: string): AuthOutcome {
    if HasSession(token, secret) then Proceed
    else if IsApiPath(path) then Unauthorized
    else Proceed
  }

  /** The server refuses to start without a secret, so with a (non-empty)
      secret a request is refused exactly when it lacks the secret as its
      cookie and targets one of the API prefixes. */
  lemma AuthenticationRefuses(token: Option<string>, secret: string, path: string)
    requires secret != []
    ensures CheckAuthentication(token, secret, path) == Unauthorized
        <==> token != Some(secret) && IsApiPath(path)
  {
  }

  // ---------------------------------------------------------------------------
  // Fingerprint
  // ---------------------------------------------------------------------------

  /** `a || b || ... || fallback` over optional strings. */
  function FirstFilled(candidates: seq<Option<string>>, fallback: string): (r: string)
    ensures r == fallback || exists i :: 0 <= i < |candidates| && candidates[i] == Some(r)
    ensures (forall i :: 0 <= i < |candidates| ==> !Filled(candidates[i])) ==> r == fallback
    ensures forall i :: (0 <= i < |candidates| && Filled(candidates[i])
              && (forall j :: 0 <= j < i ==> !Filled(candidates[j]))) ==> r == candidates[i].value
  {
    if candidates == [] then fallback
    else if Filled(candidates[0]) then candidates[0].value
    else
      var r := FirstFilled(candidates[1..], fallback);
      assert forall i :: 0 < i < |candidates| ==> candidates[i] == candidates[1..][i - 1];
      r
  }

  /** `${ip}_${userAgent.substring(0, 50)}`, the address taken from the first
      of the request's address sources that has one. */
  function Fingerprint(reqIp: Option<string>, connectionAddress: Option<string>,
                       socketAddress: Option<string>, userAgent: Option<string>): string
  {
    var ip := FirstFilled([reqIp, connectionAddress, socketAddress], "unknown");
    var ua := FirstFilled([userAgent], "unknown");
    ip + "_" + ua[..if |ua| < 50 then |ua| else 50]
  }

  /** Addresses never hold '_', so the fingerprint determines the address and
      the first 50 characters of the user agent, and nothing more: user agents
      that differ only after their 50th character share a counter. */
  lemma {:induction false} FingerprintDetermines(ip1: string, ua1: string, ip2: string, ua2: string)
    requires ip1 != [] && ua1 != [] && ip2 != [] && ua2 != []
    requires '_' !in ip1 && '_' !in ip2
    ensures Fingerprint(Some(ip1), None, None, Some(ua1)) == Fingerprint(Some(ip2), None, None, Some(ua2))
        <==> ip1 == ip2 && ua1[..Min(|ua1|, 50)] == ua2[..Min(|ua2|, 50)]
  {
    var f1 := Fingerprint(Some(ip1), None, None, Some(ua1));
    var f2 := Fingerprint(Some(ip2), None, None, Some(ua2));
    assert f1 == ip1 + "_" + ua1[..Min(|ua1|, 50)];
    assert f2 == ip2 + "_" + ua2[..Min(|ua2|, 50)];
    if f1 == f2 {
      SplitAtFirst(ip1, ua1[..Min(|ua1|, 50)], ip2, ua2[..Min(|ua2|, 50)]);
    }
  }

  function Min(a: int, b: int): int { if a < b then a else b }

  lemma SplitAtFirst(a1: string, b1: string, a2: string, b2: string)
    requires '_' !in a1 && '_' !in a2
    requires a1 + "_" + b1 == a2 + "_" + b2
    ensures a1 == a2 && b1 == b2
  {
    var s := a1 + "_" + b1;
    assert s[..|a1|] == a1 && s[|a1|] == '_';
    assert s[..|a2|] == a2 && s[|a2|] == '_';
    IndexOfCharIs(s, '_', |a1|);
    IndexOfCharIs(s, '_', |a2|);
    assert s[|a1| + 1..] == b1;
  }

  // ---------------------------------------------------------------------------
  // The usage file of the day
  // ---------------------------------------------------------------------------

  /** The day's usage file: not yet created, present but unreadable (an I/O
      error or text `JSON.parse` rejects), or a map from fingerprint to count. */
  datatype UsageFile = Missing | Unreadable | Entries(counts: map<string, nat>)

  /** `getUsageData(fp).count`: 0 when the file is missing or unreadable or
      has no entry for `fp`. */
  function StoredCount(file: UsageFile, fp: string): (n: nat)
    ensures file.Entries? && fp in file.counts ==> n == file.counts[fp]
    ensures !(file.Entries? && fp in file.counts) ==> n == 0
  {
    if file.Entries? && fp in file.counts then file.counts[fp] else 0
  }

  /** The map `updateUsageData` starts from: the stored entries, or an empty map
      when the file cannot be read, so that an unreadable file is replaced. */
  function BaseEntries(file: UsageFile): map<string, nat> {
    if file.Entries? then file.counts else map[]
  }

  /** No stored count is above the limit. */
  predicate UnderCeiling(file: UsageFile, limit: int) {
    file.Entries? ==> forall k :: k in file.counts ==> file.counts[k] <= limit
  }

  datatype Decision =
    | Admitted(currentUsage: nat)
    | Limited(error: string, currentUsage: nat, limit: int)

  function LimitMessage(limit: int): string {
    "Daily request limit (" + IntToString(limit) + ") reached. Please try again tomorrow."
  }

  /** One pass through `rateLimitMiddleware` with the day's file `file`; the
      write of the incremented count succeeds when `writeOk`. */
  function Gate(file: UsageFile, fp: string, limit: int, writeOk: bool): (res: (Decision, UsageFile))
    ensures StoredCount(file, fp) >= limit ==>
      res == (Limited(LimitMessage(limit), StoredCount(file, fp), limit), file)
    ensures StoredCount(file, fp) < limit ==> res.0 == Admitted(StoredCount(file, fp) + 1)
    ensures StoredCount(file, fp) < limit && writeOk ==> StoredCount(res.1, fp) == StoredCount(file, fp) + 1
    ensures !writeOk ==> res.1 == file
  {
    var count := StoredCount(file, fp);
    if count >= limit then (Limited(LimitMessage(limit), count, limit), file)
    else if writeOk then (Admitted(count + 1), Entries(BaseEntries(file)[fp := count + 1]))
    else (Admitted(count + 1), file)
  }

  /** A pass changes the stored entries at most at the requesting fingerprint. */
  lemma GateChangesOneKey(m: map<string, nat>, fp: string, limit: int, writeOk: bool)
    ensures var after := Gate(Entries(m), fp, limit, writeOk).1;
      after.Entries? && (forall k :: k != fp ==> (k in after.counts <==> k in m))
      && (forall k :: k != fp && k in m ==> after.counts[k] == m[k])
  {
  }

  /** No pass takes a stored count above the limit. */
  lemma GateKeepsCeiling(file: UsageFile, fp: string, limit: int, writeOk: bool)
    requires UnderCeiling(file, limit)
    ensures UnderCeiling(Gate(file, fp, limit, writeOk).1, limit)
  {
  }

  /** `n` requests in a row from one fingerprint, every write succeeding. */
  function Requests(file: UsageFile, fp: string, limit: int, n: nat): (ds: seq<Decision>)
    ensures |ds| == n
    decreases n
  {
    if n == 0 then []
    else
      var (d, next) := Gate(file, fp, limit, true);
      [d] + Requests(next, fp, limit, n - 1)
  }

  /** The daily ceiling: starting from `c` stored requests, the requests are
      admitted, with counts `c + 1`, `c + 2`, ..., until the count reaches the
      limit, and every later one is refused with `currentUsage` equal to the
      limit. */
  lemma {:induction false} RequestsUpToLimit(file: UsageFile, fp: string, limit: int, n: nat, i: nat)
    requires StoredCount(file, fp) <= limit
    requires i < n
    ensures Requests(file, fp, limit, n)[i] ==
      if StoredCount(file, fp) + i < limit then Admitted(StoredCount(file, fp) + i + 1)
      else Limited(LimitMessage(limit), limit, limit)
    decreases n
  {
    var (d, next) := Gate(file, fp, limit, true);
    if i > 0 {
      RequestsUpToLimit(next, fp, limit, n - 1, i - 1);
    }
  }

  /** A file already at or above the limit, as one written under a higher
      `DAILY_REQUEST_LIMIT` earlier the same day, refuses every request and
      keeps reporting the stored count. */
  lemma {:induction false} OverLimitRefused(file: UsageFile, fp: string, limit: int, n: nat, i: nat)
    requires StoredCount(file, fp) >= limit
    requires i < n
    ensures Requests(file, fp, limit, n)[i] == Limited(LimitMessage(limit), StoredCount(file, fp), limit)
    decreases n
  {
    if i > 0 {
      OverLimitRefused(file, fp, limit, n - 1, i - 1);
    }
  }

  /** The state the middleware keeps: the current day's usage file. */
  class UsageStore {
    var file: UsageFile
    const limit: int

    ghost predicate Valid()
      reads this
    {
      UnderCeiling(file, limit)
    }

    /** The store over the day's file as the server finds it on disk, which
        may hold counts from an earlier run under another limit. */
    constructor (dailyLimit: int, dayFile: UsageFile)
      ensures file == dayFile && limit == dailyLimit
    {
      file := dayFile;
      limit := dailyLimit;
    }

    /** `getUsageData(fp)`. */
    method GetUsageData(fp: string) returns (count: nat)
      ensures count == StoredCount(file, fp)
    {
      match file
      case Missing => count := 0;
      case Unreadable => count := 0;
      case Entries(m) => count := if fp in m then m[fp] else 0;
    }

    /** `updateUsageData(fp, {count})`: reads the file again (starting from an
        empty object when that fails), sets one key and writes the whole map
        back; a failed write leaves the file as it was. */
    method UpdateUsageData(fp: string, count: nat, writeOk: bool)
      modifies this
      ensures file == if writeOk then Entries(BaseEntries(old(file))[fp := count]) else old(file)
    {
      var all: map<string, nat> := map[];
      if file.Entries? {
        all := file.counts;
      }
      all := all[fp := count];
      if writeOk {
        file := Entries(all);
      }
    }

    /** `rateLimitMiddleware`. */
    method RateLimitMiddleware(fp: string, writeOk: bool) returns (d: Decision)
      modifies this
      ensures old(Valid()) ==> Valid()
      ensures (d, file) == Gate(old(file), fp, limit, writeOk)
    {
      var count := GetUsageData(fp);
      if count >= limit {
        d := Limited(LimitMessage(limit), count, limit);
        return;
      }
      count := count + 1;
      UpdateUsageData(fp, count, writeOk);
      d := Admitted(count);
    }
  }
}
