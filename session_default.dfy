/** The in-memory session store (session/default/session.go): a map from
    the prefixed session id to a session map and its expiry second. */
module MemorySession {
  import opened Common

  type Session = map<string, Value>

  /** Seven days, as a Go time.Duration. */
  const WeekExpiry: int := 7 * 24 * 3600 * Second

  /** The default lifetime `Connect` chooses, as written: the error check
      after `util.ParseDuration` is inverted, so the parsed value is taken
      only when parsing failed, and a valid setting is ignored. */
  function SessionExpiryAsWritten(configured: string, parsed: Parsed): (d: int)
    ensures configured != "" && parsed.failed ==> d == parsed.duration
    ensures configured == "" || !parsed.failed ==> d == WeekExpiry
  {
    if configured != "" && parsed.failed then parsed.duration else WeekExpiry
  }

  /** The default lifetime with the check the other stores use: a setting
      that parses replaces the seven days. */
  function SessionExpiry(configured: string, parsed: Parsed): (d: int)
    ensures configured != "" && !parsed.failed ==> d == parsed.duration
    ensures configured == "" || parsed.failed ==> d == WeekExpiry
  {
    ConfiguredDuration(configured, parsed, WeekExpiry)
  }

  /** A configured "1h" that parses is ignored as written and honoured by
      the corrected rule; the two agree when no expiry is configured. */
  lemma ExpiryCheckInverted(parsed: Parsed)
    requires !parsed.failed && parsed.duration == 3600 * Second
    ensures SessionExpiryAsWritten("1h", parsed) == WeekExpiry
    ensures SessionExpiry("1h", parsed) == 3600 * Second
    ensures SessionExpiryAsWritten("", parsed) == SessionExpiry("", parsed)
  {
  }

  /** As written, a setting that fails to parse to a zero duration makes
      every session written with the default lifetime unreadable at once. */
  lemma UnparsableExpiryLosesSessions(sessions: map<string, Entry<Session>>, rid: string, s: Session, now: int, parsed: Parsed)
    requires parsed.failed && parsed.duration == 0
    ensures !Live(sessions[rid := Entry(s, ExpiryAt(now, SessionExpiryAsWritten("x", parsed)))], rid, now)
    ensures Live(sessions[rid := Entry(s, ExpiryAt(now, SessionExpiry("x", parsed)))], rid, now)
  {
    FreshEntryLive(sessions, rid, s, now, SessionExpiryAsWritten("x", parsed));
    FreshEntryLive(sessions, rid, s, now, SessionExpiry("x", parsed));
  }

  class DefaultSessionConnect {
    const name: string
    const prefix: string
    /** The default lifetime of a written session (a time.Duration). */
    const expiry: int
    var sessions: map<string, Entry<Session>>

    /** The driver's `Connect`, with the expiry rule as written. */
    constructor Connect(name: string, prefix: string, configured: string, parsed: Parsed)
      ensures this.name == name && this.prefix == prefix
      ensures expiry == SessionExpiryAsWritten(configured, parsed) && sessions == map[]
    {
      this.name, this.prefix := name, prefix;
      expiry := SessionExpiryAsWritten(configured, parsed);
      sessions := map[];
    }

    /** `Connect` with the corrected expiry rule. */
    constructor ConnectCorrected(name: string, prefix: string, configured: string, parsed: Parsed)
      ensures this.name == name && this.prefix == prefix
      ensures expiry == SessionExpiry(configured, parsed) && sessions == map[]
    {
      this.name, this.prefix := name, prefix;
      expiry := SessionExpiry(configured, parsed);
      sessions := map[];
    }

    /** The live session map, or an error; a session found expired is deleted. */
    method Read(id: string, now: int) returns (r: Result<Session>)
      modifies this`sessions
      ensures Live(old(sessions), prefix + id, now) ==> r == Ok(old(sessions)[prefix + id].value) && sessions == old(sessions)
      ensures !Live(old(sessions), prefix + id, now) ==> r == Err(SessionReadFailed) && sessions == old(sessions) - {prefix + id}
    {
      var rid := prefix + id;
      if rid in sessions {
        var vv := sessions[rid];
        if vv.expiry > now {
          return Ok(vv.value);
        } else {
          var _ := Delete(id);
        }
      }
      r := Err(SessionReadFailed);
    }

    /** Stores `val` under the prefixed id until `now` plus the explicit
        duration, or plus the default one. */
    method Write(id: string, val: Session, expires: seq<int>, now: int) returns (err: Outcome)
      modifies this`sessions
      ensures err == Pass
      ensures sessions == old(sessions)[prefix + id := Entry(val, ExpiryAt(now, if |expires| > 0 then expires[0] else expiry))]
    {
      var value := Entry(val, ExpiryAt(now, expiry));
      if |expires| > 0 {
        value := Entry(val, ExpiryAt(now, expires[0]));
      }
      sessions := sessions[prefix + id := value];
      err := Pass;
    }

    /** Removes only the prefixed id. */
    method Delete(id: string) returns (err: Outcome)
      modifies this`sessions
      ensures err == Pass && sessions == old(sessions) - {prefix + id}
    {
      sessions := sessions - {prefix + id};
      err := Pass;
    }

    /** Deletes every stored session, whatever its prefix. */
    method Clear() returns (err: Outcome)
      modifies this`sessions
      ensures err == Pass && sessions == map[]
    {
      var todo := sessions.Keys;
      while todo != {}
        invariant todo <= old(sessions).Keys
        invariant sessions == old(sessions) - (old(sessions).Keys - todo)
        decreases |todo|
      {
        var k :| k in todo;
        sessions := sessions - {k};
        todo := todo - {k};
      }
      assert sessions.Keys == {};
      err := Pass;
    }
  }

  /** A session written with a lifetime of at least one second reads back
      unchanged in the same second; writing it does not disturb other ids. */
  lemma SessionWriteThenRead(sessions: map<string, Entry<Session>>, rid: string, s: Session, now: int, d: int, other: string)
    requires other != rid
    ensures Live(sessions[rid := Entry(s, ExpiryAt(now, d))], rid, now) <==> d >= Second
    ensures sessions[rid := Entry(s, ExpiryAt(now, d))][rid].value == s
    ensures Live(sessions[rid := Entry(s, ExpiryAt(now, d))], other, now) == Live(sessions, other, now)
  {
    FreshEntryLive(sessions, rid, s, now, d);
    WriteKeepsOthers(sessions, rid, Entry(s, ExpiryAt(now, d)), other, now);
  }

  /** Write, read back, explicit expiry, clear. */
  method SessionScenario(now: int, user: Session)
  {
    var c := new DefaultSessionConnect.Connect("default", "sess:", "", Parsed(0, false));
    var _ := c.Write("abc", user, [], now);
    var r := c.Read("abc", now);
    assert r == Ok(user);
    var _ := c.Write("old", user, [-Second], now);
    var t := c.Read("old", now);
    assert t == Err(SessionReadFailed) && c.prefix + "old" !in c.sessions;
    var _ := c.Clear();
    var u := c.Read("abc", now);
    assert u.Err?;
    var hourly := new DefaultSessionConnect.Connect("default", "sess:", "1h", Parsed(3600 * Second, false));
    var fixed := new DefaultSessionConnect.ConnectCorrected("default", "sess:", "1h", Parsed(3600 * Second, false));
    assert hourly.expiry == WeekExpiry && fixed.expiry == 3600 * Second;
  }
}
