/** The chat route's in-memory rate limiter: one `{count, timestamp}` window
    per user id, at most five admitted requests per 60 000 ms window. The map
    lives as long as the server process. */
module RateLimit {

  const WindowMs: int := 60 * 1000
  const MaxRequests: nat := 5

  /** One user's entry: requests admitted in the current window and when the
      window started (milliseconds). */
  datatype Window = Window(count: nat, timestamp: int)

  /** Every stored count stays within the limit. */
  ghost predicate Bounded(windows: map<string, Window>) {
    forall u :: u in windows ==> windows[u].count <= MaxRequests
  }

  /** The window a request from `user` at `now` is judged against: the stored
      one, a fresh one for an unknown user, and a restarted one when more than
      a full window has passed since it started. */
  function Current(windows: map<string, Window>, user: string, now: int): Window
  {
    var w := if user in windows then windows[user] else Window(0, now);
    if now - w.timestamp > WindowMs then Window(0, now) else w
  }

  /** One request: whether it is admitted, and the map afterwards. A restart
      is written into the stored entry before the limit is consulted, the
      admitted request's entry is written back with its count raised by one. */
  function Decide(windows: map<string, Window>, user: string, now: int): (bool, map<string, Window>)
  {
    var w := Current(windows, user, now);
    var restarted := if user in windows then windows[user := w] else windows;
    if w.count >= MaxRequests then (false, restarted)
    else (true, windows[user := w.(count := w.count + 1)])
  }

  /** A request is refused exactly when the user's window is still open and
      already holds five requests; a refusal changes no entry. */
  lemma RejectIff(windows: map<string, Window>, user: string, now: int)
    ensures !Decide(windows, user, now).0
        <==> (user in windows && now - windows[user].timestamp <= WindowMs && windows[user].count >= MaxRequests)
    ensures !Decide(windows, user, now).0 ==> Decide(windows, user, now).1 == windows
  {
    if !Decide(windows, user, now).0 {
      assert windows[user := windows[user]] == windows;
    }
  }

  /** An admitted request adds exactly one to its own user's count, in the
      window it was judged against, and leaves every other user's entry as it
      was. The window restarts only when strictly more than 60 000 ms passed. */
  lemma AdmitEffect(windows: map<string, Window>, user: string, now: int)
    requires Decide(windows, user, now).0
    ensures var after := Decide(windows, user, now).1;
      && after.Keys == windows.Keys + {user}
      && after[user].count == Current(windows, user, now).count + 1
      && after[user].timestamp == Current(windows, user, now).timestamp
      && (user in windows && now - windows[user].timestamp <= WindowMs ==> after[user] == windows[user].(count := windows[user].count + 1))
      && (user !in windows || now - windows[user].timestamp > WindowMs ==> after[user] == Window(1, now))
      && forall v :: v in windows && v != user ==> after[v] == windows[v]
  {
  }

  /** The limiter keeps every count within the limit. */
  lemma DecideKeepsBounded(windows: map<string, Window>, user: string, now: int)
    requires Bounded(windows)
    ensures Bounded(Decide(windows, user, now).1)
  {
  }

  /** How many of a user's requests, made at the given times one after the
      other, are admitted. */
  function Admitted(windows: map<string, Window>, user: string, times: seq<int>): nat
    decreases |times|
  {
    if times == [] then 0
    else
      var (ok, after) := Decide(windows, user, times[0]);
      (if ok then 1 else 0) + Admitted(after, user, times[1..])
  }

  /** Within one open window a user gets at most the requests the window has
      left: as long as no request comes more than 60 000 ms after the window
      started, at most `5 - count` of them are admitted. */
  lemma {:induction false} AdmittedWithinWindow(windows: map<string, Window>, user: string, times: seq<int>)
    requires user in windows && windows[user].count <= MaxRequests
    requires forall i :: 0 <= i < |times| ==> times[i] - windows[user].timestamp <= WindowMs
    ensures Admitted(windows, user, times) <= MaxRequests - windows[user].count
    decreases |times|
  {
    if times != [] {
      var (ok, after) := Decide(windows, user, times[0]);
      if ok {
        AdmitEffect(windows, user, times[0]);
      } else {
        RejectIff(windows, user, times[0]);
      }
      assert after[user].timestamp == windows[user].timestamp;
      AdmittedWithinWindow(after, user, times[1..]);
    }
  }

  /** A user the limiter has not seen gets at most five requests admitted
      within 60 000 ms of their first one. */
  lemma AdmittedFromFirstRequest(windows: map<string, Window>, user: string, times: seq<int>)
    requires user !in windows && times != []
    requires forall i :: 0 <= i < |times| ==> times[i] - times[0] <= WindowMs
    ensures Admitted(windows, user, times) <= MaxRequests
  {
    var after := Decide(windows, user, times[0]).1;
    AdmitEffect(windows, user, times[0]);
    assert after[user] == Window(1, times[0]);
    AdmittedWithinWindow(after, user, times[1..]);
  }

  /** The sixth request inside a window is refused; once the window has
      elapsed, the next request is admitted and the count starts again at 1. */
  lemma SixthRejectedThenReset(windows: map<string, Window>, user: string, now: int, later: int)
    requires user in windows && windows[user].count == MaxRequests
    requires now - windows[user].timestamp <= WindowMs < later - windows[user].timestamp
    ensures !Decide(windows, user, now).0
    ensures Decide(windows, user, later).0 && Decide(windows, user, later).1[user] == Window(1, later)
  {
    RejectIff(windows, user, now);
  }

  /** The process-wide limiter map of the chat route. */
  class RateLimiter {
    var windows: map<string, Window>

    ghost predicate Valid()
      reads this
    {
      Bounded(windows)
    }

    constructor ()
      ensures Valid() && windows == map[]
    {
      windows := map[];
    }

    /** Judges one request of `user` at time `now`, updating the user's entry
        in place as the route does. */
    method Check(user: string, now: int) returns (allowed: bool)
      requires Valid()
      modifies this
      ensures Valid()
      ensures (allowed, windows) == Decide(old(windows), user, now)
    {
      var entry := if user in windows then windows[user] else Window(0, now);
      if now - entry.timestamp > WindowMs {
        entry := Window(0, now);
        if user in windows {
          windows := windows[user := entry];
        }
      }
      if entry.count >= MaxRequests {
        allowed := false;
        assert entry == Current(old(windows), user, now);
        assert user in windows ==> windows[user := entry] == windows;
        assert !Decide(old(windows), user, now).0;
        assert Decide(old(windows), user, now).1 == windows;
      } else {
        entry := entry.(count := entry.count + 1);
        windows := windows[user := entry];
        allowed := true;
        assert Decide(old(windows), user, now).0;
        assert Decide(old(windows), user, now).1 == windows;
      }
    }
  }
}
