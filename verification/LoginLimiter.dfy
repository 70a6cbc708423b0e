/**
 The per-address login limiter: a map of failure counts and lock deadlines that refines the plain history of failures,
 successes and checks. Each method holds the mutex for its whole body, so a run is a sequence of calls. Times are in
 nanoseconds on the server's clock, passed in where the code reads it.
 */
module LoginLimiter {
  import opened Wrappers

  const MAX_FAILURES := 5
  const LOCK := 15 * 60 * 1_000_000_000

  // retryAfter reads the clock twice: to compare with the deadline, and to subtract from it.
  datatype Event = Failed(ip: string, at: int) | Succeeded(ip: string) | Checked(ip: string, first: int, second: int)

  // ---------- the history ----------

  // When failures that are still counted happened, oldest first.
  function Live(h: seq<Event>, ip: string): seq<int> {
    if h == [] then []
    else
      var e := h[|h| - 1];
      var before := Live(h[..|h| - 1], ip);
      if e.ip != ip then before
      else
        match e
        case Failed(_, at) => before + [at]
        case Succeeded(_) => []
        case Checked(_, first, _) => if Expired(before, first) then [] else before
  }

  predicate Locked(live: seq<int>) { |live| >= MAX_FAILURES }

  predicate Expired(live: seq<int>, now: int) {
    Locked(live) && now > live[|live| - 1] + LOCK
  }

  // The call that forgets an address: a success, or a check that finds its lock expired.
  predicate Forgets(h: seq<Event>, i: nat, ip: string)
    requires i < |h|
  {
    h[i].ip == ip && (h[i].Succeeded? || (h[i].Checked? && Expired(Live(h[..i], ip), h[i].first)))
  }

  // A lock is five failures, and expires fifteen minutes after the last of them.
  lemma {:induction false} LockedForFifteenMinutes(h: seq<Event>, i: nat, ip: string)
    requires i < |h|
    ensures Forgets(h, i, ip) <==>
              var live := Live(h[..i], ip);
              || h[i] == Succeeded(ip)
              || (h[i].Checked? && h[i].ip == ip && |live| >= 5 && h[i].first > live[|live| - 1] + 15 * 60 * 1_000_000_000)
  {
  }

  // The times of an address's failures, in order.
  function FailureTimes(h: seq<Event>, ip: string): seq<int> {
    if h == [] then []
    else
      var e := h[|h| - 1];
      FailureTimes(h[..|h| - 1], ip) + if e.Failed? && e.ip == ip then [e.at] else []
  }

  // What is counted is every failure since the last call that forgot the address, and nothing else.
  lemma {:induction false} LiveIsFailuresSince(h: seq<Event>, ip: string) returns (since: nat)
    ensures since <= |h| && (since > 0 ==> Forgets(h, since - 1, ip))
    ensures forall i :: since <= i < |h| ==> !Forgets(h, i, ip)
    ensures Live(h, ip) == FailureTimes(h[since..], ip)
  {
    since := 0;
    if h != [] {
      var front := h[..|h| - 1];
      if Forgets(h, |h| - 1, ip) {
        since := |h|;
      } else {
        since := LiveIsFailuresSince(front, ip);
        assert forall i :: 0 <= i < |front| ==> h[..i] == front[..i];
        assert forall i :: 0 <= i < |front| ==> (Forgets(h, i, ip) <==> Forgets(front, i, ip));
        assert h[since..][..|h[since..]| - 1] == front[since..];
      }
    }
  }

  function Only(h: seq<Event>, ip: string): seq<Event> {
    if h == [] then [] else Only(h[..|h| - 1], ip) + if h[|h| - 1].ip == ip then [h[|h| - 1]] else []
  }

  // Other addresses never matter.
  lemma {:induction false} OthersAreIrrelevant(h: seq<Event>, ip: string)
    ensures Live(h, ip) == Live(Only(h, ip), ip)
  {
    if h != [] {
      OthersAreIrrelevant(h[..|h| - 1], ip);
      if h[|h| - 1].ip == ip {
        assert Only(h, ip)[..|Only(h, ip)| - 1] == Only(h[..|h| - 1], ip);
      } else {
        assert Only(h, ip) == Only(h[..|h| - 1], ip);
      }
    }
  }

  function Reading(e: Event): Option<(int, int)> {
    match e
    case Failed(_, at) => Some((at, at))
    case Succeeded(_) => None
    case Checked(_, first, second) => Some((first, second))
  }

  // No reading of the clock precedes an earlier one.
  ghost predicate ClockRuns(h: seq<Event>) {
    && (forall i :: 0 <= i < |h| && Reading(h[i]).Some? ==> Reading(h[i]).value.0 <= Reading(h[i]).value.1)
    && (forall i, j :: 0 <= i < j < |h| && Reading(h[i]).Some? && Reading(h[j]).Some? ==>
          Reading(h[i]).value.1 <= Reading(h[j]).value.0)
  }

  // Each counted failure is a failure in the history, so under a running clock the last one is the latest.
  lemma {:induction false} LiveIsFromHistory(h: seq<Event>, ip: string, k: nat)
    requires k < |Live(h, ip)|
    ensures exists i :: 0 <= i < |h| && h[i] == Failed(ip, Live(h, ip)[k])
  {
    var e := h[|h| - 1];
    var front := h[..|h| - 1];
    if e == Failed(ip, Live(h, ip)[k]) {
    } else {
      assert k < |Live(front, ip)| && Live(front, ip)[k] == Live(h, ip)[k];
      LiveIsFromHistory(front, ip, k);
      var i :| 0 <= i < |front| && front[i] == Failed(ip, Live(h, ip)[k]);
      assert h[i] == Failed(ip, Live(h, ip)[k]);
    }
  }

  lemma {:induction false} LastLiveIsLatest(h: seq<Event>, ip: string)
    requires ClockRuns(h)
    ensures forall k :: 0 <= k < |Live(h, ip)| ==> Live(h, ip)[k] <= Live(h, ip)[|Live(h, ip)| - 1]
  {
    if h != [] {
      var e, front := h[|h| - 1], h[..|h| - 1];
      assert ClockRuns(front);
      LastLiveIsLatest(front, ip);
      if e.Failed? && e.ip == ip {
        forall k | 0 <= k < |Live(front, ip)| ensures Live(front, ip)[k] <= e.at {
          LiveIsFromHistory(front, ip, k);
          var i :| 0 <= i < |front| && front[i] == Failed(ip, Live(front, ip)[k]);
          assert Reading(h[i]).value.1 <= Reading(h[|h| - 1]).value.0;
        }
      }
    }
  }

  // ---------- the limiter ----------

  // until None is the zero time.
  datatype Attempt = Attempt(failures: nat, until: Option<int>)

  class Limiter {
    var attempts: map<string, Attempt>
    ghost var history: seq<Event>

    ghost predicate Represents(ip: string)
      reads this
    {
      var live := Live(history, ip);
      if ip !in attempts then live == []
      else live != [] && attempts[ip] == Attempt(|live|, if Locked(live) then Some(live[|live| - 1] + LOCK) else None)
    }

    ghost predicate Valid()
      reads this
    {
      forall ip :: Represents(ip)
    }

    constructor ()
      ensures Valid() && history == []
    {
      attempts := map[];
      history := [];
    }

    method Fail(ip: string, now: int)
      requires Valid()
      modifies this
      ensures Valid() && history == old(history) + [Failed(ip, now)]
    {
      var attempt := if ip in attempts then attempts[ip] else Attempt(0, None);
      attempt := attempt.(failures := attempt.failures + 1);
      if attempt.failures >= MAX_FAILURES {
        attempt := attempt.(until := Some(now + LOCK));
      }
      attempts := attempts[ip := attempt];
      history := history + [Failed(ip, now)];
      assert history[..|history| - 1] == old(history);
      assert forall other :: old(Represents(other)) ==> Represents(other);
    }

    method Success(ip: string)
      requires Valid()
      modifies this
      ensures Valid() && history == old(history) + [Succeeded(ip)]
    {
      attempts := attempts - {ip};
      history := history + [Succeeded(ip)];
      assert history[..|history| - 1] == old(history);
      assert forall other :: old(Represents(other)) ==> Represents(other);
    }

    /** The wait is positive exactly when at least five failures are counted and the clock, when last read, was less than
        fifteen minutes past the last of them; it is then what is left of those minutes. */
    method RetryAfter(ip: string, first: int, second: int) returns (wait: int)
      requires Valid() && first <= second
      modifies this
      ensures Valid() && history == old(history) + [Checked(ip, first, second)]
      ensures var live := old(Live(history, ip));
              && (wait > 0 <==> |live| >= 5 && second < live[|live| - 1] + 900_000_000_000)
              && (wait > 0 ==> wait == live[|live| - 1] + 900_000_000_000 - second)
    {
      assert Represents(ip);
      history := history + [Checked(ip, first, second)];
      assert history[..|history| - 1] == old(history);
      var attempt := if ip in attempts then attempts[ip] else Attempt(0, None);
      if attempt.until.None? || first > attempt.until.value {
        if attempt.until.Some? {
          attempts := attempts - {ip};
        }
        wait := 0;
      } else {
        wait := attempt.until.value - second;
      }
      assert forall other :: old(Represents(other)) ==> Represents(other);
    }
  }
}
