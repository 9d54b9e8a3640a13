/** The login throttle. Times are exact reals on a clock that never goes back. */
module Throttle {

  /** Settings; every value is within the ranges the settings accept. */
  datatype Policy = Policy(maxAttempts: nat, windowSeconds: real, lockoutSeconds: real) {
    predicate Valid() {
      maxAttempts >= 1 && windowSeconds >= 1.0 && lockoutSeconds >= 0.0
    }
  }

  /** Failures not yet out of the window. */
  function Recent(times: seq<real>, cutoff: real): (recent: seq<real>)
    ensures |recent| <= |times|
  {
    if times == [] then []
    else if times[0] >= cutoff then [times[0]] + Recent(times[1..], cutoff)
    else Recent(times[1..], cutoff)
  }

  function Max(a: real, b: real): real {
    if a >= b then a else b
  }

  function UnlockAt(p: Policy, recent: seq<real>): real
    requires recent != []
  {
    Max(recent[0] + p.windowSeconds, recent[|recent| - 1] + p.lockoutSeconds)
  }

  predicate Allows(p: Policy, recent: seq<real>, now: real) {
    |recent| < p.maxAttempts || recent == [] || UnlockAt(p, recent) <= now
  }

  function RetryAfter(p: Policy, recent: seq<real>, now: real): int
    requires recent != []
  {
    var wait := (UnlockAt(p, recent) - now).Floor + 1;
    if wait >= 1 then wait else 1
  }

  /** The whole number of seconds is the first one past both the window of the oldest failure and the lockout
      of the newest. */
  predicate Waits(p: Policy, recent: seq<real>, now: real, seconds: int)
    requires recent != []
  {
    && now + seconds as real > recent[0] + p.windowSeconds
    && now + seconds as real > recent[|recent| - 1] + p.lockoutSeconds
    && (|| now + (seconds - 1) as real <= recent[0] + p.windowSeconds
        || now + (seconds - 1) as real <= recent[|recent| - 1] + p.lockoutSeconds)
  }

  class LoginThrottle {
    const policy: Policy
    var failures: map<string, seq<real>>

    constructor (policy: Policy)
      ensures this.policy == policy && failures == map[]
    {
      this.policy, failures := policy, map[];
    }

    function FailuresOf(key: string): seq<real>
      reads this
    {
      if key in failures then failures[key] else []
    }

    method Prune(key: string, now: real) returns (recent: seq<real>)
      modifies this
      ensures recent == Recent(old(FailuresOf(key)), now - policy.windowSeconds)
      ensures FailuresOf(key) == recent
      ensures forall other :: other != key ==> FailuresOf(other) == old(FailuresOf(other))
      ensures recent == [] ==> key !in failures
    {
      recent := Recent(FailuresOf(key), now - policy.windowSeconds);
      if recent != [] {
        failures := failures[key := recent];
      } else {
        failures := failures - {key};
      }
    }

    method Check(key: string, now: real) returns (allowed: bool, retryAfter: int)
      requires policy.Valid()
      modifies this
      ensures FailuresOf(key) == Recent(old(FailuresOf(key)), now - policy.windowSeconds)
      ensures forall other :: other != key ==> FailuresOf(other) == old(FailuresOf(other))
      ensures allowed <==> Allows(policy, FailuresOf(key), now)
      ensures !allowed ==> FailuresOf(key) != [] && retryAfter == RetryAfter(policy, FailuresOf(key), now) >= 1
      ensures !allowed ==> Waits(policy, FailuresOf(key), now, retryAfter)
      ensures allowed ==> retryAfter == 0
    {
      var recent := Prune(key, now);
      if |recent| >= policy.maxAttempts {
        var windowEndAt := recent[0] + policy.windowSeconds;
        var lockEndAt := recent[|recent| - 1] + policy.lockoutSeconds;
        var unlockAt := Max(windowEndAt, lockEndAt);
        if unlockAt > now {
          var wait := (unlockAt - now).Floor + 1;
          return false, if wait >= 1 then wait else 1;
        }
      }
      return true, 0;
    }

    method RecordFailure(key: string, now: real)
      modifies this
      ensures FailuresOf(key) == Recent(old(FailuresOf(key)), now - policy.windowSeconds) + [now]
      ensures forall other :: other != key ==> FailuresOf(other) == old(FailuresOf(other))
    {
      var recent := Prune(key, now);
      failures := failures[key := recent + [now]];
    }

    method RecordSuccess(key: string)
      modifies this
      ensures FailuresOf(key) == []
      ensures forall other :: other != key ==> FailuresOf(other) == old(FailuresOf(other))
    {
      failures := failures - {key};
    }

    /** A login request: nothing is awaited between the check and what is recorded. */
    method Login(key: string, request: Request) returns (allowed: bool, retryAfter: int)
      requires policy.Valid()
      modifies this
      ensures FailuresOf(key) == Stored(policy, old(FailuresOf(key)), request)
      ensures forall other :: other != key ==> FailuresOf(other) == old(FailuresOf(other))
      ensures allowed
        <==> Allows(policy, Recent(old(FailuresOf(key)), request.at - policy.windowSeconds), request.at)
      ensures allowed ==> retryAfter == 0
      ensures !allowed ==> FailuresOf(key) != [] && Waits(policy, FailuresOf(key), request.at, retryAfter)
    {
      allowed, retryAfter := Check(key, request.at);
      if allowed && request.csrfOk {
        if request.passwordOk {
          RecordSuccess(key);
        } else {
          RecordFailure(key, request.recordedAt);
        }
      }
    }
  }

  // ---- runs of one key ---------------------------------------------------

  datatype Request = Request(at: real, recordedAt: real, csrfOk: bool, passwordOk: bool)

  predicate FailureRecorded(p: Policy, stored: seq<real>, r: Request) {
    Allows(p, Recent(stored, r.at - p.windowSeconds), r.at) && r.csrfOk && !r.passwordOk
  }

  predicate SuccessRecorded(p: Policy, stored: seq<real>, r: Request) {
    Allows(p, Recent(stored, r.at - p.windowSeconds), r.at) && r.csrfOk && r.passwordOk
  }

  /** The key's list after one request. */
  function Stored(p: Policy, stored: seq<real>, r: Request): seq<real> {
    var recent := Recent(stored, r.at - p.windowSeconds);
    if FailureRecorded(p, stored, r) then Recent(recent, r.recordedAt - p.windowSeconds) + [r.recordedAt]
    else if SuccessRecorded(p, stored, r) then []
    else recent
  }

  /** What the throttle keeps of a key, and every failure recorded since its last success. */
  datatype Account = Account(stored: seq<real>, history: seq<real>)

  function After(p: Policy, requests: seq<Request>): Account {
    if requests == [] then Account([], [])
    else
      var before := After(p, requests[..|requests| - 1]);
      var r := requests[|requests| - 1];
      Account(
        Stored(p, before.stored, r),
        if FailureRecorded(p, before.stored, r) then before.history + [r.recordedAt]
        else if SuccessRecorded(p, before.stored, r) then []
        else before.history)
  }

  predicate Ordered(requests: seq<Request>) {
    && (forall i :: 0 <= i < |requests| ==> requests[i].at <= requests[i].recordedAt)
    && (forall i :: 0 < i < |requests| ==> requests[i - 1].recordedAt <= requests[i].at)
  }

  function Clock(requests: seq<Request>): real {
    if requests == [] then 0.0 else requests[|requests| - 1].recordedAt
  }

  predicate Sorted(times: seq<real>) {
    forall i, j :: 0 <= i <= j < |times| ==> times[i] <= times[j]
  }

  /** Any maxAttempts + 1 successive failures span at least the window. */
  ghost predicate Spread(p: Policy, history: seq<real>) {
    forall i :: 0 <= i && i + p.maxAttempts < |history| ==>
      history[i + p.maxAttempts] - history[i] >= p.windowSeconds
  }

  /** Failures later than `after` and no later than one window after it. */
  function InWindow(times: seq<real>, after: real, width: real): nat {
    if times == [] then 0
    else (if after < times[0] <= after + width then 1 else 0) + InWindow(times[1..], after, width)
  }

  /** Where the entries not before `cutoff` begin in a sorted list. */
  function Begin(times: seq<real>, cutoff: real): (k: nat)
    ensures k <= |times|
    ensures k < |times| ==> times[k] >= cutoff
    ensures forall i :: 0 <= i < k ==> times[i] < cutoff
  {
    if times == [] || times[0] >= cutoff then 0 else 1 + Begin(times[1..], cutoff)
  }

  lemma {:induction false} RecentAll(times: seq<real>, cutoff: real)
    requires forall i :: 0 <= i < |times| ==> times[i] >= cutoff
    ensures Recent(times, cutoff) == times
  {
    if times != [] { RecentAll(times[1..], cutoff); }
  }

  lemma {:induction false} RecentSuffix(times: seq<real>, cutoff: real)
    requires Sorted(times)
    ensures Recent(times, cutoff) == times[Begin(times, cutoff)..]
  {
    if times == [] {
    } else if times[0] >= cutoff {
      RecentAll(times, cutoff);
    } else {
      RecentSuffix(times[1..], cutoff);
    }
  }

  lemma {:induction false} RecentTwice(times: seq<real>, cutoff: real, later: real)
    requires cutoff <= later
    ensures Recent(Recent(times, cutoff), later) == Recent(times, later)
  {
    if times != [] {
      RecentTwice(times[1..], cutoff, later);
      if times[0] >= cutoff {
        assert ([times[0]] + Recent(times[1..], cutoff))[1..] == Recent(times[1..], cutoff);
      }
    }
  }

  lemma {:induction false} RecentAppend(times: seq<real>, last: real, cutoff: real)
    requires last >= cutoff
    ensures Recent(times + [last], cutoff) == Recent(times, cutoff) + [last]
  {
    if times == [] {
      assert times + [last] == [last];
    } else {
      assert (times + [last])[1..] == times[1..] + [last];
      RecentAppend(times[1..], last, cutoff);
    }
  }

  /** The list kept says all that matters of the history, which is sorted. */
  ghost predicate Mirrored(p: Policy, a: Account, clock: real) {
    && Sorted(a.history) && (forall i :: 0 <= i < |a.history| ==> a.history[i] <= clock)
    && (exists cutoff :: cutoff <= clock - p.windowSeconds && a.stored == Recent(a.history, cutoff))
  }

  /** Besides, the history is spread. */
  ghost predicate Sound(p: Policy, a: Account, clock: real) {
    Mirrored(p, a, clock) && Spread(p, a.history)
  }

  /** An allowed check leaves room: the new failure is a window away from the one maxAttempts before. */
  lemma AllowedIsSpread(p: Policy, history: seq<real>, at: real, recordedAt: real)
    requires p.Valid() && p.lockoutSeconds > 0.0 && Sorted(history) && Spread(p, history)
    requires at <= recordedAt && Allows(p, Recent(history, at - p.windowSeconds), at)
    ensures Spread(p, history + [recordedAt])
  {
    hide Spread, Recent;
    var k := Begin(history, at - p.windowSeconds);
    RecentSuffix(history, at - p.windowSeconds);
    if |history| - k >= p.maxAttempts {
      FullWindowAllows(p, history[k..], at);
      assert history[k] == history[k..][0] && history[|history| - 1] == history[k..][|history| - k - 1];
      EdgeHoldsWindow(p, history, k);
    }
    AppendIsSpread(p, history, recordedAt);
  }

  /** A full window lets an attempt through only at its very edge. */
  lemma FullWindowAllows(p: Policy, recent: seq<real>, at: real)
    requires p.Valid() && p.lockoutSeconds > 0.0 && Allows(p, recent, at) && |recent| >= p.maxAttempts
    requires recent[0] >= at - p.windowSeconds
    ensures recent[0] == at - p.windowSeconds && recent[|recent| - 1] < at
  {
  }

  lemma AppendIsSpread(p: Policy, history: seq<real>, last: real)
    requires p.Valid() && Spread(p, history)
    requires |history| >= p.maxAttempts ==> last - history[|history| - p.maxAttempts] >= p.windowSeconds
    ensures Spread(p, history + [last])
  {
  }

  /** A spread list that ends within one window of its k-th entry has at most maxAttempts from there on. */
  lemma EdgeHoldsWindow(p: Policy, history: seq<real>, k: nat)
    requires Sorted(history) && Spread(p, history)
    requires k < |history| && history[|history| - 1] - history[k] < p.windowSeconds
    ensures k + p.maxAttempts >= |history|
  {
    if k + p.maxAttempts < |history| { SpreadAt(p, history, k); }
  }

  lemma SpreadAt(p: Policy, history: seq<real>, k: nat)
    requires Spread(p, history) && k + p.maxAttempts < |history|
    ensures history[k + p.maxAttempts] - history[k] >= p.windowSeconds
  {
  }

  /** What a request sees is the history's part in the window. */
  lemma SeesHistory(p: Policy, a: Account, clock: real, at: real)
    requires Mirrored(p, a, clock) && clock <= at
    ensures Recent(a.stored, at - p.windowSeconds) == Recent(a.history, at - p.windowSeconds)
  {
    var cutoff :| cutoff <= clock - p.windowSeconds && a.stored == Recent(a.history, cutoff);
    RecentTwice(a.history, cutoff, at - p.windowSeconds);
  }

  lemma RequestKeepsSound(p: Policy, a: Account, clock: real, r: Request)
    requires p.Valid() && p.lockoutSeconds > 0.0 && Sound(p, a, clock) && clock <= r.at <= r.recordedAt
    ensures FailureRecorded(p, a.stored, r) ==>
      Sound(p, Account(Stored(p, a.stored, r), a.history + [r.recordedAt]), r.recordedAt)
    ensures !FailureRecorded(p, a.stored, r) && !SuccessRecorded(p, a.stored, r) ==>
      Sound(p, Account(Stored(p, a.stored, r), a.history), r.recordedAt)
  {
    hide Spread, Allows, Mirrored, Stored;
    SeesHistory(p, a, clock, r.at);
    RequestKeepsMirrored(p, a, clock, r);
    if FailureRecorded(p, a.stored, r) {
      MirroredIsSorted(p, a, clock);
      AllowedIsSpread(p, a.history, r.at, r.recordedAt);
    }
  }

  lemma MirroredIsSorted(p: Policy, a: Account, clock: real)
    requires Mirrored(p, a, clock)
    ensures Sorted(a.history)
  {
  }

  lemma RequestKeepsMirrored(p: Policy, a: Account, clock: real, r: Request)
    requires p.Valid() && Mirrored(p, a, clock) && clock <= r.at <= r.recordedAt
    ensures FailureRecorded(p, a.stored, r) ==>
      Mirrored(p, Account(Stored(p, a.stored, r), a.history + [r.recordedAt]), r.recordedAt)
    ensures !FailureRecorded(p, a.stored, r) && !SuccessRecorded(p, a.stored, r) ==>
      Mirrored(p, Account(Stored(p, a.stored, r), a.history), r.recordedAt)
  {
    hide Allows;
    SeesHistory(p, a, clock, r.at);
    RecentTwice(a.history, r.at - p.windowSeconds, r.recordedAt - p.windowSeconds);
    if FailureRecorded(p, a.stored, r) {
      RecentAppend(a.history, r.recordedAt, r.recordedAt - p.windowSeconds);
      assert Stored(p, a.stored, r) == Recent(a.history + [r.recordedAt], r.recordedAt - p.windowSeconds);
    }
  }

  lemma {:induction false} RunIsSound(p: Policy, requests: seq<Request>)
    requires p.Valid() && p.lockoutSeconds > 0.0 && Ordered(requests) && requests != []
    ensures Sound(p, After(p, requests), Clock(requests))
    decreases |requests|
  {
    hide Spread, FailureRecorded, SuccessRecorded, Stored;
    var before, r := requests[..|requests| - 1], requests[|requests| - 1];
    var clock := if before == [] then r.at else Clock(before);
    EmptyIsSound(p, r.at);
    EmptyIsSound(p, r.recordedAt);
    if before != [] { RunIsSound(p, before); }
    RequestKeepsSound(p, After(p, before), clock, r);
    SuccessClears(p, After(p, before).stored, r);
  }

  lemma {:induction false} RunIsMirrored(p: Policy, requests: seq<Request>)
    requires p.Valid() && Ordered(requests) && requests != []
    ensures Mirrored(p, After(p, requests), Clock(requests))
    decreases |requests|
  {
    hide FailureRecorded, SuccessRecorded, Stored;
    var before, r := requests[..|requests| - 1], requests[|requests| - 1];
    var clock := if before == [] then r.at else Clock(before);
    EmptyIsSound(p, r.at);
    EmptyIsSound(p, r.recordedAt);
    if before != [] { RunIsMirrored(p, before); }
    RequestKeepsMirrored(p, After(p, before), clock, r);
    SuccessClears(p, After(p, before).stored, r);
  }

  /** How many failures lie no earlier than `cutoff`. */
  function CountSince(times: seq<real>, cutoff: real): nat {
    if times == [] then 0 else (if times[0] >= cutoff then 1 else 0) + CountSince(times[1..], cutoff)
  }

  lemma {:induction false} CountIsRecent(times: seq<real>, cutoff: real)
    ensures CountSince(times, cutoff) == |Recent(times, cutoff)|
  {
    if times != [] { CountIsRecent(times[1..], cutoff); }
  }

  /** Under any settings and after any requests of a key, a further one is allowed exactly when fewer than
      maxAttempts of its failures since its last success lie within the window, or when they are just as many
      or more, the oldest lies on the window's very edge and the lockout after the newest has passed. */
  lemma AllowedExactly(p: Policy, requests: seq<Request>, r: Request)
    requires p.Valid() && Ordered(requests + [r])
    ensures
      var before := After(p, requests);
      var failures, n := before.history, CountSince(before.history, r.at - p.windowSeconds);
      n <= |failures|
      && (Allows(p, Recent(before.stored, r.at - p.windowSeconds), r.at) <==>
            || n < p.maxAttempts
            || (failures[|failures| - n] == r.at - p.windowSeconds
                && failures[|failures| - 1] + p.lockoutSeconds <= r.at))
  {
    hide Allows, CountSince, Recent, After, Mirrored;
    var before := After(p, requests);
    if requests == [] {
      NothingYet(p);
    } else {
      var all := requests + [r];
      assert forall i :: 0 <= i < |requests| ==> all[i] == requests[i];
      assert all[|requests|] == r && all[|requests| - 1] == requests[|requests| - 1];
      RunIsMirrored(p, requests);
      SeesHistory(p, before, Clock(requests), r.at);
      MirroredIsSorted(p, before, Clock(requests));
    }
    AllowsExactly(p, before.history, r.at);
  }

  lemma NothingYet(p: Policy)
    ensures After(p, []) == Account([], [])
  {
  }

  lemma AllowsExactly(p: Policy, failures: seq<real>, at: real)
    requires p.Valid() && Sorted(failures)
    ensures
      var n := CountSince(failures, at - p.windowSeconds);
      n <= |failures|
      && (Allows(p, Recent(failures, at - p.windowSeconds), at) <==>
            || n < p.maxAttempts
            || (failures[|failures| - n] == at - p.windowSeconds
                && failures[|failures| - 1] + p.lockoutSeconds <= at))
  {
    var k := Begin(failures, at - p.windowSeconds);
    CountIsRecent(failures, at - p.windowSeconds);
    RecentSuffix(failures, at - p.windowSeconds);
    if failures[k..] != [] {
      assert failures[k..][0] == failures[k] && failures[k..][|failures| - k - 1] == failures[|failures| - 1];
    }
  }

  /** So the lockout never outlasts the window: a key without a failure in the last window is not denied. */
  lemma LockoutEndsWithWindow(p: Policy, requests: seq<Request>, r: Request)
    requires p.Valid() && Ordered(requests + [r])
    requires var failures := After(p, requests).history;
      forall i :: 0 <= i < |failures| ==> failures[i] < r.at - p.windowSeconds
    ensures Allows(p, Recent(After(p, requests).stored, r.at - p.windowSeconds), r.at)
  {
    hide Allows;
    NoneSince(After(p, requests).history, r.at - p.windowSeconds);
    AllowedExactly(p, requests, r);
  }

  lemma {:induction false} NoneSince(times: seq<real>, cutoff: real)
    requires forall i :: 0 <= i < |times| ==> times[i] < cutoff
    ensures CountSince(times, cutoff) == 0
  {
    if times != [] { NoneSince(times[1..], cutoff); }
  }

  lemma EmptyIsSound(p: Policy, clock: real)
    ensures Sound(p, Account([], []), clock)
  {
    assert [] == Recent([], clock - p.windowSeconds);
  }

  lemma SuccessClears(p: Policy, stored: seq<real>, r: Request)
    ensures SuccessRecorded(p, stored, r) ==> !FailureRecorded(p, stored, r) && Stored(p, stored, r) == []
  {
  }

  /** No window (t, t + windowSeconds] holds more than maxAttempts of a spread, sorted list of failures. */
  lemma SpreadBoundsWindows(p: Policy, history: seq<real>, after: real)
    requires p.Valid() && Sorted(history) && Spread(p, history)
    ensures InWindow(history, after, p.windowSeconds) <= p.maxAttempts
  {
    var k := BeginAfter(history, after);
    CountFrom(history, after, p.windowSeconds, k);
    var end := k + InWindow(history, after, p.windowSeconds);
    if end > k {
      assert history[..end][end - 1] == history[end - 1] && history[..end][k] == history[k];
      EdgeHoldsWindow(p, history[..end], k);
    }
  }

  ghost function BeginAfter(times: seq<real>, after: real): (k: nat)
    ensures k <= |times|
    ensures k < |times| ==> times[k] > after
    ensures forall i :: 0 <= i < k ==> times[i] <= after
  {
    if times == [] || times[0] > after then 0 else 1 + BeginAfter(times[1..], after)
  }

  /** Entries in the window stand together. */
  lemma {:induction false} CountFrom(times: seq<real>, after: real, width: real, k: nat)
    requires Sorted(times) && k == BeginAfter(times, after)
    ensures k + InWindow(times, after, width) <= |times|
    ensures forall i :: k <= i < k + InWindow(times, after, width) ==> times[i] <= after + width
  {
    if times != [] {
      var rest := times[1..];
      CountFrom(rest, after, width, BeginAfter(rest, after));
      forall i | k <= i < k + InWindow(times, after, width) ensures times[i] <= after + width {
        if i > 0 && times[0] <= after { assert times[i] == rest[i - 1]; }
        if i > 0 && times[0] > after { assert BeginAfter(rest, after) == 0; assert times[i] == rest[i - 1]; }
      }
    }
  }

  /** Whatever a key's clients send, no half-open window of windowSeconds since its last success holds
      more than maxAttempts recorded failures. */
  lemma FailuresAreBounded(p: Policy, requests: seq<Request>, after: real)
    requires p.Valid() && p.lockoutSeconds > 0.0 && Ordered(requests)
    ensures InWindow(After(p, requests).history, after, p.windowSeconds) <= p.maxAttempts
  {
    if requests != [] {
      RunIsSound(p, requests);
      SpreadBoundsWindows(p, After(p, requests).history, after);
    }
  }

  // ---- without a lockout ---------------------------------------------------

  function Fails(n: nat, at: real): seq<Request> {
    if n == 0 then [] else Fails(n - 1, at) + [Request(at, at, true, false)]
  }

  lemma {:induction false} FailsAt(n: nat, at: real)
    ensures |Fails(n, at)| == n && forall i :: 0 <= i < n ==> Fails(n, at)[i] == Request(at, at, true, false)
  {
    if n > 0 { FailsAt(n - 1, at); }
  }

  function Times(n: nat, at: real): (times: seq<real>)
    ensures |times| == n && forall i :: 0 <= i < n ==> times[i] == at
  {
    seq(n, i => at)
  }

  lemma {:induction false} FirstBurst(p: Policy, n: nat)
    requires p.Valid() && n <= p.maxAttempts
    ensures After(p, Fails(n, 0.0)) == Account(Times(n, 0.0), Times(n, 0.0))
  {
    if n > 0 {
      FirstBurst(p, n - 1);
      assert Fails(n, 0.0)[..n - 1] == Fails(n - 1, 0.0) by { FailsAt(n, 0.0); FailsAt(n - 1, 0.0); }
      RecentAll(Times(n - 1, 0.0), 0.0 - p.windowSeconds);
      assert Times(n - 1, 0.0) + [0.0] == Times(n, 0.0);
      FailsAt(n, 0.0);
    }
  }

  lemma {:induction false} SecondBurst(p: Policy, n: nat)
    requires p.Valid() && p.lockoutSeconds == 0.0
    ensures var w, m := p.windowSeconds, p.maxAttempts;
      var all := Times(m, 0.0) + Times(n, w);
      After(p, Fails(m, 0.0) + Fails(n, w)) == Account(all, all)
  {
    hide FailureRecorded, SuccessRecorded, Stored;
    var w, m := p.windowSeconds, p.maxAttempts;
    if n == 0 {
      FirstBurst(p, m);
      assert Fails(m, 0.0) + Fails(0, w) == Fails(m, 0.0);
      assert Times(m, 0.0) + Times(0, w) == Times(m, 0.0);
    } else {
      SecondBurst(p, n - 1);
      var requests, last := Fails(m, 0.0) + Fails(n, w), Request(w, w, true, false);
      FailsAt(m, 0.0);
      FailsAt(n, w);
      assert requests[..|requests| - 1] == Fails(m, 0.0) + Fails(n - 1, w) && requests[|requests| - 1] == last;
      EdgeIsOpen(p, n - 1);
    }
  }

  lemma EdgeIsOpen(p: Policy, n: nat)
    requires p.Valid() && p.lockoutSeconds == 0.0
    ensures var w, m := p.windowSeconds, p.maxAttempts;
      var all, last := Times(m, 0.0) + Times(n, w), Request(w, w, true, false);
      && FailureRecorded(p, all, last) && Stored(p, all, last) == all + [w]
      && all + [w] == Times(m, 0.0) + Times(n + 1, w)
  {
    var w, m := p.windowSeconds, p.maxAttempts;
    RecentAll(Times(m, 0.0) + Times(n, w), w - w);
  }

  /** With no lockout, the first failures leave the window's edge open: at that very instant any number
      of further attempts is allowed. */
  lemma WithoutLockoutUnbounded(p: Policy)
    requires p.Valid() && p.lockoutSeconds == 0.0
    ensures var requests := Fails(p.maxAttempts, 0.0) + Fails(p.maxAttempts + 1, p.windowSeconds);
      Ordered(requests) && InWindow(After(p, requests).history, 0.0, p.windowSeconds) > p.maxAttempts
  {
    var w, m := p.windowSeconds, p.maxAttempts;
    SecondBurst(p, m + 1);
    FailsAt(m, 0.0);
    FailsAt(m + 1, w);
    CountBurst(m, m + 1, w);
  }

  lemma {:induction false} CountBurst(m: nat, n: nat, w: real)
    requires w > 0.0
    ensures InWindow(Times(m, 0.0) + Times(n, w), 0.0, w) == n
  {
    if m > 0 {
      assert (Times(m, 0.0) + Times(n, w))[1..] == Times(m - 1, 0.0) + Times(n, w);
      CountBurst(m - 1, n, w);
    } else if n > 0 {
      assert Times(0, 0.0) + Times(n, w) == Times(n, w);
      assert Times(n, w)[1..] == Times(0, 0.0) + Times(n - 1, w);
      CountBurst(0, n - 1, w);
    }
  }

  ghost predicate AlwaysBounded(p: Policy) {
    forall requests, after :: Ordered(requests) ==>
      InWindow(After(p, requests).history, after, p.windowSeconds) <= p.maxAttempts
  }

  /** The bound holds of every run exactly when there is a lockout. */
  lemma BoundedExactlyWithLockout(p: Policy)
    requires p.Valid()
    ensures AlwaysBounded(p) <==> p.lockoutSeconds > 0.0
  {
    if p.lockoutSeconds > 0.0 {
      forall requests, after | Ordered(requests)
        ensures InWindow(After(p, requests).history, after, p.windowSeconds) <= p.maxAttempts
      {
        FailuresAreBounded(p, requests, after);
      }
    } else {
      WithoutLockoutUnbounded(p);
    }
  }

  // ---- how long a lockout lasts ------------------------------------------

  /** maxAttempts failures fell within one window up to the last one, and the lockout after it is not over. */
  predicate LockedOut(p: Policy, requests: seq<Request>, at: real) {
    var failures := After(p, requests).history;
    && failures != []
    && CountSince(failures, failures[|failures| - 1] - p.windowSeconds) >= p.maxAttempts
    && at < failures[|failures| - 1] + p.lockoutSeconds
  }

  /** Nobody who is locked out is allowed to try. */
  ghost predicate LockoutHolds(p: Policy) {
    forall requests, r | Ordered(requests + [r]) && LockedOut(p, requests, r.at) ::
      !Allows(p, Recent(After(p, requests).stored, r.at - p.windowSeconds), r.at)
  }

  lemma {:induction false} LastCounts(times: seq<real>, cutoff: real)
    requires times != [] && times[|times| - 1] >= cutoff
    ensures CountSince(times, cutoff) >= 1
  {
    if |times| > 1 { LastCounts(times[1..], cutoff); }
  }

  lemma ShortLockoutHolds(p: Policy, requests: seq<Request>, r: Request)
    requires p.Valid() && (p.lockoutSeconds == 0.0 || (p.maxAttempts == 1 && p.lockoutSeconds <= p.windowSeconds))
    requires Ordered(requests + [r]) && LockedOut(p, requests, r.at)
    ensures !Allows(p, Recent(After(p, requests).stored, r.at - p.windowSeconds), r.at)
  {
    hide Allows, Recent, After, CountSince;
    NothingYet(p);
    var all := requests + [r];
    assert forall i :: 0 <= i < |requests| ==> all[i] == requests[i];
    assert all[|requests|] == r && all[|requests| - 1] == requests[|requests| - 1];
    RunIsMirrored(p, requests);
    AllowedExactly(p, requests, r);
    LastCounts(After(p, requests).history, r.at - p.windowSeconds);
  }

  lemma ShortLockoutAlwaysHolds(p: Policy)
    requires p.Valid() && (p.lockoutSeconds == 0.0 || (p.maxAttempts == 1 && p.lockoutSeconds <= p.windowSeconds))
    ensures LockoutHolds(p)
  {
    hide LockedOut, Allows, Recent, After, Ordered;
    forall requests, r | Ordered(requests + [r]) && LockedOut(p, requests, r.at)
      ensures !Allows(p, Recent(After(p, requests).stored, r.at - p.windowSeconds), r.at)
    {
      ShortLockoutHolds(p, requests, r);
    }
  }

  /** One failure at time 0 and `n` at time `t`, all allowed. */
  lemma {:induction false} TwoBursts(p: Policy, n: nat, t: real)
    requires p.Valid() && 1 + n <= p.maxAttempts && 0.0 <= t <= p.windowSeconds
    ensures var requests, times := Fails(1, 0.0) + Fails(n, t), Times(1, 0.0) + Times(n, t);
      Ordered(requests) && |requests| == 1 + n && (forall i :: 0 <= i <= n ==> requests[i].recordedAt <= t)
      && After(p, requests) == Account(times, times)
  {
    hide Recent, FailureRecorded, SuccessRecorded, Stored;
    FailsAt(1, 0.0);
    FailsAt(n, t);
    var requests, times := Fails(1, 0.0) + Fails(n, t), Times(1, 0.0) + Times(n, t);
    if n == 0 {
      FirstBurst(p, 1);
      assert requests == Fails(1, 0.0) && times == Times(1, 0.0);
    } else {
      TwoBursts(p, n - 1, t);
      FailsAt(n - 1, t);
      var before := Times(1, 0.0) + Times(n - 1, t);
      assert requests[..n] == Fails(1, 0.0) + Fails(n - 1, t) && requests[n] == Request(t, t, true, false);
      StillAllowed(p, before, t);
      assert before + [t] == times;
    }
  }

  lemma StillAllowed(p: Policy, before: seq<real>, t: real)
    requires |before| < p.maxAttempts && forall i :: 0 <= i < |before| ==> before[i] >= t - p.windowSeconds
    ensures FailureRecorded(p, before, Request(t, t, true, false))
    ensures Stored(p, before, Request(t, t, true, false)) == before + [t]
  {
    hide Recent;
    RecentAll(before, t - p.windowSeconds);
  }

  /** A locked-out client is let in once the oldest of its failures has left the window. */
  lemma LockoutCutShort(p: Policy, n: nat, last: real, at: real)
    requires p.Valid() && 1 + n == p.maxAttempts && 0.0 <= last <= p.windowSeconds && (n == 0 ==> last == 0.0)
    requires p.windowSeconds < at < last + p.lockoutSeconds
    ensures var requests, r := Fails(1, 0.0) + Fails(n, last), Request(at, at, true, false);
      && Ordered(requests + [r]) && LockedOut(p, requests, at)
      && Allows(p, Recent(After(p, requests).stored, at - p.windowSeconds), at)
  {
    hide Allows, Recent;
    var requests, r := Fails(1, 0.0) + Fails(n, last), Request(at, at, true, false);
    var times := Times(1, 0.0) + Times(n, last);
    TwoBursts(p, n, last);
    var all := requests + [r];
    assert forall i :: 0 <= i < |requests| ==> all[i] == requests[i];
    assert all[|requests|] == r;
    assert times[|times| - 1] == last;
    AllCount(times, last - p.windowSeconds);
    AllowedExactly(p, requests, r);
    OldestGone(times, at - p.windowSeconds);
  }

  lemma CutShortBreaks(p: Policy, n: nat, last: real, at: real)
    requires p.Valid() && 1 + n == p.maxAttempts && 0.0 <= last <= p.windowSeconds && (n == 0 ==> last == 0.0)
    requires p.windowSeconds < at < last + p.lockoutSeconds
    ensures !LockoutHolds(p)
  {
    hide LockedOut, Allows, Recent, After, Ordered;
    LockoutCutShort(p, n, last, at);
  }

  lemma {:induction false} AllCount(times: seq<real>, cutoff: real)
    requires forall i :: 0 <= i < |times| ==> times[i] >= cutoff
    ensures CountSince(times, cutoff) == |times|
  {
    if times != [] { AllCount(times[1..], cutoff); }
  }

  lemma OldestGone(times: seq<real>, cutoff: real)
    requires times != [] && times[0] < cutoff
    ensures CountSince(times, cutoff) < |times|
  {
    CountIsRecent(times[1..], cutoff);
  }

  /** So a lockout keeps its promise in every run only if it is zero, or no longer than the window when a single
      failure locks: otherwise the window's end lets the client in before. */
  lemma LockoutHoldsExactly(p: Policy)
    requires p.Valid()
    ensures LockoutHolds(p) <==>
      p.lockoutSeconds == 0.0 || (p.maxAttempts == 1 && p.lockoutSeconds <= p.windowSeconds)
  {
    hide LockedOut, Allows, Recent, After, Ordered, LockoutHolds;
    var w, l := p.windowSeconds, p.lockoutSeconds;
    if l == 0.0 || (p.maxAttempts == 1 && l <= w) {
      ShortLockoutAlwaysHolds(p);
    } else if p.maxAttempts == 1 {
      CutShortBreaks(p, 0, 0.0, w + (l - w) / 2.0);
    } else {
      var gap := (if l <= w then l else w) / 2.0;
      CutShortBreaks(p, p.maxAttempts - 1, w - gap, w + gap / 2.0);
    }
  }

  // ---- retry_after ---------------------------------------------------------

  /** A denial that saw exactly maxAttempts failures tells the truth: with no further failure, a check
      retry_after seconds later is allowed. */
  lemma RetryAfterIsEnough(p: Policy, recent: seq<real>, now: real)
    requires p.Valid() && Sorted(recent) && |recent| == p.maxAttempts && !Allows(p, recent, now)
    ensures var later := now + RetryAfter(p, recent, now) as real;
      Allows(p, Recent(recent, later - p.windowSeconds), later)
  {
    var later := now + RetryAfter(p, recent, now) as real;
    assert later > UnlockAt(p, recent) >= recent[0] + p.windowSeconds;
    assert Recent(recent, later - p.windowSeconds) == Recent(recent[1..], later - p.windowSeconds);
  }
}
