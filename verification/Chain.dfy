/** Opening a chain of SSH connections hop by hop under one deadline. */
module Chain {
  import opened Wrappers
  import opened KnownHosts
  import opened Route

  type Connection = nat      // the n-th connection opened

  datatype Act =
    | Opened(conn: Connection, endpoint: Endpoint, through: Option<Connection>, timeout: real)
    | Closed(conn: Connection)            // close() was called
    | CloseRaised(conn: Connection)       // close() was called and raised
    | Gone(conn: Connection)              // wait_closed() ended

  /** How waiting for a connection's end goes; a timeout is a failure. */
  datatype Wait = Over | Failed | CutShort

  /** What closing one connection meets. */
  datatype Ending = Ending(raises: bool, wait: Wait)

  /** What can be raised while a chain is opened. */
  datatype Fault =
    | Cancelled | KeyImport | PermissionDenied(publicKey: bool) | JumpConfig | BadValue
    | ChannelOpen | ConnectionLost | TimedOut | OsError | Unexpected

  datatype Code =
    | NoUploadedKeys | HostUnknown | HostChanged | KeyInvalid | NoUploadedKeyAccepted | Unreachable | ConfigInvalid

  /** A GatewayError with its code, or the fault as it was raised. */
  datatype Failure = Coded(code: Code) | Raised(fault: Fault)

  /** The key a hop presented, and the host and port it was presented for. */
  datatype Presented = Presented(host: string, port: int, algorithm: string, publicKey: string)

  /** What one connect attempt meets; `at` is the time just before it. */
  datatype Attempt =
    | Connects
    | KeyRefused(presented: Option<Presented>)
    | Faults(fault: Fault)

  datatype World = World(
    keysUploaded: bool,
    started: real,                        // when connect_for_session begins
    resolving: Option<Fault>,             // a cancellation or timeout while the route is resolved
    now: nat -> real,                     // the time before the n-th attempt
    attempt: nat -> Attempt,
    recording: Option<Fault>,             // a fault while the challenge is recorded
    ending: Connection -> Ending,         // what closing the n-th connection meets
    knownHosts: Option<string>)

  /** The errors a caller sees. */
  function Mapped(fault: Fault): Failure {
    match fault
    case Cancelled => Raised(Cancelled)
    case KeyImport => Coded(KeyInvalid)
    case PermissionDenied(publicKey) => Coded(if publicKey then NoUploadedKeyAccepted else Unreachable)
    case JumpConfig => Coded(ConfigInvalid)
    case BadValue => Coded(ConfigInvalid)
    case ChannelOpen => Coded(Unreachable)
    case ConnectionLost => Coded(Unreachable)
    case TimedOut => Coded(Unreachable)
    case OsError => Coded(Unreachable)
    case Unexpected => Raised(Unexpected)
  }

  /** One deadline for the whole chain. */
  function Deadline(w: World, timeout: real): real {
    w.started + timeout
  }

  // ---- what a chain is ---------------------------------------------------

  /** The first `n` connections, each opened through its predecessor with what was left of the deadline. */
  ghost predicate OpensChain(log: seq<Act>, endpoints: seq<Endpoint>, n: nat, w: World, deadline: real) {
    && n <= |endpoints| && |log| == n
    && forall i :: 0 <= i < n ==>
         log[i] == Opened(i, endpoints[i], if i == 0 then None else Some(i - 1), deadline - w.now(i))
         && log[i].timeout > 0.0
  }

  function ClosingActs(conn: Connection, e: Ending): seq<Act> {
    [if e.raises then CloseRaised(conn) else Closed(conn)] + (if e.wait == Over then [Gone(conn)] else [])
  }

  /** Every connection closed and waited for, the last one first, with what each close meets. */
  function Closings(connections: seq<Connection>, ending: Connection -> Ending): seq<Act> {
    if connections == [] then []
    else
      var last := connections[|connections| - 1];
      ClosingActs(last, ending(last)) + Closings(connections[..|connections| - 1], ending)
  }

  /** The connections asked to close, in order. */
  function Asked(log: seq<Act>): seq<Connection> {
    if log == [] then [] else AskedBy(log[0]) + Asked(log[1..])
  }

  function AskedBy(act: Act): seq<Connection> {
    if act.Closed? || act.CloseRaised? then [act.conn] else []
  }

  function Backwards(connections: seq<Connection>): seq<Connection> {
    if connections == [] then []
    else [connections[|connections| - 1]] + Backwards(connections[..|connections| - 1])
  }

  /** The first `n` connections opened. */
  function First(n: nat): (connections: seq<Connection>)
    ensures |connections| == n && forall i :: 0 <= i < n ==> connections[i] == i
  {
    seq(n, i => i)
  }

  /** Whether the n-th hop is reached in time and connects. */
  predicate HopOpens(w: World, deadline: real, n: nat) {
    w.now(n) < deadline && w.attempt(n) == Connects
  }

  function KeyCode(w: World, presented: Option<Presented>): Code {
    if presented.None? then Unreachable
    else if Matching(FileLines(w.knownHosts), KnownHostToken(presented.value.host, presented.value.port)) != [] then
      HostChanged
    else HostUnknown
  }

  /** known_hosts has an entry for the host and port that presented the key. */
  ghost predicate Recorded(knownHosts: Option<string>, presented: Presented) {
    exists line :: line in FileLines(knownHosts) && Names(line, KnownHostToken(presented.host, presented.port))
  }

  lemma KeyCodeReads(w: World, presented: Presented)
    ensures KeyCode(w, Some(presented)) == if Recorded(w.knownHosts, presented) then HostChanged else HostUnknown
  {
    var found := Matching(FileLines(w.knownHosts), KnownHostToken(presented.host, presented.port));
    if found != [] { assert found[0] in found; }
  }

  /** Why the n-th hop stops the chain. */
  function HopFailure(w: World, deadline: real, n: nat): Failure {
    if w.now(n) >= deadline then Mapped(TimedOut)
    else
      match w.attempt(n)
      case Connects => Mapped(Unexpected)
      case Faults(fault) => Mapped(fault)
      case KeyRefused(presented) =>
        if presented.Some? && w.recording.Some? then Mapped(w.recording.value) else Coded(KeyCode(w, presented))
  }

  /** The challenge the n-th hop leaves for the user. */
  function HopChallenge(w: World, deadline: real, n: nat): Option<Presented> {
    if w.now(n) < deadline && w.attempt(n).KeyRefused? && w.recording.None? then w.attempt(n).presented else None
  }

  ghost predicate HopsOpen(w: World, deadline: real, n: nat) {
    forall i :: 0 <= i < n ==> HopOpens(w, deadline, i)
  }

  /** The chain stopped at hop `n`: what was opened before is closed, once each and last first. */
  ghost predicate StopsAt(
    log: seq<Act>, endpoints: seq<Endpoint>, n: nat, w: World, deadline: real, error: Failure)
  {
    && n < |endpoints| && n <= |log| && HopsOpen(w, deadline, n) && !HopOpens(w, deadline, n)
    && OpensChain(log[..n], endpoints, n, w, deadline)
    && log[n..] == Closings(First(n), w.ending)
    && error == HopFailure(w, deadline, n)
  }

  // ---- the chain loop ----------------------------------------------------

  lemma {:induction false} AskedConcat(a: seq<Act>, b: seq<Act>)
    ensures Asked(a + b) == Asked(a) + Asked(b)
  {
    if a == [] {
      assert a + b == b;
    } else {
      hide AskedBy;
      assert (a + b)[0] == a[0] && (a + b)[1..] == a[1..] + b;
      AskedConcat(a[1..], b);
      assert AskedBy(a[0]) + (Asked(a[1..]) + Asked(b)) == (AskedBy(a[0]) + Asked(a[1..])) + Asked(b);
    }
  }

  /** Whatever the closes raise and however the waits end, every connection is asked to close exactly
      once, the last one first. */
  lemma {:induction false} AskedLastFirst(connections: seq<Connection>, ending: Connection -> Ending)
    ensures Asked(Closings(connections, ending)) == Backwards(connections)
  {
    if connections != [] {
      var last, rest := connections[|connections| - 1], connections[..|connections| - 1];
      var acts := ClosingActs(last, ending(last));
      AskedConcat(acts, Closings(rest, ending));
      assert Asked(acts[1..]) == [];
      AskedLastFirst(rest, ending);
    }
  }

  /** Closes every connection, last first. An error of close() is suppressed; an error, a timeout and a
      cancellation of wait_closed() end only the wait for that connection. */
  method CloseConnectionChain(connections: seq<Connection>, ending: Connection -> Ending, log: seq<Act>)
    returns (log': seq<Act>)
    ensures log' == log + Closings(connections, ending)
    ensures Asked(log') == Asked(log) + Backwards(connections)
  {
    log' := log;
    var left := connections;
    while left != []
      invariant left <= connections
      invariant log' + Closings(left, ending) == log + Closings(connections, ending)
    {
      var conn := left[|left| - 1];
      ghost var before, rest := log', Closings(left[..|left| - 1], ending);
      assert Closings(left, ending) == ClosingActs(conn, ending(conn)) + rest;
      if ending(conn).raises { log' := log' + [CloseRaised(conn)]; } else { log' := log' + [Closed(conn)]; }
      match ending(conn).wait {
        case Over => log' := log' + [Gone(conn)];
        case CutShort =>
        case Failed =>
      }
      assert log' + rest == before + (ClosingActs(conn, ending(conn)) + rest);
      left := left[..|left| - 1];
    }
    AskedConcat(log, Closings(connections, ending));
    AskedLastFirst(connections, ending);
  }

  /** The challenge is recorded whenever a key was presented and recording it does not fail. */
  method RecordHostKeyChallenge(w: World, presented: Option<Presented>)
    returns (code: Result<Code, Fault>, recorded: Option<Presented>)
    ensures recorded == if w.recording.None? then presented else None
    ensures presented.Some? && w.recording.Some? ==> code == Err(w.recording.value)
    ensures presented.None? ==> code == Ok(Unreachable)
    ensures presented.Some? && w.recording.None? ==>
      code == Ok(if Recorded(w.knownHosts, presented.value) then HostChanged else HostUnknown)
    ensures presented.None? || w.recording.None? ==> code == Ok(KeyCode(w, presented))
  {
    if presented.None? { return Ok(Unreachable), None; }
    KeyCodeReads(w, presented.value);
    var isChanged := IsKnownHost(w.knownHosts, presented.value.host, presented.value.port);
    if w.recording.Some? { return Err(w.recording.value), None; }
    return Ok(if isChanged then HostChanged else HostUnknown), presented;
  }

  lemma NothingOpened(endpoints: seq<Endpoint>, w: World, deadline: real)
    ensures OpensChain([], endpoints, 0, w, deadline) && HopsOpen(w, deadline, 0)
  {
  }

  lemma OneMoreOpened(log: seq<Act>, endpoints: seq<Endpoint>, n: nat, w: World, deadline: real)
    requires OpensChain(log, endpoints, n, w, deadline) && n < |endpoints|
    requires HopsOpen(w, deadline, n) && HopOpens(w, deadline, n)
    ensures var last := Opened(n, endpoints[n], if n == 0 then None else Some(n - 1), deadline - w.now(n));
      OpensChain(log + [last], endpoints, n + 1, w, deadline)
    ensures HopsOpen(w, deadline, n + 1)
  {
  }

  lemma ChainStops(log: seq<Act>, endpoints: seq<Endpoint>, n: nat, w: World, deadline: real)
    requires OpensChain(log, endpoints, n, w, deadline) && n < |endpoints|
    requires HopsOpen(w, deadline, n) && !HopOpens(w, deadline, n)
    ensures StopsAt(log + Closings(First(n), w.ending), endpoints, n, w, deadline, HopFailure(w, deadline, n))
    ensures !HopsOpen(w, deadline, |endpoints|)
  {
    var closings := Closings(First(n), w.ending);
    assert (log + closings)[..n] == log && (log + closings)[n..] == closings;
  }

  lemma HopFailureCases(w: World, deadline: real, n: nat)
    ensures w.now(n) >= deadline ==> HopFailure(w, deadline, n) == Mapped(TimedOut)
    ensures w.now(n) < deadline && w.attempt(n).Faults? ==> HopFailure(w, deadline, n) == Mapped(w.attempt(n).fault)
    ensures w.now(n) < deadline && w.attempt(n).KeyRefused? ==>
      var presented := w.attempt(n).presented;
      HopFailure(w, deadline, n)
        == if presented.Some? && w.recording.Some? then Mapped(w.recording.value) else Coded(KeyCode(w, presented))
  {
    hide KeyCode;
  }

  /** Connecting the n-th hop, or recording the key it presented, raises this. */
  predicate Meets(w: World, n: nat, fault: Fault) {
    || w.attempt(n) == Faults(fault)
    || (w.attempt(n).KeyRefused? && w.attempt(n).presented.Some? && w.recording == Some(fault))
  }

  /** The n-th hop refused a key that was presented and recorded. */
  predicate Presents(w: World, n: nat) {
    w.attempt(n).KeyRefused? && w.attempt(n).presented.Some? && w.recording.None?
  }

  /** What an error says about the hop that stopped the chain: each code has exactly these causes. */
  lemma FailureCodes(w: World, deadline: real, n: nat)
    requires !HopOpens(w, deadline, n)
    ensures var error, inTime := HopFailure(w, deadline, n), w.now(n) < deadline;
      && (error == Coded(NoUploadedKeyAccepted) <==> inTime && Meets(w, n, PermissionDenied(true)))
      && (error == Coded(KeyInvalid) <==> inTime && Meets(w, n, KeyImport))
      && (error == Coded(ConfigInvalid) <==> inTime && (Meets(w, n, JumpConfig) || Meets(w, n, BadValue)))
      && (error == Coded(HostChanged) <==>
            inTime && Presents(w, n) && Recorded(w.knownHosts, w.attempt(n).presented.value))
      && (error == Coded(HostUnknown) <==>
            inTime && Presents(w, n) && !Recorded(w.knownHosts, w.attempt(n).presented.value))
      && (error == Raised(Cancelled) <==> inTime && Meets(w, n, Cancelled))
      && (error == Raised(Unexpected) <==> inTime && Meets(w, n, Unexpected))
      && (error == Coded(Unreachable) <==>
            || !inTime || w.attempt(n) == KeyRefused(None) || Meets(w, n, PermissionDenied(false))
            || Meets(w, n, ChannelOpen) || Meets(w, n, ConnectionLost) || Meets(w, n, TimedOut)
            || Meets(w, n, OsError))
      && error != Coded(NoUploadedKeys)
  {
    hide KeyCode, Recorded;
    if w.attempt(n).KeyRefused? && w.attempt(n).presented.Some? { KeyCodeReads(w, w.attempt(n).presented.value); }
    if w.attempt(n) == KeyRefused(None) { NothingPresented(w); }
  }

  lemma NothingPresented(w: World)
    ensures KeyCode(w, None) == Unreachable
  {
  }

  lemma ChallengeCode(w: World, deadline: real, n: nat)
    ensures HopChallenge(w, deadline, n).Some? ==>
      HopFailure(w, deadline, n)
        == Coded(if Recorded(w.knownHosts, HopChallenge(w, deadline, n).value) then HostChanged else HostUnknown)
  {
    hide KeyCode, Recorded;
    if HopChallenge(w, deadline, n).Some? { KeyCodeReads(w, HopChallenge(w, deadline, n).value); }
  }

  lemma OpenedCount(log: seq<Act>, endpoints: seq<Endpoint>, n: nat, w: World, deadline: real)
    requires OpensChain(log, endpoints, n, w, deadline)
    ensures |log| == n
  {
  }

  /** Either one connection an endpoint, each opened through its predecessor, or every connection that
      was opened is closed again, once each and last first. */
  method OpenChain(endpoints: seq<Endpoint>, timeout: real, w: World)
    returns (result: Result<seq<Connection>, Failure>, log: seq<Act>, challenge: Option<Presented>)
    ensures var deadline := Deadline(w, timeout);
      && (result.Ok? <==> HopsOpen(w, deadline, |endpoints|))
      && (result.Ok? ==>
            && OpensChain(log, endpoints, |endpoints|, w, deadline)
            && result.value == First(|endpoints|))
      && (result.Ok? ==> challenge.None?)
      && (result.Err? ==> exists n: nat ::
            StopsAt(log, endpoints, n, w, deadline, result.error) && challenge == HopChallenge(w, deadline, n))
  {
    hide OpensChain, HopsOpen, StopsAt, HopFailure, KeyCode, Closings;
    var deadline := Deadline(w, timeout);
    NothingOpened(endpoints, w, deadline);
    var connections: seq<Connection> := [];
    log, challenge := [], None;
    var i := 0;
    while i < |endpoints|
      invariant 0 <= i <= |endpoints|
      invariant connections == First(i)
      invariant OpensChain(log, endpoints, i, w, deadline)
      invariant HopsOpen(w, deadline, i) && challenge.None?
    {
      var failure: Option<Failure> := None;
      HopFailureCases(w, deadline, i);
      var remaining := deadline - w.now(i);
      if remaining <= 0.0 {
        failure := Some(Mapped(TimedOut));
      } else {
        match w.attempt(i) {
          case Connects =>
            var tunnel := if connections != [] then Some(connections[|connections| - 1]) else None;
            OneMoreOpened(log, endpoints, i, w, deadline);
            log := log + [Opened(i, endpoints[i], tunnel, remaining)];
            connections := connections + [i];
          case KeyRefused(presented) =>
            var code;
            code, challenge := RecordHostKeyChallenge(w, presented);
            failure := Some(if code.Ok? then Coded(code.value) else Mapped(code.error));
          case Faults(fault) =>
            failure := Some(Mapped(fault));
        }
      }
      if failure.Some? {
        ChainStops(log, endpoints, i, w, deadline);
        OpenedCount(log, endpoints, i, w, deadline);
        assert connections == First(i);
        log := CloseConnectionChain(connections, w.ending, log);
        return Err(failure.value), log, challenge;
      }
      i := i + 1;
    }
    return Ok(connections), log, None;
  }

  /** `n` connections were opened and every one of them closed again, whatever the closes met. */
  ghost predicate AllClosed(log: seq<Act>, n: nat, ending: Connection -> Ending) {
    && n <= |log| && log[n..] == Closings(First(n), ending)
    && forall k :: 0 <= k < n ==> log[k].Opened? && log[k].conn == k
  }

  /** The log opens the alias's route, hop by hop, and the last connection is the alias's. */
  ghost predicate ReachesAlias(
    log: seq<Act>, connections: seq<Connection>, tree: Tree, alias: string, config: Config, w: World, deadline: real)
  {
    && Routes(tree, alias, config)
    && OpensChain(log, RouteOf(tree), |RouteOf(tree)|, w, deadline)
    && |connections| == |RouteOf(tree)| > 0
    && log[|log| - 1].endpoint.host == alias
  }

  /** connect_for_session: keys, route and chain. A chain that opens ends at the alias. */
  method ConnectForSession(alias: string, config: Config, timeout: real, w: World)
    returns (result: Result<seq<Connection>, Failure>, log: seq<Act>, challenge: Option<Presented>)
    ensures !w.keysUploaded <==> result == Err(Coded(NoUploadedKeys))
    ensures !w.keysUploaded ==> log == []
    ensures result.Ok? ==> exists tree :: ReachesAlias(log, result.value, tree, alias, config, w, Deadline(w, timeout))
    ensures w.keysUploaded && w.resolving.Some? ==> result == Err(Mapped(w.resolving.value)) && log == []
    ensures w.keysUploaded && w.resolving.None? && !(exists tree :: Routes(tree, alias, config)) ==>
      result == Err(Coded(ConfigInvalid)) && log == []
    ensures result.Err? ==> exists n: nat :: AllClosed(log, n, w.ending)
    ensures challenge.Some? ==>
      result == Err(Coded(if Recorded(w.knownHosts, challenge.value) then HostChanged else HostUnknown))
  {
    hide Routes, RouteOf, HopOpens, HopsOpen, HopFailure, Recorded, Meets, Presents;
    assert First(0) == [];
    assert AllClosed([], 0, w.ending);
    if !w.keysUploaded { return Err(Coded(NoUploadedKeys)), [], None; }
    if w.resolving.Some? { return Err(Mapped(w.resolving.value)), [], None; }
    var route := Resolve(alias, config);
    if route.Err? { return Err(Mapped(JumpConfig)), [], None; }
    result, log, challenge := OpenChain(route.value, timeout, w);
    ghost var tree :| Routes(tree, alias, config);
    RouteIsShort(tree, alias, config);
    if result.Err? {
      ghost var n: nat :| StopsAt(log, route.value, n, w, Deadline(w, timeout), result.error)
        && challenge == HopChallenge(w, Deadline(w, timeout), n);
      ChallengeCode(w, Deadline(w, timeout), n);
      FailureCodes(w, Deadline(w, timeout), n);
      assert forall k :: 0 <= k < n ==> log[k] == log[..n][k];
      assert AllClosed(log, n, w.ending);
    } else {
      assert ReachesAlias(log, result.value, tree, alias, config, w, Deadline(w, timeout));
    }
  }

  // ---- balance -----------------------------------------------------------

  function Weight(act: Act): int {
    match act
    case Opened(_, _, _, _) => 1
    case Closed(_) => -1
    case CloseRaised(_) => -1
    case Gone(_) => 0
  }

  /** How many times more often `conn` was opened than closed. */
  function Balance(log: seq<Act>, conn: Connection): int {
    if log == [] then 0
    else (if log[0].conn == conn then Weight(log[0]) else 0) + Balance(log[1..], conn)
  }

  lemma {:induction false} BalanceConcat(a: seq<Act>, b: seq<Act>, conn: Connection)
    ensures Balance(a + b, conn) == Balance(a, conn) + Balance(b, conn)
  {
    if a == [] {
      assert a + b == b;
    } else {
      assert (a + b)[1..] == a[1..] + b;
      BalanceConcat(a[1..], b, conn);
    }
  }

  lemma {:induction false} ClosingsBalance(n: nat, ending: Connection -> Ending, conn: Connection)
    ensures Balance(Closings(First(n), ending), conn) == if conn < n then -1 else 0
  {
    if n > 0 {
      assert First(n)[..n - 1] == First(n - 1);
      var acts := ClosingActs(n - 1, ending(n - 1));
      BalanceConcat(acts, Closings(First(n - 1), ending), conn);
      assert Balance(acts[1..], conn) == 0;
      ClosingsBalance(n - 1, ending, conn);
    }
  }

  lemma {:induction false} OpeningsBalance(log: seq<Act>, n: nat, conn: Connection)
    requires |log| == n && forall k :: 0 <= k < n ==> log[k].Opened? && log[k].conn == k
    ensures Balance(log, conn) == if conn < n then 1 else 0
  {
    if n > 0 {
      var last := log[n - 1];
      OpeningsBalance(log[..n - 1], n - 1, conn);
      assert log == log[..n - 1] + [last];
      BalanceConcat(log[..n - 1], [last], conn);
      assert [last][1..] == [];
    }
  }

  /** No failed chain leaves a connection that was not asked to close: opened as often as closed, whichever
      the connection and whatever the closes raise. */
  lemma FailedChainIsBalanced(log: seq<Act>, n: nat, ending: Connection -> Ending, conn: Connection)
    requires AllClosed(log, n, ending)
    ensures Balance(log, conn) == 0
  {
    assert log == log[..n] + log[n..];
    BalanceConcat(log[..n], log[n..], conn);
    OpeningsBalance(log[..n], n, conn);
    ClosingsBalance(n, ending, conn);
  }

  /** On a clock that never goes back, the time a hop is given never exceeds what its predecessor was
      given, nor what is left when it starts. */
  lemma TimeoutsShrink(log: seq<Act>, endpoints: seq<Endpoint>, n: nat, w: World, deadline: real, i: nat, j: nat)
    requires OpensChain(log, endpoints, n, w, deadline) && i <= j < n
    requires forall a: nat, b: nat :: a <= b ==> w.now(a) <= w.now(b)
    ensures 0.0 < log[j].timeout <= log[i].timeout
    ensures log[j].timeout + w.now(j) == deadline
  {
    assert w.now(i) <= w.now(j);
  }
}
