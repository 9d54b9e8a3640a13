/** Retrying an open after trusting the presented host key makes progress. */
module TrustProgress {
  import opened Wrappers
  import opened Text
  import opened KnownHosts
  import opened ProxyJump
  import opened Route
  import opened Chain

  /** The host and port an endpoint's key is checked for. */
  datatype Peer = Peer(host: string, port: nat)

  datatype PublicKey = PublicKey(algorithm: string, b64: string)

  /** The keys hosts present depend on host and port alone. */
  type Keys = Peer -> PublicKey

  function TokenOf(peer: Peer): string {
    KnownHostToken(peer.host, peer.port)
  }

  predicate Carries(line: string, token: string, key: PublicKey) {
    Names(line, token) && Words(line)[1] == key.algorithm && Words(line)[2] == key.b64
  }

  /** known_hosts has an entry for the peer with the key it presents. */
  ghost predicate Trusted(file: Option<string>, peer: Peer, keys: Keys) {
    exists line :: line in FileLines(file) && Carries(line, TokenOf(peer), keys(peer))
  }

  /** The peer's token can be read back. */
  predicate PeerOk(peer: Peer) {
    TokenOk(TokenOf(peer))
  }

  predicate BracketFree(peer: Peer) {
    '[' !in peer.host && ']' !in peer.host
  }

  /** Peers that share a token present the same key. */
  ghost predicate Consistent(peers: seq<Peer>, keys: Keys) {
    forall i, j :: 0 <= i < |peers| && 0 <= j < |peers| && TokenOf(peers[i]) == TokenOf(peers[j]) ==>
      keys(peers[i]) == keys(peers[j])
  }

  predicate KeyOk(key: PublicKey) {
    IsWord(key.algorithm) && IsWord(key.b64)
  }

  /** Every entry names one host. */
  ghost predicate OneHostPerLine(file: Option<string>) {
    forall line, a, b :: line in FileLines(file) && Names(line, a) && Names(line, b) ==> a == b
  }

  ghost predicate PeersOk(peers: seq<Peer>, keys: Keys) {
    forall i :: 0 <= i < |peers| ==> PeerOk(peers[i]) && KeyOk(keys(peers[i]))
  }

  ghost function UntrustedCount(file: Option<string>, peers: seq<Peer>, keys: Keys): nat {
    if peers == [] then 0
    else (if Trusted(file, peers[0], keys) then 0 else 1) + UntrustedCount(file, peers[1..], keys)
  }

  lemma TokenMarks(peer: Peer)
    requires PeerOk(peer) && BracketFree(peer)
    ensures TokenOf(peer) != "" && (TokenOf(peer)[0] == '[' <==> peer.port != DEFAULT_PORT)
    ensures peer.port != DEFAULT_PORT ==>
      && FirstIndexOf(TokenOf(peer), ']') == |peer.host| + 1
      && TokenOf(peer)[1..|peer.host| + 1] == peer.host
      && TokenOf(peer)[|peer.host| + 3..] == Digits(peer.port)
  {
    if peer.port == DEFAULT_PORT {
      DefaultToken(peer);
    } else {
      hide TokenOf, PeerOk, BracketFree;
      BracketedToken(peer);
    }
  }

  lemma BracketedToken(peer: Peer)
    requires BracketFree(peer) && peer.port != DEFAULT_PORT
    ensures TokenOf(peer) != "" && TokenOf(peer)[0] == '['
    ensures FirstIndexOf(TokenOf(peer), ']') == |peer.host| + 1 && |TokenOf(peer)| >= |peer.host| + 3
    ensures TokenOf(peer)[1..|peer.host| + 1] == peer.host
    ensures TokenOf(peer)[|peer.host| + 3..] == Digits(peer.port)
  {
    hide Digits, FirstIndexOf;
    var head, tail := "[" + peer.host, ":" + Digits(peer.port);
    assert TokenOf(peer) == head + [']'] + tail;
    FirstIndexOfSplit(head, ']', tail);
    assert TokenOf(peer)[|head| + 2..] == tail[1..] == Digits(peer.port);
  }

  lemma TokenInjective(a: Peer, b: Peer)
    requires PeerOk(a) && PeerOk(b) && BracketFree(a) && BracketFree(b) && TokenOf(a) == TokenOf(b)
    ensures a == b
  {
    hide KnownHostToken, TokenOk, Digits, Decimal;
    TokenMarks(a);
    TokenMarks(b);
    if a.port == DEFAULT_PORT {
      DefaultToken(a);
      DefaultToken(b);
    } else {
      DecimalDigits(a.port);
      DecimalDigits(b.port);
    }
  }

  lemma DefaultToken(peer: Peer)
    requires peer.port == DEFAULT_PORT
    ensures TokenOf(peer) == peer.host
  {
  }

  /** Hosts without brackets never share a token, so their keys cannot conflict. */
  lemma BracketFreeIsConsistent(peers: seq<Peer>, keys: Keys)
    requires PeersOk(peers, keys) && forall i :: 0 <= i < |peers| ==> BracketFree(peers[i])
    ensures Consistent(peers, keys)
  {
    forall i, j | 0 <= i < |peers| && 0 <= j < |peers| && TokenOf(peers[i]) == TokenOf(peers[j])
      ensures keys(peers[i]) == keys(peers[j])
    {
      TokenInjective(peers[i], peers[j]);
    }
  }

  ghost function Approved(file: Option<string>, peer: Peer, keys: Keys): Option<string> {
    Some(Rewritten(file, TokenOf(peer), keys(peer).algorithm, keys(peer).b64))
  }

  lemma ApprovedCarries(peer: Peer, keys: Keys)
    requires PeerOk(peer) && KeyOk(keys(peer))
    ensures Carries(EntryLine(TokenOf(peer), keys(peer).algorithm, keys(peer).b64), TokenOf(peer), keys(peer))
  {
    EntryWords(TokenOf(peer), keys(peer).algorithm, keys(peer).b64);
    SplitJoin([TokenOf(peer)], ',');
  }

  /** The lines of an approved file are the other peers' lines and the approved one. */
  lemma ApprovedLines(file: Option<string>, peer: Peer, keys: Keys)
    requires PeerOk(peer) && KeyOk(keys(peer))
    ensures forall line :: line in FileLines(Approved(file, peer, keys)) <==>
      (line in FileLines(file) && !Names(line, TokenOf(peer)))
      || line == EntryLine(TokenOf(peer), keys(peer).algorithm, keys(peer).b64)
  {
    var token, key := TokenOf(peer), keys(peer);
    var entry := EntryLine(token, key.algorithm, key.b64);
    RewriteIsExact(file, token, key.algorithm, key.b64);
    var lines := FileLines(Approved(file, peer, keys));
    assert entry in Matching(lines, token);
    forall line ensures line in lines <==> line in Others(FileLines(file), token) || line == entry {
      if line in lines && Names(line, token) { assert line in Matching(lines, token); }
      if line in lines && !Names(line, token) { assert line in Others(lines, token); }
    }
  }

  /** The approved peer is trusted from then on, and no other peer loses its entry. */
  lemma TrustKeepsOthers(file: Option<string>, peer: Peer, other: Peer, keys: Keys)
    requires PeerOk(peer) && KeyOk(keys(peer)) && OneHostPerLine(file)
    requires TokenOf(other) == TokenOf(peer) ==> keys(other) == keys(peer)
    requires other == peer || Trusted(file, other, keys)
    ensures Trusted(Approved(file, peer, keys), other, keys)
  {
    ApprovedLines(file, peer, keys);
    if TokenOf(other) == TokenOf(peer) {
      var entry := EntryLine(TokenOf(peer), keys(peer).algorithm, keys(peer).b64);
      ApprovedCarries(peer, keys);
      assert entry in FileLines(Approved(file, peer, keys));
    } else {
      var line :| line in FileLines(file) && Carries(line, TokenOf(other), keys(other));
      assert line in FileLines(Approved(file, peer, keys));
    }
  }

  /** Right after an approval a peer sharing the token is trusted exactly if the token can be read back
      and the peer presents the approved key. */
  lemma ApprovalTakesEffect(file: Option<string>, peer: Peer, other: Peer, keys: Keys)
    requires KeyOk(keys(peer)) && KeyOk(keys(other)) && TokenOf(other) == TokenOf(peer)
    ensures Trusted(Approved(file, peer, keys), other, keys) <==> PeerOk(peer) && keys(other) == keys(peer)
  {
    var token, key := TokenOf(peer), keys(peer);
    var lines := FileLines(Approved(file, peer, keys));
    RewriteIsExact(file, token, key.algorithm, key.b64);
    forall line | line in lines && Names(line, token)
      ensures PeerOk(peer) && line == EntryLine(token, key.algorithm, key.b64)
    {
      assert line in Matching(lines, token);
    }
    if PeerOk(peer) {
      ApprovedCarries(peer, keys);
      assert EntryLine(token, key.algorithm, key.b64) in Matching(lines, token);
    }
  }

  lemma EntryNamesOne(peer: Peer, keys: Keys, token: string)
    requires PeerOk(peer) && KeyOk(keys(peer))
    requires Names(EntryLine(TokenOf(peer), keys(peer).algorithm, keys(peer).b64), token)
    ensures token == TokenOf(peer)
  {
    EntryWords(TokenOf(peer), keys(peer).algorithm, keys(peer).b64);
    SplitJoin([TokenOf(peer)], ',');
  }

  lemma TrustKeepsOneHost(file: Option<string>, peer: Peer, keys: Keys)
    requires PeerOk(peer) && KeyOk(keys(peer)) && OneHostPerLine(file)
    ensures OneHostPerLine(Approved(file, peer, keys))
  {
    ApprovedLines(file, peer, keys);
    var after := Approved(file, peer, keys);
    var entry := EntryLine(TokenOf(peer), keys(peer).algorithm, keys(peer).b64);
    forall line, a, b | line in FileLines(after) && Names(line, a) && Names(line, b) ensures a == b {
      if line == entry {
        EntryNamesOne(peer, keys, a);
        EntryNamesOne(peer, keys, b);
      }
    }
  }

  /** No two lines name a host with different keys. */
  ghost predicate OneKeyPerToken(file: Option<string>) {
    forall a, b, token :: a in FileLines(file) && b in FileLines(file) && Names(a, token) && Names(b, token) ==>
      Words(a)[1] == Words(b)[1] && Words(a)[2] == Words(b)[2]
  }

  lemma TrustKeepsOneKey(file: Option<string>, peer: Peer, keys: Keys)
    requires PeerOk(peer) && KeyOk(keys(peer)) && OneKeyPerToken(file)
    ensures OneKeyPerToken(Approved(file, peer, keys))
  {
    ApprovedLines(file, peer, keys);
    ApprovedCarries(peer, keys);
    var entry := EntryLine(TokenOf(peer), keys(peer).algorithm, keys(peer).b64);
    var after := FileLines(Approved(file, peer, keys));
    forall a, b, token | a in after && b in after && Names(a, token) && Names(b, token)
      ensures Words(a)[1] == Words(b)[1] && Words(a)[2] == Words(b)[2]
    {
      if a == entry || b == entry { EntryNamesOne(peer, keys, token); }
    }
  }

  /** The file after a run of approvals. */
  ghost function ApprovedAll(file: Option<string>, approvals: seq<Peer>, keys: Keys): Option<string> {
    if approvals == [] then file
    else Approved(ApprovedAll(file, approvals[..|approvals| - 1], keys), approvals[|approvals| - 1], keys)
  }

  ghost predicate AllTrusted(file: Option<string>, peers: seq<Peer>, keys: Keys) {
    forall i :: 0 <= i < |peers| ==> Trusted(file, peers[i], keys)
  }

  lemma {:induction false} ApprovalsKeepOneKey(file: Option<string>, approvals: seq<Peer>, keys: Keys)
    requires PeersOk(approvals, keys) && OneHostPerLine(file) && OneKeyPerToken(file)
    ensures var after := ApprovedAll(file, approvals, keys); OneHostPerLine(after) && OneKeyPerToken(after)
  {
    hide OneHostPerLine, OneKeyPerToken, PeerOk, KeyOk, Approved;
    if approvals != [] {
      var before, last := approvals[..|approvals| - 1], approvals[|approvals| - 1];
      ApprovalsKeepOneKey(file, before, keys);
      TrustKeepsOneHost(ApprovedAll(file, before, keys), last, keys);
      TrustKeepsOneKey(ApprovedAll(file, before, keys), last, keys);
    }
  }

  /** One token has one trusted key. */
  lemma SharedTokenSharesKey(file: Option<string>, a: Peer, b: Peer, keys: Keys)
    requires OneKeyPerToken(file) && TokenOf(a) == TokenOf(b) && Trusted(file, a, keys) && Trusted(file, b, keys)
    ensures keys(a) == keys(b)
  {
    hide TokenOf, Names, FileLines;
  }

  /** Approving every peer once makes all of them trusted, if peers that share a token share a key. */
  lemma {:induction false} ApprovingAllSettles(file: Option<string>, peers: seq<Peer>, keys: Keys, n: nat)
    requires n <= |peers| && PeersOk(peers, keys) && Consistent(peers, keys) && OneHostPerLine(file)
    ensures var after := ApprovedAll(file, peers[..n], keys);
      OneHostPerLine(after) && AllTrusted(after, peers[..n], keys)
  {
    hide OneHostPerLine, Trusted, PeerOk, KeyOk, Approved, TokenOf;
    if n > 0 {
      ApprovingAllSettles(file, peers, keys, n - 1);
      assert peers[..n][..n - 1] == peers[..n - 1];
      var before := ApprovedAll(file, peers[..n - 1], keys);
      TrustKeepsOneHost(before, peers[n - 1], keys);
      forall i | 0 <= i < n ensures Trusted(ApprovedAll(file, peers[..n], keys), peers[..n][i], keys) {
        assert i < n - 1 ==> peers[..n - 1][i] == peers[i];
        TrustKeepsOthers(before, peers[n - 1], peers[i], keys);
      }
    }
  }

  ghost predicate SettledBy(file: Option<string>, approvals: seq<Peer>, peers: seq<Peer>, keys: Keys) {
    PeersOk(approvals, keys) && AllTrusted(ApprovedAll(file, approvals, keys), peers, keys)
  }

  /** Some run of approvals makes all peers trusted exactly when peers that share a token share a key. */
  lemma SettlesExactlyWhenConsistent(file: Option<string>, peers: seq<Peer>, keys: Keys)
    requires PeersOk(peers, keys) && OneHostPerLine(file) && OneKeyPerToken(file)
    ensures (exists approvals :: SettledBy(file, approvals, peers, keys)) <==> Consistent(peers, keys)
  {
    hide OneHostPerLine, OneKeyPerToken, PeersOk, Trusted, TokenOf;
    if approvals :| SettledBy(file, approvals, peers, keys) {
      ApprovalsKeepOneKey(file, approvals, keys);
      forall i, j | 0 <= i < |peers| && 0 <= j < |peers| && TokenOf(peers[i]) == TokenOf(peers[j])
        ensures keys(peers[i]) == keys(peers[j])
      {
        SharedTokenSharesKey(ApprovedAll(file, approvals, keys), peers[i], peers[j], keys);
      }
    }
    if Consistent(peers, keys) {
      ApprovingAllSettles(file, peers, keys, |peers|);
      assert peers[..|peers|] == peers;
      assert SettledBy(file, peers, peers, keys);
    }
  }

  /** Two configured names can share a token, one by spelling the other's brackets and port out; if their
      keys differ, no run of approvals makes both trusted. */
  lemma SharedTokenNeverSettles(file: Option<string>, approvals: seq<Peer>, keys: Keys)
    requires PeersOk(approvals, keys) && OneHostPerLine(file) && OneKeyPerToken(file)
    requires keys(Peer("[a]:2222", 22)) != keys(Peer("a", 2222))
    ensures var after := ApprovedAll(file, approvals, keys);
      !(Trusted(after, Peer("[a]:2222", 22), keys) && Trusted(after, Peer("a", 2222), keys))
  {
    var a, b := Peer("[a]:2222", 22), Peer("a", 2222);
    assert Digits(2222) == "2222";
    assert TokenOf(b) == TokenOf(a);
    hide OneHostPerLine, OneKeyPerToken, PeersOk, Trusted, TokenOf, Approved;
    ApprovalsKeepOneKey(file, approvals, keys);
    if Trusted(ApprovedAll(file, approvals, keys), a, keys) && Trusted(ApprovedAll(file, approvals, keys), b, keys) {
      SharedTokenSharesKey(ApprovedAll(file, approvals, keys), a, b, keys);
    }
  }

  // ---- hosts whose token cannot be read back -----------------------------

  /** Of the hosts the ProxyJump parser accepts, only those that start with '#' have a token that cannot be
      read back, and only on the default port. */
  lemma JumpHostsAreReadable(text: string, hop: Hop, port: int, valid: string -> bool)
    requires ',' !in text && ParseEndpoint(text, valid) == Ok(hop)
    ensures hop.host != ""
    ensures TokenOk(KnownHostToken(hop.host, port)) <==> port != 22 || hop.host[0] != '#'
  {
    hide ParseEndpoint, KnownHostToken, TokenOk;
    EndpointAccepted(text, hop, valid);
    TokenOkHost(hop.host, port);
    assert WellFormed(hop, valid);
  }

  /** The unreadable case happens: trusting the jump host "#h" on the default port has no effect. */
  lemma HashHostIsNeverTrusted(file: Option<string>, keys: Keys, valid: string -> bool)
    requires KeyOk(keys(Peer("#h", 22)))
    ensures ParseEndpoint("#h", valid) == Ok(Hop("#h", None, None))
    ensures var peer := Peer("#h", 22); !Trusted(Approved(file, peer, keys), peer, keys)
  {
    var peer := Peer("#h", 22);
    assert !PeerOk(peer);
    ApprovalTakesEffect(file, peer, peer, keys);
  }

  // ---- rounds ------------------------------------------------------------

  /** Each approval strictly lowers the number of endpoints without a matching key. */
  lemma {:induction false} TrustDecreases(file: Option<string>, peers: seq<Peer>, peer: Peer, keys: Keys)
    requires PeerOk(peer) && KeyOk(keys(peer)) && OneHostPerLine(file)
    requires forall i :: 0 <= i < |peers| && TokenOf(peers[i]) == TokenOf(peer) ==> keys(peers[i]) == keys(peer)
    ensures UntrustedCount(Approved(file, peer, keys), peers, keys) <= UntrustedCount(file, peers, keys)
    ensures peer in peers && !Trusted(file, peer, keys) ==>
      UntrustedCount(Approved(file, peer, keys), peers, keys) < UntrustedCount(file, peers, keys)
  {
    if peers != [] {
      TrustDecreases(file, peers[1..], peer, keys);
      if peers[0] == peer || Trusted(file, peers[0], keys) { TrustKeepsOthers(file, peer, peers[0], keys); }
    }
  }

  lemma {:induction false} CountBounds(file: Option<string>, peers: seq<Peer>, keys: Keys)
    ensures UntrustedCount(file, peers, keys) <= |peers|
    ensures (forall i :: 0 <= i < |peers| ==> Trusted(file, peers[i], keys)) <==> UntrustedCount(file, peers, keys) == 0
  {
    if peers != [] {
      CountBounds(file, peers[1..], keys);
      if forall i :: 0 <= i < |peers| ==> Trusted(file, peers[i], keys) {
        assert forall i :: 0 <= i < |peers[1..]| ==> peers[1..][i] == peers[i + 1];
      }
      if UntrustedCount(file, peers, keys) == 0 {
        assert forall i :: 1 <= i < |peers| ==> peers[i] == peers[1..][i - 1];
      }
    }
  }

  function KeyText(key: PublicKey): string {
    key.algorithm + " " + key.b64
  }

  lemma KeyTextWords(key: PublicKey)
    requires KeyOk(key)
    ensures Words(KeyText(key)) == [key.algorithm, key.b64]
  {
    EntryWords("", key.algorithm, key.b64);
    assert EntryLine("", key.algorithm, key.b64) == " " + KeyText(key);
    AfterSpace(KeyText(key));
  }

  /** What the client sees of a peer's key. */
  function PresentedBy(peer: Peer, keys: Keys): Presented {
    Presented(peer.host, peer.port, keys(peer).algorithm, KeyText(keys(peer)))
  }

  /** The hops check the keys presented against the file: none connects without a matching entry, and a key
      is refused only without one. Otherwise anything may happen. */
  ghost predicate Verifies(w: World, peers: seq<Peer>, keys: Keys, file: Option<string>) {
    && w.knownHosts == file
    && forall n :: 0 <= n < |peers| ==>
         && (w.attempt(n) == Connects ==> Trusted(file, peers[n], keys))
         && (w.attempt(n).KeyRefused? ==>
               !Trusted(file, peers[n], keys) && w.attempt(n) == KeyRefused(Some(PresentedBy(peers[n], keys))))
  }

  /** Nothing but a host key can go wrong. */
  ghost predicate Calm(w: World, timeout: real, n: nat) {
    w.recording.None? && forall i :: 0 <= i < n ==> w.now(i) < Deadline(w, timeout) && !w.attempt(i).Faults?
  }

  /** The world in which opening depends on the host keys alone. */
  ghost function KeysOnly(file: Option<string>, peers: seq<Peer>, keys: Keys): World {
    World(true, 0.0, None, (n: nat) => 0.0,
          (n: nat) =>
            if n < |peers| && !Trusted(file, peers[n], keys) then KeyRefused(Some(PresentedBy(peers[n], keys)))
            else Connects,
          None, (conn: Connection) => Ending(false, Over), file)
  }

  lemma KeysOnlyVerifies(file: Option<string>, peers: seq<Peer>, keys: Keys, timeout: real)
    requires timeout > 0.0
    ensures Verifies(KeysOnly(file, peers, keys), peers, keys, file)
    ensures Calm(KeysOnly(file, peers, keys), timeout, |peers|)
  {
    hide Trusted;
  }

  predicate HostKeyError(error: Failure) {
    error == Coded(HostUnknown) || error == Coded(HostChanged)
  }

  /** The challenge a failed chain leaves is for the first endpoint without a matching key, and a chain
      that leaves none did not fail host verification. */
  lemma ChallengeIsFirstUntrusted(
    log: seq<Act>, endpoints: seq<Endpoint>, n: nat, w: World, timeout: real, error: Failure,
    peers: seq<Peer>, keys: Keys)
    requires |peers| == |endpoints| && Verifies(w, peers, keys, w.knownHosts)
    requires StopsAt(log, endpoints, n, w, Deadline(w, timeout), error)
    ensures forall i :: 0 <= i < n ==> Trusted(w.knownHosts, peers[i], keys)
    ensures var challenge := HopChallenge(w, Deadline(w, timeout), n);
      && (challenge.Some? ==>
            challenge.value == PresentedBy(peers[n], keys) && !Trusted(w.knownHosts, peers[n], keys))
      && (challenge.Some? <==> HostKeyError(error))
      && (Calm(w, timeout, |endpoints|) ==> challenge.Some?)
  {
    hide OpensChain, Trusted, Matching;
    forall i | 0 <= i < n ensures Trusted(w.knownHosts, peers[i], keys) {
      assert HopOpens(w, Deadline(w, timeout), i);
    }
  }

  /** The challenge is for the first peer without a matching key. */
  ghost predicate ChallengesFirst(challenge: Presented, peers: seq<Peer>, keys: Keys, file: Option<string>) {
    exists n :: 0 <= n < |peers| && Challenges(challenge, peers, n, keys, file)
  }

  ghost predicate Challenges(challenge: Presented, peers: seq<Peer>, n: nat, keys: Keys, file: Option<string>)
    requires n < |peers|
  {
    && challenge == PresentedBy(peers[n], keys) && !Trusted(file, peers[n], keys)
    && AllTrusted(file, peers[..n], keys)
  }

  /** One open of the endpoints, whose host keys are checked against the file. */
  method OpenVerified(endpoints: seq<Endpoint>, timeout: real, w: World, ghost peers: seq<Peer>, ghost keys: Keys)
    returns (error: Option<Failure>, challenge: Option<Presented>)
    requires |peers| == |endpoints| && Verifies(w, peers, keys, w.knownHosts)
    ensures error.None? ==> AllTrusted(w.knownHosts, peers, keys)
    ensures challenge.Some? ==> ChallengesFirst(challenge.value, peers, keys, w.knownHosts)
    ensures challenge.Some? <==> error.Some? && HostKeyError(error.value)
    ensures Calm(w, timeout, |endpoints|) ==> (error.Some? <==> challenge.Some?)
  {
    hide StopsAt, Trusted, HopChallenge, HostKeyError, Calm, OpensChain;
    var result, log;
    result, log, challenge := OpenChain(endpoints, timeout, w);
    if result.Ok? {
      forall i | 0 <= i < |peers| ensures Trusted(w.knownHosts, peers[i], keys) {
        assert HopOpens(w, Deadline(w, timeout), i);
      }
      return None, None;
    }
    error := Some(result.error);
    ghost var n: nat :| StopsAt(log, endpoints, n, w, Deadline(w, timeout), result.error)
      && challenge == HopChallenge(w, Deadline(w, timeout), n);
    ChallengeIsFirstUntrusted(log, endpoints, n, w, timeout, result.error, peers, keys);
    if challenge.Some? {
      StopsWithin(log, endpoints, n, w, Deadline(w, timeout), result.error);
      assert Challenges(challenge.value, peers, n, keys, w.knownHosts);
    }
  }

  lemma StopsWithin(log: seq<Act>, endpoints: seq<Endpoint>, n: nat, w: World, deadline: real, error: Failure)
    requires StopsAt(log, endpoints, n, w, deadline, error)
    ensures n < |endpoints|
  {
  }

  /** The challenge is recorded and the user approves it. */
  method TrustPresented(trust: HostTrust, sessionId: nat, presented: Presented, ghost peer: Peer, ghost keys: Keys)
    requires PeerOk(peer) && KeyOk(keys(peer)) && presented == PresentedBy(peer, keys)
    modifies trust
    ensures trust.file == Approved(old(trust.file), peer, keys)
  {
    hide FileLines, Matching, Others, Names, TokenOk, Written, EntryLine, Words;
    KeyTextWords(keys(peer));
    var Presented(host, port, algorithm, publicKey) := presented;
    trust.RecordChallenge(sessionId, Challenge(host, port, algorithm, publicKey));
    var error := trust.Trust(Decision(sessionId, host, port, publicKey, true));
  }

  /** Opening, trusting and retrying until an open leaves no challenge. Its k-th open runs in `worlds(k)`
      with the file of that moment, and every challenge is the one the chain loop left. */
  method TrustAndRetry(
    trust: HostTrust, sessionId: nat, endpoints: seq<Endpoint>, timeout: real, worlds: (nat, Option<string>) -> World,
    ghost peers: seq<Peer>, ghost keys: Keys)
    returns (rounds: nat, error: Option<Failure>)
    requires |peers| == |endpoints| && PeersOk(peers, keys) && Consistent(peers, keys) && OneHostPerLine(trust.file)
    requires forall k, file :: Verifies(worlds(k, file), peers, keys, file)
    modifies trust
    ensures error.None? ==> AllTrusted(trust.file, peers, keys)
    ensures error.Some? ==> !HostKeyError(error.value)
    ensures (forall k, file :: Calm(worlds(k, file), timeout, |endpoints|)) ==> error.None?
    ensures rounds <= UntrustedCount(old(trust.file), peers, keys) <= |peers|
  {
    hide Trusted, UntrustedCount, OneHostPerLine, PeerOk, KeyOk, Rewritten, Calm, HostKeyError, AllTrusted;
    hide PresentedBy;
    rounds := 0;
    CountBounds(trust.file, peers, keys);
    var challenge;
    assert Verifies(worlds(rounds, trust.file), peers, keys, trust.file);
    error, challenge := OpenVerified(endpoints, timeout, worlds(rounds, trust.file), peers, keys);
    while challenge.Some?
      invariant OneHostPerLine(trust.file)
      invariant error.None? ==> AllTrusted(trust.file, peers, keys)
      invariant challenge.Some? ==> ChallengesFirst(challenge.value, peers, keys, trust.file)
      invariant challenge.Some? <==> error.Some? && HostKeyError(error.value)
      invariant Calm(worlds(rounds, trust.file), timeout, |endpoints|) ==> (error.Some? <==> challenge.Some?)
      invariant rounds + UntrustedCount(trust.file, peers, keys) <= UntrustedCount(old(trust.file), peers, keys)
      decreases UntrustedCount(trust.file, peers, keys), challenge.Some?
    {
      ghost var n :| 0 <= n < |peers| && Challenges(challenge.value, peers, n, keys, trust.file);
      TrustDecreases(trust.file, peers, peers[n], keys);
      TrustKeepsOneHost(trust.file, peers[n], keys);
      TrustPresented(trust, sessionId, challenge.value, peers[n], keys);
      rounds := rounds + 1;
      assert Verifies(worlds(rounds, trust.file), peers, keys, trust.file);
      error, challenge := OpenVerified(endpoints, timeout, worlds(rounds, trust.file), peers, keys);
    }
  }

  function PeersOf(route: seq<Endpoint>, peerOf: Endpoint -> Peer): (peers: seq<Peer>)
    ensures |peers| == |route| && forall i :: 0 <= i < |route| ==> peers[i] == peerOf(route[i])
  {
    seq(|route|, i requires 0 <= i < |route| => peerOf(route[i]))
  }

  /** The peers of the alias's route have readable tokens and keys that can be written down, and those that
      share a token share a key. */
  ghost predicate RouteTrustable(alias: string, config: Config, peerOf: Endpoint -> Peer, keys: Keys) {
    forall tree :: Routes(tree, alias, config) ==>
      var peers := PeersOf(RouteOf(tree), peerOf); PeersOk(peers, keys) && Consistent(peers, keys)
  }

  /** For any alias that resolves, at most nine rounds of trusting end the host-key errors of its route. */
  method NineRoundsSuffice(
    trust: HostTrust, sessionId: nat, alias: string, config: Config, timeout: real,
    worlds: (nat, Option<string>) -> World, peerOf: Endpoint -> Peer, ghost keys: Keys)
    returns (rounds: nat, route: Result<seq<Endpoint>, RouteError>, error: Option<Failure>)
    requires RouteTrustable(alias, config, peerOf, keys) && OneHostPerLine(trust.file)
    requires forall tree, k, file :: Routes(tree, alias, config) ==>
      Verifies(worlds(k, file), PeersOf(RouteOf(tree), peerOf), keys, file)
    modifies trust
    ensures rounds <= 9
    ensures route.Ok? && error.None? ==> AllTrusted(trust.file, PeersOf(route.value, peerOf), keys)
    ensures error.Some? ==> !HostKeyError(error.value)
    ensures route.Ok? && (forall k, file :: Calm(worlds(k, file), timeout, |route.value|)) ==> error.None?
  {
    hide Routes, RouteOf, OneHostPerLine, AllTrusted, PeersOk, Consistent, UntrustedCount;
    hide Calm, HostKeyError, Verifies;
    rounds, error := 0, None;
    route := Resolve(alias, config);
    if route.Ok? {
      ghost var tree :| Routes(tree, alias, config) && route.value == RouteOf(tree);
      RouteIsShort(tree, alias, config);
      ghost var peers := PeersOf(route.value, peerOf);
      rounds, error := TrustAndRetry(trust, sessionId, route.value, timeout, worlds, peers, keys);
    }
  }
}
