/** The known_hosts file: two scanners of its lines, and the trust operation that rewrites it. */
module KnownHosts {
  import opened Wrappers
  import opened Text

  const DEFAULT_PORT := 22

  function KnownHostToken(host: string, port: int): string {
    if port == DEFAULT_PORT then host else "[" + host + "]:" + IntText(port)
  }

  // ---- what a file says --------------------------------------------------

  /** A line is an entry for `token`: at least three fields, not a comment, and `token` among its hosts. */
  predicate Names(line: string, token: string) {
    var fields := Words(line);
    |fields| >= 3 && fields[0][0] != '#' && token in Split(fields[0], ',')
  }

  function FileLines(file: Option<string>): seq<string> {
    if file.None? then [] else SplitLines(ReadNewlines(file.value))
  }

  function Matching(lines: seq<string>, token: string): (found: seq<string>)
    ensures forall line :: line in found <==> line in lines && Names(line, token)
  {
    if lines == [] then []
    else if Names(lines[0], token) then [lines[0]] + Matching(lines[1..], token)
    else Matching(lines[1..], token)
  }

  function Others(lines: seq<string>, token: string): (found: seq<string>)
    ensures forall line :: line in found <==> line in lines && !Names(line, token)
  {
    if lines == [] then []
    else if Names(lines[0], token) then Others(lines[1..], token)
    else [lines[0]] + Others(lines[1..], token)
  }

  lemma {:induction false} MatchingConcat(a: seq<string>, b: seq<string>, token: string)
    ensures Matching(a + b, token) == Matching(a, token) + Matching(b, token)
  {
    hide Names;
    if a == [] {
      assert a + b == b;
    } else {
      assert (a + b)[1..] == a[1..] + b;
      MatchingConcat(a[1..], b, token);
    }
  }

  lemma {:induction false} OthersConcat(a: seq<string>, b: seq<string>, token: string)
    ensures Others(a + b, token) == Others(a, token) + Others(b, token)
  {
    hide Names;
    if a == [] {
      assert a + b == b;
    } else {
      assert (a + b)[1..] == a[1..] + b;
      OthersConcat(a[1..], b, token);
    }
  }

  lemma {:induction false} NoneNamed(lines: seq<string>, token: string)
    requires forall line :: line in lines ==> !Names(line, token)
    ensures Matching(lines, token) == [] && Others(lines, token) == lines
  {
    hide Names;
    if lines != [] {
      assert lines[0] in lines && forall line :: line in lines[1..] ==> line in lines;
      NoneNamed(lines[1..], token);
      assert lines == [lines[0]] + lines[1..];
    }
  }

  /** The scanners' own tests on the stripped line. */
  predicate Scanned(line: string, token: string) {
    var stripped := Strip(line);
    if stripped == "" || stripped[0] == '#' then false
    else
      var parts := Words(stripped);
      if |parts| < 3 then false else token in Split(parts[0], ',')
  }

  lemma ScannedIsNamed(line: string, token: string)
    ensures Scanned(line, token) == Names(line, token)
  {
    WordsStrip(line);
  }

  /** ssh_connection's scanner. */
  method IsKnownHost(file: Option<string>, host: string, port: int) returns (known: bool)
    ensures known <==> Matching(FileLines(file), KnownHostToken(host, port)) != []
  {
    if file.None? { return false; }
    var hostToken := KnownHostToken(host, port);
    var lines := SplitLines(ReadNewlines(file.value));
    var i := 0;
    while i < |lines|
      invariant 0 <= i <= |lines|
      invariant forall k :: 0 <= k < i ==> !Names(lines[k], hostToken)
    {
      ScannedIsNamed(lines[i], hostToken);
      var stripped := Strip(lines[i]);
      if stripped != "" && stripped[0] != '#' {
        var parts := Words(stripped);
        if |parts| >= 3 {
          var hostCandidates := Split(parts[0], ',');
          if hostToken in hostCandidates {
            assert lines[i] in Matching(lines, hostToken);
            return true;
          }
        }
      }
      i := i + 1;
    }
    NoneNamed(lines, hostToken);
    return false;
  }

  // ---- what a rewrite leaves ---------------------------------------------

  /** A token the scanners can read back from the line it is written on. */
  predicate TokenOk(token: string) {
    token != "" && Spaceless(token) && ',' !in token && token[0] != '#'
  }

  /** The hosts whose token can be read back. */
  lemma TokenOkHost(host: string, port: int)
    ensures TokenOk(KnownHostToken(host, port))
            <==> Spaceless(host) && ',' !in host && (port == 22 ==> host != "" && host[0] != '#')
  {
    var token := KnownHostToken(host, port);
    if port != DEFAULT_PORT {
      var tail := "]:" + IntText(port);
      assert token == "[" + host + tail;
      assert forall c :: c in tail ==> !IsSpace(c) && c != ',';
      assert forall c :: c in token <==> c == '[' || c in host || c in tail;
    }
  }

  lemma NeverNamed(line: string, token: string)
    requires !Spaceless(token) || ',' in token
    ensures !Names(line, token)
  {
    var fields := Words(line);
    if |fields| >= 3 && token in Split(fields[0], ',') {
      var parts := Split(fields[0], ',');
      var i :| 0 <= i < |parts| && parts[i] == token;
      JoinSplit(fields[0], ',');
      PartInJoin(parts, i, ',');
    }
  }

  lemma {:induction false} PartInJoin(parts: seq<string>, i: nat, sep: char)
    requires i < |parts|
    ensures forall c :: c in parts[i] ==> c in Join(parts, sep)
  {
    if i > 0 { PartInJoin(parts[1..], i - 1, sep); }
  }

  function EntryLine(token: string, algorithm: string, b64: string): string {
    token + " " + algorithm + " " + b64
  }

  predicate IsWord(s: string) {
    s != "" && Spaceless(s)
  }

  lemma EntryWords(token: string, algorithm: string, b64: string)
    requires Spaceless(token) && IsWord(algorithm) && IsWord(b64)
    ensures Words(EntryLine(token, algorithm, b64))
         == (if token == "" then [algorithm, b64] else [token, algorithm, b64])
  {
    hide Words, Spaceless, IsSpace;
    var last := " " + b64;
    var rest := " " + algorithm + last;
    assert b64 + "" == b64 && rest == " " + (algorithm + last);
    AfterSpace(b64);
    AfterSpace(algorithm + last);
    WordFirst(b64, "");
    WordFirst(algorithm, last);
    assert EntryLine(token, algorithm, b64) == token + rest;
    if token == "" {
      assert token + rest == rest;
    } else {
      WordFirst(token, rest);
    }
  }

  lemma AfterSpace(s: string)
    ensures Words(" " + s) == Words(s) && Words("") == [] && IsSpace(' ')
  {
    assert (" " + s)[1..] == s;
  }

  lemma EntryUnbroken(token: string, algorithm: string, b64: string)
    requires Spaceless(token) && IsWord(algorithm) && IsWord(b64)
    ensures Unbroken(EntryLine(token, algorithm, b64))
  {
  }

  /** An entry line names its token exactly if the token can be read back, whatever lines it makes. */
  lemma EntryNames(token: string, algorithm: string, b64: string)
    requires IsWord(algorithm) && IsWord(b64)
    ensures var text := ReadNewlines(EntryLine(token, algorithm, b64) + "\n");
      Matching(SplitLines(text), token) == if TokenOk(token) then [EntryLine(token, algorithm, b64)] else []
    ensures TokenOk(token) ==>
      SplitLines(ReadNewlines(EntryLine(token, algorithm, b64) + "\n")) == [EntryLine(token, algorithm, b64)]
  {
    var line := EntryLine(token, algorithm, b64);
    var text := ReadNewlines(line + "\n");
    if !Spaceless(token) || ',' in token {
      forall l | l in SplitLines(text) ensures !Names(l, token) { NeverNamed(l, token); }
      NoneNamed(SplitLines(text), token);
    } else {
      EntryWords(token, algorithm, b64);
      EntryUnbroken(token, algorithm, b64);
      ReadNewlinesAfter(line + "\n", "");
      assert line + "\n" + "" == line + "\n";
      SplitLinesAfter(line, "");
      assert SplitLines(text) == [line];
      if TokenOk(token) {
        SplitJoin([token], ',');
        assert Names(line, token);
      }
      assert [line][1..] == [];
      assert Matching([line], token) == if Names(line, token) then [line] else [];
    }
  }

  /** The text the rewrite puts in the file. */
  function Written(lines: seq<string>): string {
    if lines == [] then "" else lines[0] + "\n" + Written(lines[1..])
  }

  lemma {:induction false} WrittenConcat(lines: seq<string>, line: string)
    ensures Written(lines + [line]) == Written(lines) + line + "\n"
  {
    if lines == [] {
      assert Written([line]) == line + "\n" + Written([]);
    } else {
      assert (lines + [line])[1..] == lines[1..] + [line];
      WrittenConcat(lines[1..], line);
    }
  }

  lemma NoReturn(line: string)
    requires Unbroken(line)
    ensures '\r' !in line + "\n"
  {
  }

  lemma {:induction false} WrittenLines(lines: seq<string>, rest: string)
    requires forall i :: 0 <= i < |lines| ==> Unbroken(lines[i])
    ensures SplitLines(ReadNewlines(Written(lines) + rest)) == lines + SplitLines(ReadNewlines(rest))
  {
    hide IsBreak, SplitLines, ReadNewlines;
    if lines == [] {
      assert Written(lines) + rest == rest;
    } else {
      WrittenLines(lines[1..], rest);
      var tail := Written(lines[1..]) + rest;
      assert Written(lines) + rest == lines[0] + "\n" + tail;
      NoReturn(lines[0]);
      ReadNewlinesAfter(lines[0] + "\n", tail);
      SplitLinesAfter(lines[0], ReadNewlines(tail));
    }
  }

  function Rewritten(file: Option<string>, token: string, algorithm: string, b64: string): string {
    Written(Others(FileLines(file), token)) + (EntryLine(token, algorithm, b64) + "\n")
  }

  lemma OthersUnbroken(file: Option<string>, token: string)
    ensures forall i :: 0 <= i < |Others(FileLines(file), token)| ==> Unbroken(Others(FileLines(file), token)[i])
  {
    var others := Others(FileLines(file), token);
    forall i | 0 <= i < |others| ensures Unbroken(others[i]) { assert others[i] in others; }
  }

  /** What the file says after a rewrite: the one approved entry if the token can be read back, else no
      entry at all; and before it every line that did not name the token, unchanged and in order. */
  lemma RewriteIsExact(file: Option<string>, token: string, algorithm: string, b64: string)
    requires IsWord(algorithm) && IsWord(b64)
    ensures var lines := FileLines(Some(Rewritten(file, token, algorithm, b64)));
      && Matching(lines, token) == (if TokenOk(token) then [EntryLine(token, algorithm, b64)] else [])
      && Others(FileLines(file), token) <= lines
      && (TokenOk(token) ==> Others(lines, token) == Others(FileLines(file), token))
  {
    var others := Others(FileLines(file), token);
    var added := EntryLine(token, algorithm, b64) + "\n";
    OthersUnbroken(file, token);
    WrittenLines(others, added);
    EntryNames(token, algorithm, b64);
    MatchingConcat(others, SplitLines(ReadNewlines(added)), token);
    OthersConcat(others, SplitLines(ReadNewlines(added)), token);
    NoneNamed(others, token);
    if TokenOk(token) {
      var line := EntryLine(token, algorithm, b64);
      assert line in Matching([line], token);
      assert [line][1..] == [] && Others([line], token) == [];
    }
  }

  // ---- trust -------------------------------------------------------------

  datatype Challenge = Challenge(host: string, port: int, algorithm: string, publicKey: string)

  datatype TrustError =
    | NoChallenge | EndpointMismatch | KeyMismatch | NotOpenSsh | AlgorithmMismatch | AlreadyRecorded

  datatype Decision = Decision(sessionId: nat, host: string, port: int, publicKey: string, replace: bool)

  /** The decision is about the pending challenge and repeats the key it presented. */
  predicate Repeats(c: Challenge, d: Decision) {
    c.host == d.host && c.port == d.port && c.publicKey == d.publicKey
  }

  /** The key is an OpenSSH one of the algorithm that was presented. */
  predicate WellNamed(c: Challenge, d: Decision) {
    |Words(d.publicKey)| >= 2 && Words(d.publicKey)[0] == c.algorithm
  }

  ghost predicate Recorded(file: Option<string>, d: Decision) {
    exists line :: line in FileLines(file) && Names(line, KnownHostToken(d.host, d.port))
  }

  class HostTrust {
    var file: Option<string>                // None: the file does not exist
    var challenges: map<nat, Challenge>     // pending host keys by session

    constructor (file: Option<string>)
      ensures this.file == file && challenges == map[]
    {
      this.file, challenges := file, map[];
    }

    method RecordChallenge(sessionId: nat, challenge: Challenge)
      modifies this`challenges
      ensures challenges == old(challenges)[sessionId := challenge]
    {
      challenges := challenges[sessionId := challenge];
    }

    /** host_trust's scanner. */
    method ExistingEntryLines(host: string, port: int) returns (matching: seq<string>, remaining: seq<string>)
      ensures matching == Matching(FileLines(file), KnownHostToken(host, port))
      ensures remaining == Others(FileLines(file), KnownHostToken(host, port))
    {
      matching, remaining := [], [];
      assert Matching([], KnownHostToken(host, port)) == [] && Others([], KnownHostToken(host, port)) == [];
      hide Matching, Others, Names, Words;
      if file.None? { return; }
      var hostToken := KnownHostToken(host, port);
      var lines := SplitLines(ReadNewlines(file.value));
      var i := 0;
      while i < |lines|
        invariant 0 <= i <= |lines|
        invariant matching == Matching(lines[..i], hostToken)
        invariant remaining == Others(lines[..i], hostToken)
      {
        var line := lines[i];
        ScannedIsNamed(line, hostToken);
        assert lines[..i + 1] == lines[..i] + [line];
        MatchingConcat(lines[..i], [line], hostToken);
        OthersConcat(lines[..i], [line], hostToken);
        PartsOfOne(line, hostToken);
        i := i + 1;
        var stripped := Strip(line);
        if stripped == "" || stripped[0] == '#' {
          remaining := remaining + [line];
          continue;
        }
        var parts := Words(stripped);
        if |parts| < 3 {
          remaining := remaining + [line];
          continue;
        }
        var hostCandidates := Split(parts[0], ',');
        if hostToken in hostCandidates {
          matching := matching + [line];
        } else {
          remaining := remaining + [line];
        }
      }
      assert lines[..i] == lines;
    }

    /** The file becomes the given lines, each ended, and the new one. */
    method AtomicWrite(remainingLines: seq<string>, newLine: string)
      requires forall i :: 0 <= i < |remainingLines| ==> Unbroken(remainingLines[i])
      modifies this`file
      ensures file == Some(Written(remainingLines) + newLine)
    {
      var text := "";
      var i := 0;
      while i < |remainingLines|
        invariant 0 <= i <= |remainingLines|
        invariant text == Written(remainingLines[..i])
      {
        var line := remainingLines[i];
        WrittenConcat(remainingLines[..i], line);
        assert remainingLines[..i + 1] == remainingLines[..i] + [line];
        var ended := if line != "" && line[|line| - 1] == '\n' then line else line + "\n";
        assert line != "" ==> line[|line| - 1] in line;
        assert IsBreak('\n');
        assert text + ended == text + line + "\n";
        text := text + ended;
        i := i + 1;
      }
      assert remainingLines[..i] == remainingLines;
      file := Some(text + newLine);
    }

    method AppendEntry(host: string, port: int, algorithm: string, publicKeyB64: string)
      modifies this`file
      ensures file == Some(Rewritten(old(file), KnownHostToken(host, port), algorithm, publicKeyB64))
    {
      var _, remaining := ExistingEntryLines(host, port);
      var hostToken := KnownHostToken(host, port);
      var newLine := EntryLine(hostToken, algorithm, publicKeyB64) + "\n";
      OthersUnbroken(file, hostToken);
      AtomicWrite(remaining, newLine);
    }

    /** A refused trust changes neither file nor challenge; an accepted one leaves exactly the approved
        entry for the endpoint, if its token can be read back, and clears the challenge. */
    method Trust(d: Decision) returns (error: Option<TrustError>)
      modifies this
      ensures error == Some(NoChallenge) <==> d.sessionId !in old(challenges)
      ensures d.sessionId in old(challenges) ==>
        var c := old(challenges)[d.sessionId];
        && (error.None? <==> Repeats(c, d) && WellNamed(c, d) && (d.replace || !Recorded(old(file), d)))
        && (error == Some(EndpointMismatch) <==> c.host != d.host || c.port != d.port)
        && (error == Some(KeyMismatch) <==> c.host == d.host && c.port == d.port && c.publicKey != d.publicKey)
        && (error == Some(NotOpenSsh) <==> Repeats(c, d) && |Words(d.publicKey)| < 2)
        && (error == Some(AlreadyRecorded) <==>
              Repeats(c, d) && WellNamed(c, d) && !d.replace && Recorded(old(file), d))
      ensures error.Some? ==> file == old(file) && challenges == old(challenges)
      ensures error.None? ==>
        && challenges == old(challenges) - {d.sessionId}
        && var token, fields := KnownHostToken(d.host, d.port), Words(d.publicKey);
           var lines := FileLines(file);
           && file == Some(Rewritten(old(file), token, fields[0], fields[1]))
           && Matching(lines, token) == (if TokenOk(token) then [EntryLine(token, fields[0], fields[1])] else [])
           && Others(FileLines(old(file)), token) <= lines
           && (TokenOk(token) ==> Others(lines, token) == Others(FileLines(old(file)), token))
    {
      if d.sessionId !in challenges { return Some(NoChallenge); }
      var challenge := challenges[d.sessionId];
      if challenge.host != d.host || challenge.port != d.port { return Some(EndpointMismatch); }
      if challenge.publicKey != d.publicKey { return Some(KeyMismatch); }
      WordsStrip(d.publicKey);
      var parts := Words(Strip(d.publicKey));
      if |parts| < 2 { return Some(NotOpenSsh); }
      var algorithm, b64 := parts[0], parts[1];
      if algorithm != challenge.algorithm { return Some(AlgorithmMismatch); }
      var existing, _ := ExistingEntryLines(d.host, d.port);
      if existing != [] { assert existing[0] in existing; }
      if existing != [] && !d.replace { return Some(AlreadyRecorded); }
      AppendEntry(d.host, d.port, algorithm, b64);
      challenges := challenges - {d.sessionId};
      RewriteIsExact(old(file), KnownHostToken(d.host, d.port), algorithm, b64);
      return None;
    }
  }

  lemma PartsOfOne(line: string, token: string)
    ensures Matching([line], token) == if Names(line, token) then [line] else []
    ensures Others([line], token) == if Names(line, token) then [] else [line]
  {
    assert [line][1..] == [];
  }

  /** The scanners agree on every text, host and port: a key counts as changed, and replacing it must be
      asked for, in exactly the same cases. */
  method ScannersAgree(trust: HostTrust, host: string, port: int) returns (changed: bool, mustReplace: bool)
    ensures changed == mustReplace
    ensures changed <==> exists line :: line in FileLines(trust.file) && Names(line, KnownHostToken(host, port))
  {
    changed := IsKnownHost(trust.file, host, port);
    var matching, _ := trust.ExistingEntryLines(host, port);
    mustReplace := matching != [];
    if mustReplace { assert matching[0] in matching; }
  }

  /** A rewrite leaves exactly one entry for the endpoint just when its token can be read back. */
  lemma ExactlyWhenReadable(file: Option<string>, host: string, port: int, algorithm: string, b64: string)
    requires IsWord(algorithm) && IsWord(b64)
    ensures
      var token := KnownHostToken(host, port);
      Matching(FileLines(Some(Rewritten(file, token, algorithm, b64))), token) == [EntryLine(token, algorithm, b64)]
      <==> Spaceless(host) && ',' !in host && (port == 22 ==> host != "" && host[0] != '#')
  {
    RewriteIsExact(file, KnownHostToken(host, port), algorithm, b64);
    TokenOkHost(host, port);
  }
}
