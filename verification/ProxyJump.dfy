/** The ProxyJump value: its parser, the grammar it accepts, and a printer. */
module ProxyJump {
  import opened Wrappers
  import opened Text

  const MAX_PORT := 65535
  const MAX_INT_DIGITS := 4300   // int() refuses longer text

  datatype Hop = Hop(host: string, user: Option<string>, port: Option<int>)

  datatype JumpError =
    | EmptyValue | EmptyEndpoint | EmptyPart | HasWhitespace | BadDelimiter | NoneAmongOthers
    | PortNotDecimal | PortTooLong | PortOutOfRange
    | MalformedBracket | NotIpv6 | DataAfterBracket | UnmatchedBracket | UnbracketedIpv6

  // ---- the parser -------------------------------------------------------

  /** casefold() == "none". */
  predicate IsNone(s: string) {
    |s| == 4 && s[0] in "nN" && s[1] in "oO" && s[2] in "nN" && s[3] in "eE"
  }

  /** IPv6Address() accepts only text with colons; which of those is left to `valid`. */
  predicate IsIpv6(host: string, valid: string -> bool) {
    ':' in host && valid(host)
  }

  predicate IsControl(c: char) {
    (c as int) < 0x20
  }

  /** Neither whitespace nor control characters. */
  predicate Visible(s: string) {
    forall c :: c in s ==> !IsSpace(c) && !IsControl(c)
  }

  predicate LacksAny(s: string, delimiters: string) {
    forall c :: c in delimiters ==> c !in s
  }

  function ParsePort(text: string): Result<int, JumpError> {
    if text == "" || !AllDigits(text) then Err(PortNotDecimal)
    else if |text| > MAX_INT_DIGITS then Err(PortTooLong)
    else if 1 <= Decimal(text) <= MAX_PORT then Ok(Decimal(text))
    else Err(PortOutOfRange)
  }

  function ValidatePart(text: string, delimiters: string): Option<JumpError> {
    if text == "" then Some(EmptyPart)
    else if !Visible(text) then Some(HasWhitespace)
    else if !LacksAny(text, delimiters) then Some(BadDelimiter)
    else None
  }

  function ParseBracketed(text: string, user: Option<string>, valid: string -> bool): Result<Hop, JumpError>
    requires text != ""
  {
    var end := FirstIndexOf(text, ']');
    if end <= 1 || Count(text, '[') != 1 || Count(text, ']') != 1 then Err(MalformedBracket)
    else
      var host, suffix := text[1..end], text[end + 1..];
      if !IsIpv6(host, valid) then Err(NotIpv6)
      else if suffix == "" then Ok(Hop(host, user, None))
      else if suffix[0] != ':' then Err(DataAfterBracket)
      else
        match ParsePort(suffix[1..])
        case Ok(port) => Ok(Hop(host, user, Some(port)))
        case Err(e) => Err(e)
  }

  function CheckedHop(host: string, user: Option<string>, port: Option<int>): Result<Hop, JumpError> {
    match ValidatePart(host, ",@[]/")
    case Some(e) => Err(e)
    case None => Ok(Hop(host, user, port))
  }

  function ParsePlain(text: string, user: Option<string>): Result<Hop, JumpError> {
    if '[' in text || ']' in text then Err(UnmatchedBracket)
    else if Count(text, ':') > 1 then Err(UnbracketedIpv6)
    else
      var colon := LastIndexOf(text, ':');
      if colon < 0 then CheckedHop(text, user, None)
      else
        match ParsePort(text[colon + 1..])
        case Err(e) => Err(e)
        case Ok(port) => CheckedHop(text[..colon], user, Some(port))
  }

  function ParseHostPort(text: string, user: Option<string>, valid: string -> bool): Result<Hop, JumpError> {
    if text != "" && text[0] == '[' then ParseBracketed(text, user, valid) else ParsePlain(text, user)
  }

  function ParseEndpoint(text: string, valid: string -> bool): Result<Hop, JumpError> {
    if text == "" || !Spaceless(text) then Err(HasWhitespace)
    else
      var at := LastIndexOf(text, '@');
      if at < 0 then ParseHostPort(text, None, valid)
      else
        match ValidatePart(text[..at], ",")
        case Some(e) => Err(e)
        case None => ParseHostPort(text[at + 1..], Some(text[..at]), valid)
  }

  function ParseAll(parts: seq<string>, valid: string -> bool): Result<seq<Hop>, JumpError> {
    if parts == [] then Ok([])
    else
      match ParseEndpoint(parts[0], valid)
      case Err(e) => Err(e)
      case Ok(hop) =>
        match ParseAll(parts[1..], valid)
        case Err(e) => Err(e)
        case Ok(hops) => Ok([hop] + hops)
  }

  function Parse(value: Option<string>, valid: string -> bool): Result<seq<Hop>, JumpError> {
    if value.None? || IsNone(value.value) then Ok([])
    else if value.value == "" then Err(EmptyValue)
    else if !Spaceless(value.value) then Err(HasWhitespace)
    else
      var parts := Split(value.value, ',');
      if exists i :: 0 <= i < |parts| && parts[i] == "" then Err(EmptyEndpoint)
      else if exists i :: 0 <= i < |parts| && IsNone(parts[i]) then Err(NoneAmongOthers)
      else ParseAll(parts, valid)
  }

  // ---- the grammar ------------------------------------------------------

  predicate UserOk(user: string) {
    user != "" && Visible(user) && ',' !in user
  }

  predicate HostOk(host: string, valid: string -> bool) {
    if ':' in host then IsIpv6(host, valid) && Spaceless(host) && LacksAny(host, ",@[]")
    else host != "" && Visible(host) && LacksAny(host, ",@[]/")
  }

  predicate WellFormed(hop: Hop, valid: string -> bool) {
    && HostOk(hop.host, valid)
    && (hop.user.Some? ==> UserOk(hop.user.value))
    && (hop.port.Some? ==> 1 <= hop.port.value <= MAX_PORT)
  }

  /** An endpoint that would read as the keyword. */
  predicate SpelledNone(hop: Hop) {
    hop.user.None? && hop.port.None? && IsNone(hop.host)
  }

  function UserText(user: Option<string>): string {
    if user.Some? then user.value + "@" else ""
  }

  /** IPv6 hosts are bracketed. */
  function HostText(host: string): string {
    if ':' in host then "[" + host + "]" else host
  }

  function PortText(port: Option<int>, digits: string): string {
    if port.Some? then ":" + digits else ""
  }

  predicate PortSpelling(port: Option<int>, digits: string) {
    port.Some? ==> digits != "" && AllDigits(digits) && |digits| <= MAX_INT_DIGITS && Decimal(digits) == port.value
  }

  /** `text` is [user@]host[:port], with the port in any decimal spelling. */
  ghost predicate Spells(text: string, hop: Hop, valid: string -> bool) {
    && WellFormed(hop, valid)
    && exists digits :: PortSpelling(hop.port, digits)
         && text == UserText(hop.user) + HostText(hop.host) + PortText(hop.port, digits)
  }

  /** `text` is a comma-separated list of endpoint spellings, none of them the keyword. */
  ghost predicate SpellsAll(parts: seq<string>, hops: seq<Hop>, valid: string -> bool) {
    && |parts| == |hops| > 0
    && forall i :: 0 <= i < |hops| ==> Spells(parts[i], hops[i], valid) && !SpelledNone(hops[i])
  }

  // ---- one endpoint -----------------------------------------------------

  lemma PortAccepted(text: string, port: int)
    ensures ParsePort(text) == Ok(port) <==> 1 <= port <= MAX_PORT && PortSpelling(Some(port), text)
  {
  }

  /** host[:port] as the grammar writes it. */
  ghost predicate HostPortSpells(text: string, hop: Hop, valid: string -> bool, digits: string) {
    && HostOk(hop.host, valid)
    && (hop.port.Some? ==> 1 <= hop.port.value <= MAX_PORT)
    && PortSpelling(hop.port, digits)
    && text == HostText(hop.host) + PortText(hop.port, digits)
  }

  lemma BracketedHostOk(text: string, end: nat, valid: string -> bool)
    requires 1 < end < |text| && text[0] == '[' && end == FirstIndexOf(text, ']') && Count(text, '[') == 1
    requires '@' !in text && ',' !in text && Spaceless(text) && IsIpv6(text[1..end], valid)
    ensures HostOk(text[1..end], valid)
  {
    var host := text[1..end];
    assert text == "[" + text[1..];
    CountConcat("[", text[1..], '[');
    CountZero(text[1..], '[');
    assert host == text[1..][..end - 1] && host == text[..end][1..];
  }

  lemma BracketedIsSpelled(text: string, hop: Hop, valid: string -> bool) returns (digits: string)
    requires text != "" && text[0] == '[' && '@' !in text && ',' !in text && Spaceless(text)
    requires ParseBracketed(text, hop.user, valid) == Ok(hop)
    ensures HostPortSpells(text, hop, valid, digits)
  {
    hide HostOk, Spaceless, IsIpv6, ParsePort, Count;
    var end := FirstIndexOf(text, ']');
    var host, suffix := text[1..end], text[end + 1..];
    BracketedHostOk(text, end, valid);
    assert text == "[" + host + "]" + suffix;
    assert ':' in host by { Ipv6HasColon(host, valid); }
    if suffix == "" {
      digits := "";
    } else {
      digits := suffix[1..];
      assert suffix == ":" + digits;
      PortAccepted(digits, hop.port.value);
    }
  }

  lemma Ipv6HasColon(host: string, valid: string -> bool)
    requires IsIpv6(host, valid)
    ensures ':' in host
  {
  }

  lemma SpelledIsBracketed(text: string, hop: Hop, valid: string -> bool, digits: string)
    requires HostPortSpells(text, hop, valid, digits) && ':' in hop.host
    ensures text != "" && text[0] == '[' && ParseBracketed(text, hop.user, valid) == Ok(hop)
  {
    var suffix := PortText(hop.port, digits);
    assert text == "[" + hop.host + "]" + suffix;
    assert ("[" + hop.host) + ["]"[0]] + suffix == text;
    assert ']' !in "[" + hop.host;
    FirstIndexOfSplit("[" + hop.host, ']', suffix);
    var end := FirstIndexOf(text, ']');
    assert text[1..end] == hop.host && text[end + 1..] == suffix;
    BracketCounts(hop.host, suffix);
    if hop.port.Some? { PortAccepted(digits, hop.port.value); }
  }

  lemma BracketCounts(host: string, suffix: string)
    requires '[' !in host && ']' !in host && '[' !in suffix && ']' !in suffix
    ensures Count("[" + host + "]" + suffix, '[') == 1 && Count("[" + host + "]" + suffix, ']') == 1
  {
    forall c | c == '[' || c == ']' ensures Count("[" + host + "]" + suffix, c) == 1 {
      CountConcat("[" + host + "]", suffix, c);
      CountConcat("[" + host, "]", c);
      CountConcat("[", host, c);
      CountZero(host, c);
      CountZero(suffix, c);
    }
  }

  lemma CheckedHostOk(host: string, user: Option<string>, port: Option<int>, hop: Hop, valid: string -> bool)
    requires CheckedHop(host, user, port) == Ok(hop) && ':' !in host
    ensures hop == Hop(host, user, port) && HostOk(host, valid)
  {
    PartValid(host, ",@[]/");
  }

  lemma OneColonBefore(text: string, colon: nat)
    requires colon < |text| && text[colon] == ':' && Count(text, ':') <= 1
    ensures ':' !in text[..colon]
  {
    assert text == text[..colon] + text[colon..];
    CountConcat(text[..colon], text[colon..], ':');
    CountZero(text[..colon], ':');
  }

  lemma PlainWithPort(text: string, colon: nat, digits: string, hop: Hop, valid: string -> bool)
    requires colon < |text| && text[colon] == ':' && digits == text[colon + 1..] && ParsePort(digits).Ok?
    requires ':' !in text[..colon]
    requires CheckedHop(text[..colon], hop.user, Some(ParsePort(digits).value)) == Ok(hop)
    ensures HostPortSpells(text, hop, valid, digits)
  {
    hide CheckedHop, HostOk, ParsePort, AllDigits, Decimal;
    var port := ParsePort(digits).value;
    PortAccepted(digits, port);
    CheckedHostOk(text[..colon], hop.user, Some(port), hop, valid);
    assert text == text[..colon] + (":" + digits);
  }

  lemma PlainIsSpelled(text: string, hop: Hop, valid: string -> bool) returns (digits: string)
    requires ParsePlain(text, hop.user) == Ok(hop)
    ensures HostPortSpells(text, hop, valid, digits)
  {
    hide CheckedHop, HostOk, ParsePort, Count, LastIndexOf, AllDigits, Decimal, HostPortSpells;
    var colon := LastIndexOf(text, ':');
    if colon < 0 {
      digits := "";
      PlainWithoutPort(text, hop, valid);
    } else {
      digits := text[colon + 1..];
      OneColonBefore(text, colon);
      PlainWithPort(text, colon, digits, hop, valid);
    }
  }

  lemma PlainWithoutPort(text: string, hop: Hop, valid: string -> bool)
    requires CheckedHop(text, hop.user, None) == Ok(hop) && ':' !in text
    ensures HostPortSpells(text, hop, valid, "")
  {
    hide CheckedHop, HostOk;
    CheckedHostOk(text, hop.user, None, hop, valid);
    assert text == text + "";
  }

  lemma PlainHostLacks(host: string, valid: string -> bool)
    requires HostOk(host, valid) && ':' !in host
    ensures host != "" && '[' !in host && ']' !in host && ValidatePart(host, ",@[]/") == None
  {
    assert '[' in ",@[]/" && ']' in ",@[]/";
  }

  lemma DigitsLack(digits: string)
    requires AllDigits(digits)
    ensures '[' !in digits && ']' !in digits && ':' !in digits && '@' !in digits && ',' !in digits && Spaceless(digits)
  {
  }

  lemma OneColon(host: string, digits: string)
    requires ':' !in host && ':' !in digits
    ensures Count(host + [':'] + digits, ':') == 1
  {
    CountConcat(host + ":", digits, ':');
    CountConcat(host, ":", ':');
    CountZero(host, ':');
    CountZero(digits, ':');
  }

  lemma SpelledIsPlain(text: string, hop: Hop, valid: string -> bool, digits: string)
    requires HostPortSpells(text, hop, valid, digits) && ':' !in hop.host
    ensures text != "" && text[0] != '[' && ParsePlain(text, hop.user) == Ok(hop)
  {
    hide HostOk, ValidatePart, Count, ParsePort, AllDigits, Decimal;
    PlainHostLacks(hop.host, valid);
    if hop.port.None? {
      assert text == hop.host;
      CountZero(text, ':');
      assert LastIndexOf(text, ':') == -1;
    } else {
      DigitsLack(digits);
      assert text == hop.host + [':'] + digits;
      LastIndexOfSplit(hop.host, ':', digits);
      OneColon(hop.host, digits);
      assert text[..|hop.host|] == hop.host && text[|hop.host| + 1..] == digits;
      PortAccepted(digits, hop.port.value);
    }
  }

  lemma ParsedKeepsUser(text: string, user: Option<string>, hop: Hop, valid: string -> bool)
    ensures ParseHostPort(text, user, valid) == Ok(hop) ==> hop.user == user
  {
    hide ParseBracketed, ParsePlain;
    if text != "" && text[0] == '[' { BracketedKeepsUser(text, user, valid); } else { PlainKeepsUser(text, user); }
  }

  lemma BracketedKeepsUser(text: string, user: Option<string>, valid: string -> bool)
    requires text != ""
    ensures ParseBracketed(text, user, valid).Ok? ==> ParseBracketed(text, user, valid).value.user == user
  {
    hide ParsePort, IsIpv6, FirstIndexOf, Count;
  }

  lemma PlainKeepsUser(text: string, user: Option<string>)
    ensures ParsePlain(text, user).Ok? ==> ParsePlain(text, user).value.user == user
  {
    hide ParsePort, ValidatePart, LastIndexOf, Count, CheckedHop;
    CheckedKeepsUser(text, user, None);
    var colon := LastIndexOf(text, ':');
    if colon >= 0 && ParsePort(text[colon + 1..]).Ok? {
      CheckedKeepsUser(text[..colon], user, Some(ParsePort(text[colon + 1..]).value));
    }
  }

  lemma CheckedKeepsUser(host: string, user: Option<string>, port: Option<int>)
    ensures CheckedHop(host, user, port).Ok? ==> CheckedHop(host, user, port).value.user == user
  {
    hide ValidatePart;
  }

  lemma HostPortAccepted(text: string, user: Option<string>, hop: Hop, valid: string -> bool)
    requires '@' !in text && ',' !in text && Spaceless(text)
    ensures ParseHostPort(text, user, valid) == Ok(hop)
            <==> hop.user == user && exists digits :: HostPortSpells(text, hop, valid, digits)
  {
    hide ParseBracketed, ParsePlain, HostPortSpells, Spaceless;
    ParsedKeepsUser(text, user, hop, valid);
    if ParseHostPort(text, user, valid) == Ok(hop) {
      if text != "" && text[0] == '[' {
        var digits := BracketedIsSpelled(text, hop, valid);
      } else {
        var digits := PlainIsSpelled(text, hop, valid);
      }
    }
    if hop.user == user && exists digits :: HostPortSpells(text, hop, valid, digits) {
      var digits :| HostPortSpells(text, hop, valid, digits);
      if ':' in hop.host {
        SpelledIsBracketed(text, hop, valid, digits);
      } else {
        SpelledIsPlain(text, hop, valid, digits);
      }
    }
  }

  lemma PartValid(text: string, delimiters: string)
    ensures ValidatePart(text, delimiters).None? <==> text != "" && Visible(text) && LacksAny(text, delimiters)
  {
  }

  /** What the grammar allows after the user holds no '@', so the last '@' ends the user. */
  lemma HostPortHasNoAt(text: string, hop: Hop, valid: string -> bool, digits: string)
    requires HostPortSpells(text, hop, valid, digits)
    ensures '@' !in text && ',' !in text && Spaceless(text) && text != ""
  {
    assert '@' in ",@[]/" && ',' in ",@[]/" && '@' in ",@[]" && ',' in ",@[]";
    assert forall c :: c in digits && hop.port.Some? ==> !IsSpace(c) && c != '@' && c != ',';
  }

  /** The endpoint parser accepts exactly the grammar, and reads it as the hop it spells. */
  lemma EndpointAccepted(text: string, hop: Hop, valid: string -> bool)
    requires ',' !in text
    ensures ParseEndpoint(text, valid) == Ok(hop) <==> Spells(text, hop, valid)
  {
    if ParseEndpoint(text, valid) == Ok(hop) { ParsedIsSpelled(text, hop, valid); }
    if Spells(text, hop, valid) { SpelledIsParsed(text, hop, valid); }
  }

  lemma ParsedIsSpelled(text: string, hop: Hop, valid: string -> bool)
    requires ',' !in text && ParseEndpoint(text, valid) == Ok(hop)
    ensures Spells(text, hop, valid)
  {
    hide ParseHostPort, ValidatePart, HostOk, Visible;
    var at := LastIndexOf(text, '@');
    var rest := text[at + 1..];
    HostPortAccepted(rest, if at < 0 then None else Some(text[..at]), hop, valid);
    var digits :| HostPortSpells(rest, hop, valid, digits);
    if at < 0 {
      assert text == rest;
      assert rest == "" + HostText(hop.host) + PortText(hop.port, digits);
    } else {
      PartValid(text[..at], ",");
      assert ',' in ",";
      assert text == text[..at] + "@" + rest;
      assert text == UserText(hop.user) + HostText(hop.host) + PortText(hop.port, digits);
    }
  }

  lemma SpelledIsParsed(text: string, hop: Hop, valid: string -> bool)
    requires Spells(text, hop, valid)
    ensures ParseEndpoint(text, valid) == Ok(hop)
  {
    hide ParseEndpoint, ParseHostPort, HostOk, HostText, PortText, PortSpelling, Spaceless, Visible, IsNone;
    var digits :| PortSpelling(hop.port, digits)
      && text == UserText(hop.user) + HostText(hop.host) + PortText(hop.port, digits);
    var rest := HostText(hop.host) + PortText(hop.port, digits);
    assert HostPortSpells(rest, hop, valid, digits);
    HostPortHasNoAt(rest, hop, valid, digits);
    HostPortAccepted(rest, hop.user, hop, valid);
    if hop.user.None? {
      assert text == rest;
      WithoutUser(rest, hop, valid);
    } else {
      assert text == hop.user.value + ['@'] + rest;
      WithUser(hop.user.value, rest, hop, valid);
    }
  }

  lemma WithoutUser(rest: string, hop: Hop, valid: string -> bool)
    requires rest != "" && Spaceless(rest) && '@' !in rest && ParseHostPort(rest, None, valid) == Ok(hop)
    ensures ParseEndpoint(rest, valid) == Ok(hop)
  {
    hide ParseHostPort, Spaceless;
  }

  lemma WithUser(user: string, rest: string, hop: Hop, valid: string -> bool)
    requires UserOk(user) && Spaceless(rest) && '@' !in rest && ParseHostPort(rest, Some(user), valid) == Ok(hop)
    ensures ParseEndpoint(user + ['@'] + rest, valid) == Ok(hop)
  {
    hide ParseHostPort, Spaceless, Visible, ValidatePart;
    var text := user + ['@'] + rest;
    LastIndexOfSplit(user, '@', rest);
    assert text[..|user|] == user && text[|user| + 1..] == rest;
    UserValid(user, rest);
  }

  lemma UserValid(user: string, rest: string)
    requires UserOk(user) && Spaceless(rest)
    ensures ValidatePart(user, ",") == None && Spaceless(user + ['@'] + rest)
  {
  }

  // ---- the whole value --------------------------------------------------

  lemma {:induction false} ParseAllAccepted(parts: seq<string>, hops: seq<Hop>, valid: string -> bool)
    requires forall i :: 0 <= i < |parts| ==> ',' !in parts[i]
    ensures ParseAll(parts, valid) == Ok(hops)
            <==> |parts| == |hops| && forall i :: 0 <= i < |parts| ==> Spells(parts[i], hops[i], valid)
  {
    if parts != [] {
      var rest := parts[1..];
      if hops != [] {
        EndpointAccepted(parts[0], hops[0], valid);
        ParseAllAccepted(rest, hops[1..], valid);
        assert hops == [hops[0]] + hops[1..];
        assert forall i :: 1 <= i < |parts| ==> parts[i] == rest[i - 1];
        assert |parts| == |hops| ==> forall i :: 1 <= i < |parts| ==> hops[i] == hops[1..][i - 1];
      }
      if ParseEndpoint(parts[0], valid).Ok? && ParseAll(rest, valid).Ok? && hops != [] {
        var hop, others := ParseEndpoint(parts[0], valid).value, ParseAll(rest, valid).value;
        assert ([hop] + others)[1..] == others;
      }
    }
  }

  lemma NoneLetters(s: string)
    requires IsNone(s)
    ensures '@' !in s && ':' !in s && '[' !in s && ',' !in s
  {
    assert s == [s[0], s[1], s[2], s[3]];
  }

  lemma SpelledText(text: string, hop: Hop, valid: string -> bool)
    requires Spells(text, hop, valid)
    ensures text != "" && ',' !in text && Spaceless(text)
  {
    hide HostOk, Spaceless, Visible, HostText, PortText;
    var digits :| PortSpelling(hop.port, digits)
      && text == UserText(hop.user) + HostText(hop.host) + PortText(hop.port, digits);
    var rest := HostText(hop.host) + PortText(hop.port, digits);
    assert HostPortSpells(rest, hop, valid, digits);
    HostPortHasNoAt(rest, hop, valid, digits);
    if hop.user.Some? {
      assert text == hop.user.value + ['@'] + rest;
      UserValid(hop.user.value, rest);
    } else {
      assert text == rest;
    }
  }

  lemma SpellingMarks(text: string, hop: Hop, valid: string -> bool)
    requires Spells(text, hop, valid)
    ensures hop.user.Some? ==> '@' in text
    ensures hop.port.Some? ==> ':' in text
    ensures hop.user.None? && hop.port.None? ==> text == HostText(hop.host)
  {
    hide HostOk;
    var digits :| PortSpelling(hop.port, digits)
      && text == UserText(hop.user) + HostText(hop.host) + PortText(hop.port, digits);
    var head := UserText(hop.user) + HostText(hop.host);
    if hop.user.Some? { assert text[|hop.user.value|] == '@'; }
    if hop.port.Some? { assert text[|head|] == ':'; }
    if hop.user.None? && hop.port.None? { assert text == HostText(hop.host); }
  }

  lemma NoneIsBare(text: string, hop: Hop, valid: string -> bool)
    requires Spells(text, hop, valid) && IsNone(text)
    ensures SpelledNone(hop)
  {
    hide Spells, IsNone;
    NoneLetters(text);
    SpellingMarks(text, hop, valid);
    BracketInText(hop.host);
  }

  lemma BracketInText(host: string)
    ensures ':' in host ==> '[' in HostText(host)
    ensures ':' !in host ==> HostText(host) == host
  {
    if ':' in host { assert HostText(host)[0] == '['; }
  }

  lemma BareIsNone(text: string, hop: Hop, valid: string -> bool)
    requires Spells(text, hop, valid) && SpelledNone(hop)
    ensures IsNone(text)
  {
    hide HostOk, IsNone;
    NoneLetters(hop.host);
    assert text == "" + hop.host + "";
    assert text == hop.host;
  }

  /** The keyword spells only the bare hop of that name. */
  lemma SpelledNoneIsNone(text: string, hop: Hop, valid: string -> bool)
    requires Spells(text, hop, valid)
    ensures IsNone(text) <==> SpelledNone(hop)
    ensures text != "" && ',' !in text && Spaceless(text)
  {
    hide Spells, IsNone, Spaceless, SpelledNone;
    SpelledText(text, hop, valid);
    if IsNone(text) { NoneIsBare(text, hop, valid); }
    if SpelledNone(hop) { BareIsNone(text, hop, valid); }
  }

  lemma {:induction false} JoinSpaceless(parts: seq<string>)
    requires forall i :: 0 <= i < |parts| ==> Spaceless(parts[i])
    ensures Spaceless(Join(parts, ','))
    ensures |parts| > 1 ==> ',' in Join(parts, ',')
    ensures |parts| > 0 && parts[0] != "" ==> Join(parts, ',') != ""
  {
    if |parts| > 1 {
      JoinSpaceless(parts[1..]);
      assert Join(parts, ',')[|parts[0]|] == ',';
    }
  }

  lemma ListIsParsed(parts: seq<string>, hops: seq<Hop>, valid: string -> bool)
    requires SpellsAll(parts, hops, valid)
    ensures Parse(Some(Join(parts, ',')), valid) == Ok(hops)
  {
    hide Spells, IsNone, Spaceless, SpelledNone, Join, ParseAll;
    var text := Join(parts, ',');
    forall i | 0 <= i < |parts| ensures parts[i] != "" && ',' !in parts[i] && Spaceless(parts[i]) && !IsNone(parts[i]) {
      SpelledNoneIsNone(parts[i], hops[i], valid);
    }
    SplitJoin(parts, ',');
    JoinSpaceless(parts);
    ParseAllAccepted(parts, hops, valid);
    if IsNone(text) {
      NoneLetters(text);
      JoinOne(parts);
    }
  }

  lemma JoinOne(parts: seq<string>)
    requires |parts| == 1
    ensures Join(parts, ',') == parts[0]
  {
  }

  /** The parser accepts exactly the keyword and the comma-separated lists of the grammar. */
  lemma AcceptedExactly(text: string, hops: seq<Hop>, valid: string -> bool)
    ensures Parse(Some(text), valid) == Ok(hops)
            <==> (|| (IsNone(text) && hops == [])
                  || exists parts :: SpellsAll(parts, hops, valid) && text == Join(parts, ','))
  {
    hide Spells, IsNone, Spaceless, SpelledNone, Join, ParseAll;
    if Parse(Some(text), valid) == Ok(hops) && !IsNone(text) {
      var parts := Split(text, ',');
      JoinSplit(text, ',');
      ParseAllAccepted(parts, hops, valid);
      forall i | 0 <= i < |hops| ensures !SpelledNone(hops[i]) { SpelledNoneIsNone(parts[i], hops[i], valid); }
      assert SpellsAll(parts, hops, valid);
    }
    if exists parts :: SpellsAll(parts, hops, valid) && text == Join(parts, ',') {
      var parts :| SpellsAll(parts, hops, valid) && text == Join(parts, ',');
      ListIsParsed(parts, hops, valid);
    }
  }

  // ---- the printer ------------------------------------------------------

  function PrintHop(hop: Hop): string {
    UserText(hop.user) + HostText(hop.host)
      + PortText(hop.port, if hop.port.Some? && hop.port.value >= 0 then Digits(hop.port.value) else "")
  }

  function Print(hops: seq<Hop>): string {
    if hops == [] then "none" else Join(seq(|hops|, i requires 0 <= i < |hops| => PrintHop(hops[i])), ',')
  }

  predicate WellFormedList(hops: seq<Hop>, valid: string -> bool) {
    forall i :: 0 <= i < |hops| ==> WellFormed(hops[i], valid) && !SpelledNone(hops[i])
  }

  lemma PrintSpells(hop: Hop, valid: string -> bool)
    requires WellFormed(hop, valid)
    ensures Spells(PrintHop(hop), hop, valid)
  {
    hide HostOk;
    var digits := if hop.port.Some? then Digits(hop.port.value) else "";
    if hop.port.Some? { DecimalDigits(hop.port.value); }
    assert PortSpelling(hop.port, digits);
  }

  /** parse(print(hops)) == hops. */
  lemma PrintParses(hops: seq<Hop>, valid: string -> bool)
    requires WellFormedList(hops, valid)
    ensures Parse(Some(Print(hops)), valid) == Ok(hops)
  {
    if hops != [] {
      hide Spells, SpelledNone, WellFormed, PrintHop, Join;
      var parts := seq(|hops|, i requires 0 <= i < |hops| => PrintHop(hops[i]));
      forall i | 0 <= i < |hops| ensures Spells(parts[i], hops[i], valid) { PrintSpells(hops[i], valid); }
      ListIsParsed(parts, hops, valid);
    }
  }

  /** Every accepted value gives well-formed hops, and their reprint is read as the same hops. */
  lemma ReprintParses(value: Option<string>, hops: seq<Hop>, valid: string -> bool)
    requires Parse(value, valid) == Ok(hops)
    ensures WellFormedList(hops, valid)
    ensures Parse(Some(Print(hops)), valid) == Ok(hops)
  {
    hide HostOk, IsNone, SpelledNone, Parse;
    if value.Some? {
      AcceptedExactly(value.value, hops, valid);
    } else {
      NothingParses(valid);
    }
    PrintParses(hops, valid);
  }

  lemma NothingParses(valid: string -> bool)
    ensures Parse(None, valid) == Ok([])
  {
  }
}
