/**
 FinIO sessions: the decisions of src/finio/exchange.ts, the in-memory client of
 src/finio/MockFinioClient.ts and the self-contained tokens of src/finio/sessionStore.ts. The
 signature is an abstract function to texts without a hyphen; clock readings are parameters.
 */
module FinioSessions {
  import opened Basics
  import opened Digits
  import opened JsonValues

  const TTL: nat := 300_000

  const FOCUS_VERSIONS := ["1.0", "1.1", "1.2", "1.3", "1.4", "1.5"]

  const DRAFT_VERSIONS := ["1.5"]

  const SUPPORTED_VERSIONS := ["1.0", "1.1", "1.2", "1.3", "1.4"]

  const OPERATIONS := ["finio.export"]

  datatype Failure = InvalidRequest | VersionUnsupported | InvalidSession

  datatype Request = Request(agentId: string, capabilities: seq<string>, version: string, nonce: string)

  // ------------------------------------------------------------- the exchange

  function Negotiate(version: string): Result<string, Failure> {
    if version in SUPPORTED_VERSIONS then Ok(version) else Err(VersionUnsupported)
  }

  predicate AllTexts(v: Json) { v.Array? && forall i :: 0 <= i < |v.items| ==> v.items[i].Text? }

  /** The checks on a handshake body, in their order. */
  function ParseHandshake(body: Json): Result<Request, Failure> {
    if !body.Object? && !body.Array? then Err(InvalidRequest)
    else
      var agentId, nonce := Get(body, "agentId"), Get(body, "nonce");
      var capabilities, version := Get(body, "capabilities"), Get(body, "focusVersion");
      if !agentId.Text? || agentId.text == "" then Err(InvalidRequest)
      else if !nonce.Text? || nonce.text == "" then Err(InvalidRequest)
      else if !AllTexts(capabilities) then Err(InvalidRequest)
      else if !version.Text? then Err(InvalidRequest)
      else Ok(Request(agentId.text, Words(capabilities.items), version.text, nonce.text))
  }

  /** The operations both sides know, in this side's order. */
  function Accepted(requested: seq<string>): seq<string> {
    if OPERATIONS[0] in requested then OPERATIONS else []
  }

  /** What either side agrees to: the version and nonce of a session. */
  datatype Agreement = Agreement(version: string, nonce: string, accepts: seq<string>)

  function Agree(body: Json): Result<Agreement, Failure> {
    match ParseHandshake(body)
    case Err(e) => Err(e)
    case Ok(request) =>
      match Negotiate(request.version)
      case Err(e) => Err(e)
      case Ok(version) => Ok(Agreement(version, request.nonce, Accepted(request.capabilities)))
  }

  /** A text that says something. */
  predicate Says(v: Json) { v.Text? && |v.text| > 0 }

  /** The body of a handshake: who asks, with which nonce, for which operations and which version. */
  predicate IsHandshake(body: Json) {
    && body.Object? && Says(Get(body, "agentId")) && Says(Get(body, "nonce"))
    && Get(body, "capabilities").Array?
    && (forall i :: 0 <= i < |Get(body, "capabilities").items| ==> Get(body, "capabilities").items[i].Text?)
    && Get(body, "focusVersion").Text?
  }

  /** A handshake is agreed exactly when it is well formed and asks for a ratified version. */
  lemma AgreesExactlyWhen(body: Json)
    ensures match Agree(body)
            case Ok(a) =>
              IsHandshake(body) && a.version in ["1.0", "1.1", "1.2", "1.3", "1.4"]
              && Get(body, "focusVersion") == Text(a.version) && Get(body, "nonce") == Text(a.nonce)
            case Err(InvalidRequest) => !IsHandshake(body)
            case Err(VersionUnsupported) =>
              IsHandshake(body) && Get(body, "focusVersion").text !in ["1.0", "1.1", "1.2", "1.3", "1.4"]
            case Err(InvalidSession) => false
  {
  }

  /** The version agreed is the one requested, and never a draft. */
  lemma AgreedVersionIsRatified(body: Json)
    requires Agree(body).Ok?
    ensures Text(Agree(body).value.version) == Get(body, "focusVersion")
    ensures Agree(body).value.version in FOCUS_VERSIONS && Agree(body).value.version !in DRAFT_VERSIONS
    ensures forall op :: op in Agree(body).value.accepts <==>
              op in OPERATIONS && Text(op) in Get(body, "capabilities").items
  {
    var version := Agree(body).value.version;
    assert version in SUPPORTED_VERSIONS;
    var items := Get(body, "capabilities").items;
    forall op: string
      ensures op in Words(items) <==> Text(op) in items
    {
      if op in Words(items) {
        var i :| 0 <= i < |items| && Words(items)[i] == op;
        assert items[i] == Text(op);
      }
      if Text(op) in items {
        var i :| 0 <= i < |items| && items[i] == Text(op);
        assert Words(items)[i] == op;
      }
    }
  }

  // --------------------------------------------------------- the mock client

  datatype Session = Session(expiresAt: nat, version: string)

  function MockId(version: string, nonce: string): string { "mock." + version + "." + nonce }

  /** Session ids of different versions or different nonces never collide. */
  lemma MockIdsDoNotCollide(v: string, n: string, w: string, m: string)
    requires v in SUPPORTED_VERSIONS && w in SUPPORTED_VERSIONS
    ensures MockId(v, n) == MockId(w, m) <==> v == w && n == m
  {
    var a, b := MockId(v, n), MockId(w, m);
    assert |v| == 3 && |w| == 3;
    assert a[5..8] == v && b[5..8] == w;
    assert a[9..] == n && b[9..] == m;
  }

  class MockFinioClient {
    var sessions: map<string, Session>

    constructor ()
      ensures sessions == map[]
    {
      sessions := map[];
    }

    method Handshake(now: nat, body: Json) returns (r: Result<(string, Agreement), Failure>)
      modifies this
      ensures r == match Agree(body)
                   case Err(e) => Err(e)
                   case Ok(a) => Ok(("mock." + a.version + "." + a.nonce, a))
      ensures sessions == match Agree(body)
                          case Err(_) => old(sessions)
                          case Ok(a) => old(sessions)[MockId(a.version, a.nonce)
                                                            := Session(now + 5 * 60 * 1000, a.version)]
    {
      var parsed := ParseHandshake(body);
      if parsed.Err? {
        return Err(parsed.error);
      }
      var negotiated := Negotiate(parsed.value.version);
      if negotiated.Err? {
        return Err(negotiated.error);
      }
      var expiresAt := now + TTL;
      var id := MockId(negotiated.value, parsed.value.nonce);
      sessions := sessions[id := Session(expiresAt, negotiated.value)];
      return Ok((id, Agreement(negotiated.value, parsed.value.nonce, Accepted(parsed.value.capabilities))));
    }

    /** The version to export, or a refusal; an expired session is forgotten. */
    method Export(now: nat, id: string) returns (r: Result<string, Failure>)
      modifies this
      ensures r == MockVerdict(old(sessions), now, id)
      ensures sessions == MockAfterExport(old(sessions), now, id)
    {
      if id !in sessions || now > sessions[id].expiresAt {
        sessions := sessions - {id};
        return Err(InvalidSession);
      }
      return Ok(sessions[id].version);
    }
  }

  function MockVerdict(sessions: map<string, Session>, now: nat, id: string): Result<string, Failure> {
    if id !in sessions || now > sessions[id].expiresAt then Err(InvalidSession) else Ok(sessions[id].version)
  }

  function MockAfterExport(sessions: map<string, Session>, now: nat, id: string): map<string, Session> {
    if id !in sessions || now > sessions[id].expiresAt then sessions - {id} else sessions
  }

  // ----------------------------------------------------------- signed tokens

  datatype Check = Valid(version: string) | MalformedToken | BadSignature | Expired

  /** A signature has no separator in it. */
  ghost predicate Signer(sign: string -> string) { forall s :: Without(sign(s), '-') }

  function Payload(expiresAt: nat, version: string): string { Print(expiresAt) + "-" + version }

  function Token(sign: string -> string, now: nat, version: string): string {
    Payload(now + TTL, version) + "-" + sign(Payload(now + TTL, version))
  }

  /** `split('-')` into exactly three fields, or nothing. */
  function Fields(token: string): Option<(string, string, string)> {
    var first := Before(token, '-');
    if |first| == |token| then None
    else
      var rest := token[|first| + 1..];
      var second := Before(rest, '-');
      if |second| == |rest| then None
      else
        var third := rest[|second| + 1..];
        if Before(third, '-') == third then Some((first, second, third)) else None
  }

  function Validate(sign: string -> string, now: nat, token: string): Check {
    match Fields(token)
    case None => MalformedToken
    case Some((expires, version, signature)) =>
      if version !in FOCUS_VERSIONS || expires == "" || !AllDigits(expires) then MalformedToken
      else if signature != sign(expires + "-" + version) then BadSignature
      else if now > Parse(expires) then Expired
      else Valid(version)
  }

  lemma WholeWhenWithout(s: string)
    requires Without(s, '-')
    ensures Before(s, '-') == s
  {
    BeforeUnique(s, '-', "");
    assert s + "" == s;
  }

  lemma FieldsOf(a: string, b: string, c: string)
    requires Without(a, '-') && Without(b, '-') && Without(c, '-')
    ensures Fields(a + ("-" + (b + ("-" + c)))) == Some((a, b, c))
  {
    hide Before, Without;
    var inner := "-" + c;
    var rest := b + inner;
    var outer := "-" + rest;
    BeforeUnique(a, '-', outer);
    BeforeUnique(b, '-', inner);
    WholeWhenWithout(c);
    Cut(a, rest);
    Cut(b, c);
  }

  lemma Cut(a: string, rest: string)
    ensures (a + ("-" + rest))[|a| + 1..] == rest
  {
    var tail := "-" + rest;
    assert (a + tail)[|a|..] == tail;
    assert (a + tail)[|a| + 1..] == tail[1..] == rest;
  }

  lemma VersionHasNoHyphen(version: string)
    requires version in FOCUS_VERSIONS
    ensures Without(version, '-')
  {
  }

  lemma Regrouped(a: string, b: string, c: string)
    ensures ((a + "-") + b) + "-" + c == a + ("-" + (b + ("-" + c)))
  {
    var x, y := "-" + c, "-";
    assert ((a + y) + b) + y + c == ((a + y) + b) + x;
    assert ((a + y) + b) + x == (a + y) + (b + x);
    assert (a + y) + (b + x) == a + (y + (b + x));
  }

  /** A token is accepted, for the version it was minted for, exactly until it expires. */
  lemma TokenVerdict(sign: string -> string, minted: nat, now: nat, version: string)
    requires Signer(sign) && version in FOCUS_VERSIONS
    ensures Validate(sign, now, Token(sign, minted, version)) == if now <= minted + TTL then Valid(version) else Expired
  {
    hide Fields, Print, Parse, AllDigits, Without;
    var expires := Print(minted + TTL);
    var signature := sign(Payload(minted + TTL, version));
    Regrouped(expires, version, signature);
    DigitsWithout(expires, '-');
    VersionHasNoHyphen(version);
    FieldsOf(expires, version, signature);
    ParsePrint(minted + TTL);
  }

  /** A token that names a time and a version under the signature of both. */
  ghost predicate SignedFor(sign: string -> string, token: string, expires: string, version: string) {
    && token == expires + ("-" + (version + ("-" + sign(expires + "-" + version))))
    && expires != "" && AllDigits(expires) && version in FOCUS_VERSIONS
  }

  lemma CutBack(s: string)
    requires |Before(s, '-')| < |s|
    ensures s == Before(s, '-') + ("-" + s[|Before(s, '-')| + 1..])
  {
    hide Without;
    var n := |Before(s, '-')|;
    assert s == s[..n] + s[n..] && s[n..] == [s[n]] + s[n + 1..];
  }

  lemma FieldsJoin(token: string)
    requires Fields(token).Some?
    ensures var (a, b, c) := Fields(token).value; token == a + ("-" + (b + ("-" + c)))
  {
    hide Without, Before;
    CutBack(token);
    CutBack(token[|Before(token, '-')| + 1..]);
  }

  lemma SignedFields(sign: string -> string, token: string, expires: string, version: string)
    requires Signer(sign) && SignedFor(sign, token, expires, version)
    ensures Fields(token) == Some((expires, version, sign(expires + "-" + version)))
  {
    hide Fields, AllDigits, Without;
    DigitsWithout(expires, '-');
    VersionHasNoHyphen(version);
    FieldsOf(expires, version, sign(expires + "-" + version));
  }

  /** No token is accepted that is not signed for the version and for a time not yet past. */
  lemma OnlySignedTokensAreAccepted(sign: string -> string, now: nat, token: string, version: string)
    requires Signer(sign)
    ensures Validate(sign, now, token) == Valid(version)
            <==> exists expires :: SignedFor(sign, token, expires, version) && now <= Parse(expires)
  {
    hide Fields, Parse, AllDigits, Without, Signer;
    if Fields(token).Some? {
      FieldsJoin(token);
      var (expires, v, signature) := Fields(token).value;
      assert Validate(sign, now, token) == Valid(version) ==> SignedFor(sign, token, expires, version);
    }
    if expires :| SignedFor(sign, token, expires, version) && now <= Parse(expires) {
      SignedFields(sign, token, expires, version);
    }
  }

  // --------------------------------------------------------------------- runs

  datatype Event = Handshake(now: nat, body: Json) | Export(now: nat, id: string)

  /** One issued session, as both sides see it. */
  datatype Issued = Issued(version: string, nonce: string, minted: nat)

  datatype State = State(sessions: map<string, Session>, issued: seq<Issued>, clock: nat)

  const START := State(map[], [], 0)

  function IdOf(i: Issued): string { MockId(i.version, i.nonce) }

  /** What the in-memory client and the issuer of tokens make of one event, whatever its clock reading. */
  function Step(s: State, e: Event): State {
    match e
    case Handshake(now, body) =>
      (match Agree(body)
       case Err(_) => s.(clock := now)
       case Ok(a) =>
         State(s.sessions[MockId(a.version, a.nonce) := Session(now + TTL, a.version)],
               s.issued + [Issued(a.version, a.nonce, now)], now))
    case Export(now, id) => State(MockAfterExport(s.sessions, now, id), s.issued, now)
  }

  function Run(events: seq<Event>): State {
    if events == [] then START else Step(Run(events[..|events| - 1]), events[|events| - 1])
  }

  /** The clock never runs back. */
  predicate Forward(events: seq<Event>) {
    forall i, j :: 0 <= i < j < |events| ==> events[i].now <= events[j].now
  }

  /** The last session issued under an id. */
  function LastIssue(issued: seq<Issued>, id: string): (k: Option<nat>)
    ensures k.Some? ==> k.value < |issued| && IdOf(issued[k.value]) == id
    ensures k.Some? ==> forall j :: k.value < j < |issued| ==> IdOf(issued[j]) != id
    ensures k.None? ==> forall j :: 0 <= j < |issued| ==> IdOf(issued[j]) != id
  {
    if issued == [] then None
    else if IdOf(issued[|issued| - 1]) == id then Some(|issued| - 1)
    else
      assert forall j :: 0 <= j < |issued| - 1 ==> issued[..|issued| - 1][j] == issued[j];
      LastIssue(issued[..|issued| - 1], id)
  }

  lemma LastIssueGrows(issued: seq<Issued>, i: Issued, id: string)
    ensures LastIssue(issued + [i], id) == if IdOf(i) == id then Some(|issued|) else LastIssue(issued, id)
  {
    assert (issued + [i])[..|issued|] == issued;
  }

  /** What is in memory is the last session issued under its id. */
  ghost predicate StoresLast(s: State) {
    && (forall i :: 0 <= i < |s.issued| ==> s.issued[i].version in SUPPORTED_VERSIONS)
    && (forall id :: id in s.sessions ==>
          LastIssue(s.issued, id).Some?
          && var i := s.issued[LastIssue(s.issued, id).value]; s.sessions[id] == Session(i.minted + TTL, i.version))
  }

  /** With a forward clock, what is not in memory has expired. */
  ghost predicate ForgetsExpired(s: State) {
    && (forall i :: 0 <= i < |s.issued| ==> s.issued[i].minted <= s.clock)
    && (forall i, j :: 0 <= i < j < |s.issued| ==> s.issued[i].minted <= s.issued[j].minted)
    && (forall id :: LastIssue(s.issued, id).Some? && id !in s.sessions ==>
          s.issued[LastIssue(s.issued, id).value].minted + TTL < s.clock)
  }

  lemma AgreedIsSupported(body: Json)
    ensures Agree(body).Ok? ==> Agree(body).value.version in SUPPORTED_VERSIONS
  {
  }

  lemma IssueStep(s: State, now: nat, i: Issued)
    requires StoresLast(s) && i.version in SUPPORTED_VERSIONS && i.minted == now
    ensures var t := State(s.sessions[IdOf(i) := Session(now + TTL, i.version)], s.issued + [i], now);
            StoresLast(t) && (ForgetsExpired(s) && s.clock <= now ==> ForgetsExpired(t))
  {
    hide IdOf, LastIssue;
    var t := State(s.sessions[IdOf(i) := Session(now + TTL, i.version)], s.issued + [i], now);
    forall id
      ensures LastIssue(t.issued, id) == if IdOf(i) == id then Some(|s.issued|) else LastIssue(s.issued, id)
    {
      LastIssueGrows(s.issued, i, id);
    }
  }

  lemma ExportStep(s: State, now: nat, id: string)
    requires StoresLast(s)
    ensures var t := State(MockAfterExport(s.sessions, now, id), s.issued, now);
            StoresLast(t) && (ForgetsExpired(s) && s.clock <= now ==> ForgetsExpired(t))
  {
    hide IdOf, LastIssue;
  }

  lemma StepKeeps(s: State, e: Event)
    requires StoresLast(s)
    ensures StoresLast(Step(s, e))
    ensures ForgetsExpired(s) && s.clock <= e.now ==> ForgetsExpired(Step(s, e))
  {
    hide Agree, MockId, MockAfterExport, StoresLast, ForgetsExpired;
    match e {
      case Handshake(now, body) =>
        AgreedIsSupported(body);
        if Agree(body).Ok? {
          var a := Agree(body).value;
          IssueStep(s, now, Issued(a.version, a.nonce, now));
        } else {
          ClockStep(s, now);
        }
      case Export(now, id) => ExportStep(s, now, id);
    }
  }

  lemma ClockStep(s: State, now: nat)
    requires StoresLast(s)
    ensures StoresLast(s.(clock := now))
    ensures ForgetsExpired(s) && s.clock <= now ==> ForgetsExpired(s.(clock := now))
  {
    hide LastIssue;
  }

  lemma {:induction false} RunKeeps(events: seq<Event>)
    ensures StoresLast(Run(events))
    ensures Forward(events) ==> ForgetsExpired(Run(events))
    ensures events != [] ==> Run(events).clock == events[|events| - 1].now
  {
    hide Step, StoresLast, ForgetsExpired;
    if events == [] {
      StartKeeps();
    } else {
      var n := |events| - 1;
      RunKeeps(events[..n]);
      StepKeeps(Run(events[..n]), events[n]);
      ClockOfStep(Run(events[..n]), events[n]);
    }
  }

  lemma StartKeeps()
    ensures StoresLast(START) && ForgetsExpired(START)
  {
  }

  lemma ClockOfStep(s: State, e: Event)
    ensures Step(s, e).clock == e.now
  {
    hide Agree, MockAfterExport;
  }

  // --------------------------------------------------------------- refinement

  /** Map and token give the same answer for the issued session: the same verdict, and the version issued. */
  predicate SameAnswer(sign: string -> string, s: State, k: nat, now: nat)
    requires k < |s.issued|
  {
    var i := s.issued[k];
    var memory, token := MockVerdict(s.sessions, now, IdOf(i)), Validate(sign, now, Token(sign, i.minted, i.version));
    if token.Valid? then memory == Ok(token.version) && token.version == i.version else memory == Err(InvalidSession)
  }

  lemma SupportedIsKnown(version: string)
    ensures version in SUPPORTED_VERSIONS ==> version in FOCUS_VERSIONS
  {
  }

  /** The two answers, as what is stored and when the session and its last issue were minted. */
  lemma Answers(sign: string -> string, s: State, k: nat, now: nat)
    requires Signer(sign) && StoresLast(s) && k < |s.issued|
    ensures LastIssue(s.issued, IdOf(s.issued[k])).Some?
    ensures var i := s.issued[k];
            var last := s.issued[LastIssue(s.issued, IdOf(i)).value];
            SameAnswer(sign, s, k, now) <==>
            (IdOf(i) in s.sessions && now <= last.minted + TTL <==> now <= i.minted + TTL)
  {
    hide MockId, Validate, Token, Signer, LastIssue;
    var i := s.issued[k];
    var l := LastIssue(s.issued, IdOf(i)).value;
    SupportedIsKnown(i.version);
    TokenVerdict(sign, i.minted, now, i.version);
    MockIdsDoNotCollide(i.version, i.nonce, s.issued[l].version, s.issued[l].nonce);
  }

  /**
   After any run with a forward clock, repeated nonces included, memory and token agree on an issued session at
   every later moment exactly when the last session issued under its id was minted at the same time, or has
   expired already.
   */
  lemma MockAgreesExactlyWhen(sign: string -> string, events: seq<Event>, k: nat)
    requires Signer(sign) && Forward(events) && k < |Run(events).issued|
    ensures var s := Run(events);
            var last := LastIssue(s.issued, IdOf(s.issued[k]));
            && last.Some?
            && ((forall now: nat :: s.clock <= now ==> SameAnswer(sign, s, k, now)) <==>
                s.issued[last.value].minted == s.issued[k].minted || s.issued[last.value].minted + TTL < s.clock)
  {
    hide Run, SameAnswer, StoresLast, IdOf, Signer, LastIssue;
    var s := Run(events);
    RunKeeps(events);
    forall now: nat
      ensures var i := s.issued[k];
              LastIssue(s.issued, IdOf(i)).Some?
              && var last := s.issued[LastIssue(s.issued, IdOf(i)).value];
                 SameAnswer(sign, s, k, now) <==>
                 (IdOf(i) in s.sessions && now <= last.minted + TTL <==> now <= i.minted + TTL)
    {
      Answers(sign, s, k, now);
    }
    LastIsLater(s, k);
    var last := s.issued[LastIssue(s.issued, IdOf(s.issued[k])).value];
    if s.clock <= last.minted + TTL && s.issued[k].minted < last.minted {
      assert !SameAnswer(sign, s, k, last.minted + TTL);
    }
  }

  lemma LastIsLater(s: State, k: nat)
    requires ForgetsExpired(s) && k < |s.issued|
    ensures var last := LastIssue(s.issued, IdOf(s.issued[k]));
            last.Some? && s.issued[k].minted <= s.issued[last.value].minted
  {
    hide MockId;
    var l := LastIssue(s.issued, IdOf(s.issued[k])).value;
    assert k <= l;
  }

  /** In particular they agree when no other session was issued for its version and nonce. */
  lemma MockRefinesTokens(sign: string -> string, events: seq<Event>, k: nat, now: nat)
    requires Signer(sign) && Forward(events) && k < |Run(events).issued| && Run(events).clock <= now
    requires var issued := Run(events).issued;
             forall j :: 0 <= j < |issued| && j != k ==>
               issued[j].version != issued[k].version || issued[j].nonce != issued[k].nonce
    ensures SameAnswer(sign, Run(events), k, now)
    ensures Run(events).issued[k].version in SUPPORTED_VERSIONS
  {
    hide Run, SameAnswer, Signer, MockId, LastIssue;
    var s := Run(events);
    RunKeeps(events);
    MockAgreesExactlyWhen(sign, events, k);
    var l := LastIssue(s.issued, IdOf(s.issued[k])).value;
    MockIdsDoNotCollide(s.issued[l].version, s.issued[l].nonce, s.issued[k].version, s.issued[k].nonce);
  }

  /**
   After any run at all, backward clocks included, memory and token agree on an issued session at every moment,
   earlier ones included, exactly when it is still in memory and was minted at the time of the last session
   issued under its id.
   */
  lemma MockAgreesAlwaysExactlyWhen(sign: string -> string, events: seq<Event>, k: nat)
    requires Signer(sign) && k < |Run(events).issued|
    ensures var s := Run(events);
            var last := LastIssue(s.issued, IdOf(s.issued[k]));
            && last.Some?
            && ((forall now: nat :: SameAnswer(sign, s, k, now)) <==>
                IdOf(s.issued[k]) in s.sessions && s.issued[last.value].minted == s.issued[k].minted)
  {
    hide Run, SameAnswer, StoresLast, IdOf, Signer, LastIssue;
    var s := Run(events);
    RunKeeps(events);
    var i := s.issued[k];
    forall now: nat
      ensures LastIssue(s.issued, IdOf(i)).Some?
              && var last := s.issued[LastIssue(s.issued, IdOf(i)).value];
                 SameAnswer(sign, s, k, now) <==>
                 (IdOf(i) in s.sessions && now <= last.minted + TTL <==> now <= i.minted + TTL)
    {
      Answers(sign, s, k, now);
    }
    var last := s.issued[LastIssue(s.issued, IdOf(i)).value];
    if forall now: nat :: SameAnswer(sign, s, k, now) {
      assert SameAnswer(sign, s, k, i.minted + TTL) && SameAnswer(sign, s, k, last.minted + TTL);
    }
  }

  /** An id that was never issued is refused, after any run at any moment. */
  lemma UnknownIsRefused(events: seq<Event>, id: string, now: nat)
    requires forall k :: 0 <= k < |Run(events).issued| ==> IdOf(Run(events).issued[k]) != id
    ensures MockVerdict(Run(events).sessions, now, id) == Err(InvalidSession)
  {
    hide Run, MockId, ForgetsExpired;
    RunKeeps(events);
  }

  lemma TwoEvents(a: Event, b: Event)
    ensures Run([a, b]) == Step(Step(START, a), b)
  {
    assert [a, b][..1] == [a] && [a][..0] == [];
    assert Run([a]) == Step(Run([a][..0]), a);
  }

  /** Reusing a nonce separates them: the first token expires while its id lives on in memory. */
  lemma ReusedNonceDiverges(sign: string -> string, first: nat, second: nat, body: Json)
    requires Signer(sign) && Agree(body).Ok? && first < second
    ensures var s := Run([Handshake(first, body), Handshake(second, body)]);
            && Forward([Handshake(first, body), Handshake(second, body)]) && s.clock <= second + TTL
            && |s.issued| == 2 && !SameAnswer(sign, s, 0, second + TTL)
  {
    hide Agree, MockId, Token, Validate, Signer;
    TwoEvents(Handshake(first, body), Handshake(second, body));
    AgreedIsSupported(body);
    var version := Agree(body).value.version;
    SupportedIsKnown(version);
    TokenVerdict(sign, first, second + TTL, version);
  }

  /** So does a clock that runs back: the memory has forgotten what the token still proves. */
  lemma BackwardClockDiverges(sign: string -> string, minted: nat, late: nat, earlier: nat, body: Json)
    requires Signer(sign) && Agree(body).Ok? && earlier <= minted + TTL < late
    ensures var id := MockId(Agree(body).value.version, Agree(body).value.nonce);
            var s := Run([Handshake(minted, body), Export(late, id)]);
            |s.issued| == 1 && earlier < s.clock && !SameAnswer(sign, s, 0, earlier)
  {
    hide Agree, MockId, Token, Validate, Signer;
    var a := Agree(body).value;
    TwoEvents(Handshake(minted, body), Export(late, MockId(a.version, a.nonce)));
    AgreedIsSupported(body);
    SupportedIsKnown(a.version);
    TokenVerdict(sign, minted, earlier, a.version);
  }
}
