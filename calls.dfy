/**
 * The outbound-call orchestration as values: configuration fall-backs, the
 * formats of the room name, identity and display name, tenacity's retry
 * policy around the SIP dial, and what one `create_outbound_call` sends to the
 * platform and returns, as a function of its inputs and of the platform's replies.
 */
module Calls {
  import opened Wrappers
  import opened Text
  import opened Phone
  import opened Platform

  /**
   * The exceptions that leave the call manager. There is no custom error type;
   * the constructors are named by where an exception comes from, not by its
   * Python class: a remote `ValueError` or `OSError` is `Raised`, not
   * `ValueError` or `EnvironmentError`.
   */
  datatype Error =
    | ValueError(message: string)                        // a rejected phone number
    | EnvironmentError(message: string)                  // no SIP trunk id at construction
    | Raised(fault: Fault)                               // a remote exception, propagated unchanged
    | RetryError(attemptNumber: nat, lastFault: Fault)   // tenacity.RetryError around the last failed attempt

  // ----------------------------------------------------------- configuration

  /** The process environment (`os.environ`). */
  type Env = map<string, string>

  const SIP_TRUNK_VAR := "SIP_TRUNK_ID"
  const KRISP_VAR := "KRISP_ENABLED"
  const KRISP_DEFAULT := "true"

  function GetEnv(env: Env, name: string, default: string): string
  {
    if name in env then env[name] else default
  }

  /** `_e`: a variable that must be set to a non-empty value. */
  function RequireEnv(env: Env, name: string): (r: Result<string, Error>)
    ensures r.Ok? <==> name in env && env[name] != ""
    ensures r.Ok? ==> r.value == env[name]
    ensures r.Err? ==> r.error == EnvironmentError(name + " env var is required")
  {
    if name in env && env[name] != "" then Ok(env[name])
    else Err(EnvironmentError(name + " env var is required"))
  }

  /** `sip_trunk_id or _e("SIP_TRUNK_ID")`. */
  function ResolveTrunkId(arg: Option<string>, env: Env): (r: Result<string, Error>)
    ensures r.Ok? <==> (arg.Some? && arg.value != "") || (SIP_TRUNK_VAR in env && env[SIP_TRUNK_VAR] != "")
    ensures r.Ok? ==> r.value != ""
    ensures arg.Some? && arg.value != "" ==> r == Ok(arg.value)
    ensures (arg.None? || arg.value == "") && r.Ok? ==> r.value == env[SIP_TRUNK_VAR]
    ensures r.Err? ==> r.error == EnvironmentError("SIP_TRUNK_ID env var is required")
  {
    if arg.Some? && arg.value != "" then Ok(arg.value) else RequireEnv(env, SIP_TRUNK_VAR)
  }

  /**
   * The argument when given, otherwise `os.getenv("KRISP_ENABLED", "true").lower() == "true"`.
   * Lower-casing is modelled for ASCII letters only; no other character
   * lower-cases to one of the letters of "true", so the comparison agrees.
   */
  function ResolveKrisp(arg: Option<bool>, env: Env): (enabled: bool)
    ensures arg.Some? ==> enabled == arg.value
    ensures arg.None? && KRISP_VAR !in env ==> enabled
    ensures arg.None? && KRISP_VAR in env ==> (enabled <==> SpellsTrueIgnoringCase(env[KRISP_VAR]))
  {
    if arg.Some? then arg.value
    else
      var text := GetEnv(env, KRISP_VAR, KRISP_DEFAULT);
      LowerIsTrue(text);
      Lower(text) == "true"
  }

  /** Values such as "1", "yes", "on" or the empty string switch noise suppression off. */
  lemma KrispRejectsOtherSpellings(env: Env)
    requires KRISP_VAR in env && env[KRISP_VAR] in {"1", "yes", "on", "", "True "}
    ensures !ResolveKrisp(None, env)
  {
  }

  /** The two settings every manager holds. */
  datatype Config = Config(sipTrunkId: string, krispEnabled: bool)

  // ------------------------------------------------------------------ names

  const ROOM_PREFIX := "outbound-"
  const UUID_HEX_DIGITS := 32

  /** 2^128, that is, Pow16(32). */
  const UUID_LIMIT: nat := 0x1_0000_0000_0000_0000_0000_0000_0000_0000

  lemma UuidLimitIsPow16()
    ensures Pow16(UUID_HEX_DIGITS) == UUID_LIMIT
  {
    assert Pow16(4) == 0x1_0000;
    Pow16Add(4, 4);
    Pow16Add(8, 8);
    Pow16Add(16, 16);
  }

  /** The 128-bit integer of a `uuid.UUID` (`uuid4()` draws it at random). */
  type Uuid = u: nat | u < UUID_LIMIT

  /** `uuid.hex`: 32 lower-case hex digits. */
  function UuidHex(u: Uuid): (s: string)
    ensures |s| == UUID_HEX_DIGITS && AllLowerHex(s)
  {
    HexFixed(u, UUID_HEX_DIGITS)
  }

  predicate IsRoomName(s: string)
  {
    |s| == |ROOM_PREFIX| + UUID_HEX_DIGITS && s[..|ROOM_PREFIX|] == ROOM_PREFIX && AllLowerHex(s[|ROOM_PREFIX|..])
  }

  /** `f"outbound-{uuid.uuid4().hex}"`. */
  function RoomName(u: Uuid): (room: string)
    ensures IsRoomName(room)
  {
    var room := ROOM_PREFIX + UuidHex(u);
    assert room[..|ROOM_PREFIX|] == ROOM_PREFIX && room[|ROOM_PREFIX|..] == UuidHex(u);
    room
  }

  /** The UUID a room name was made from. */
  function RoomUuid(room: string): nat
    requires IsRoomName(room)
  {
    HexValue(room[|ROOM_PREFIX|..])
  }

  lemma RoomNameRoundTrip(u: Uuid)
    ensures RoomUuid(RoomName(u)) == u
  {
    assert RoomName(u)[|ROOM_PREFIX|..] == UuidHex(u);
    UuidLimitIsPow16();
    HexRoundTrip(u, UUID_HEX_DIGITS);
  }

  /** Distinct UUIDs give distinct rooms: two calls share a room only if their UUIDs collide. */
  lemma RoomNameInjective(u1: Uuid, u2: Uuid)
    ensures RoomName(u1) == RoomName(u2) ==> u1 == u2
  {
    RoomNameRoundTrip(u1);
    RoomNameRoundTrip(u2);
  }

  const CALLER_INFIX := "-caller-"
  const DEFAULT_DISPLAY_NAME := "Caller"

  /** `f"{caller_name}-caller-{timestamp}"`. */
  function ParticipantIdentity(callerName: string, timestamp: int): string
  {
    callerName + CALLER_INFIX + IntToDecimal(timestamp)
  }

  /**
   * The identity starts with the caller name (even an empty one), then "-caller-",
   * and the rest reads back as the timestamp.
   */
  lemma IdentityParts(callerName: string, timestamp: int)
    ensures var id := ParticipantIdentity(callerName, timestamp);
      var n := |callerName|;
      |id| > n + |CALLER_INFIX| &&
      id[..n] == callerName &&
      id[n..n + |CALLER_INFIX|] == CALLER_INFIX &&
      IsIntText(id[n + |CALLER_INFIX|..]) && ParseInt(id[n + |CALLER_INFIX|..]) == timestamp
  {
    var id := ParticipantIdentity(callerName, timestamp);
    var n := |callerName|;
    assert id[n + |CALLER_INFIX|..] == IntToDecimal(timestamp);
    assert id[..n] == callerName;
    assert id[n..n + |CALLER_INFIX|] == CALLER_INFIX;
    IntToDecimalRoundTrip(timestamp);
  }

  /** For one caller name, different timestamps give different identities. */
  lemma IdentityInjective(callerName: string, t1: int, t2: int)
    ensures ParticipantIdentity(callerName, t1) == ParticipantIdentity(callerName, t2) ==> t1 == t2
  {
    IdentityParts(callerName, t1);
    IdentityParts(callerName, t2);
  }

  /** `caller_name or "Caller"`. */
  function DisplayName(callerName: string): (name: string)
    ensures name != ""
    ensures callerName != "" ==> name == callerName
    ensures callerName == "" ==> name == DEFAULT_DISPLAY_NAME
  {
    if callerName != "" then callerName else DEFAULT_DISPLAY_NAME
  }

  // --------------------------------------------------------------- metadata

  /** The agent metadata map; its values are kept as text. */
  type Dict = map<string, string>

  const JSON_NULL := "null"

  /** `json.dumps(agent_metadata)`; `dumps` is `json.dumps` on a present map. */
  function MetadataJson(meta: Option<Dict>, dumps: Dict -> string): string
  {
    match meta
    case None => JSON_NULL
    case Some(d) => dumps(d)
  }

  predicate EndsWithNewline(s: string) { 1 <= |s| && s[|s| - 1] == '\n' }

  /** JSON text of an object starts with a brace. */
  predicate IsObjectText(s: string) { 0 < |s| && s[0] == '{' }

  // ------------------------------------------------------------------ retry

  /** `stop_after_attempt(3)`. */
  const MAX_ATTEMPTS := 3

  /** `wait_exponential(multiplier=0.5, min=0.5, max=4)`, in milliseconds. */
  const WAIT_MULTIPLIER_MS := 500
  const WAIT_MIN_MS := 500
  const WAIT_MAX_MS := 4000

  function Pow2(n: nat): (p: nat)
    ensures 1 <= p
  {
    if n == 0 then 1 else 2 * Pow2(n - 1)
  }

  /**
   * The sleep after failed attempt `exponent + 1`:
   * `max(max(0, min), min(multiplier * 2 ** (attempt_number - 1), max))`.
   */
  function WaitMs(exponent: nat): (ms: nat)
    ensures WAIT_MIN_MS <= ms <= WAIT_MAX_MS
  {
    var raw := WAIT_MULTIPLIER_MS * Pow2(exponent);
    var capped := if raw < WAIT_MAX_MS then raw else WAIT_MAX_MS;
    if WAIT_MIN_MS < capped then capped else WAIT_MIN_MS
  }

  /** The sleeps after failed attempts `exponent + 1` .. `exponent + n`. */
  function Waits(exponent: nat, n: nat): (s: seq<nat>)
    ensures |s| == n
    decreases n
  {
    if n == 0 then [] else [WaitMs(exponent)] + Waits(exponent + 1, n - 1)
  }

  lemma WaitSchedule()
    ensures Waits(0, 1) == [500]
    ensures Waits(0, MAX_ATTEMPTS - 1) == [500, 1000]
  {
    assert Pow2(1) == 2;
  }

  function Repeat(e: Event, n: nat): (s: seq<Event>)
    ensures |s| == n
    ensures forall i :: 0 <= i < n ==> s[i] == e
  {
    if n == 0 then [] else [e] + Repeat(e, n - 1)
  }

  lemma {:induction false} RepeatAppend(e: Event, n: nat)
    ensures Repeat(e, n) + [e] == Repeat(e, n + 1)
  {
    if n > 0 {
      RepeatAppend(e, n - 1);
    }
  }

  lemma {:induction false} WaitsAppend(exponent: nat, n: nat)
    ensures Waits(exponent, n) + [WaitMs(exponent + n)] == Waits(exponent, n + 1)
    decreases n
  {
    if n > 0 {
      WaitsAppend(exponent + 1, n - 1);
    }
  }

  /** Regrouping a trace; stated once so that `CreateOutboundCall` need not prove it in its own large context. */
  lemma AppendAssoc(a: seq<Event>, b: seq<Event>, c: seq<Event>)
    ensures (a + b) + c == a + (b + c)
  {
  }

  /** The requests a run of the retried dial sends, the sleeps between them, and its result. */
  datatype DialRun = DialRun(events: seq<Event>, backoffs: seq<nat>, result: Result<ParticipantInfo, Error>)

  /**
   * `_dial` under `@retry`, from attempt number `attempt` on: every attempt sends
   * `req`; an answer ends the run; any exception is retried after a sleep,
   * except on the third attempt, where the run ends in `RetryError`.
   * Attempt `a` is answered by `respond(base + a - 1)`.
   */
  function RetryDial(req: SipRequest, respond: nat -> Reply, base: nat, attempt: nat): DialRun
    requires 1 <= attempt <= MAX_ATTEMPTS
    decreases MAX_ATTEMPTS - attempt
  {
    match respond(base + attempt - 1)
    case Answer(info) => DialRun([Dialled(req)], [], Ok(info))
    case Raise(f) =>
      if attempt == MAX_ATTEMPTS then DialRun([Dialled(req)], [], Err(RetryError(attempt, f)))
      else
        var rest := RetryDial(req, respond, base, attempt + 1);
        DialRun([Dialled(req)] + rest.events, [WaitMs(attempt - 1)] + rest.backoffs, rest.result)
  }

  /**
   * Whatever the platform replies, the run from attempt `a` sends between one
   * and `MAX_ATTEMPTS - a + 1` identical requests, sleeps between consecutive
   * ones, and succeeds exactly when its last attempt was answered; every
   * earlier attempt raised; a failure is always the third attempt's.
   */
  lemma {:induction false} RetryDialShape(req: SipRequest, respond: nat -> Reply, base: nat, a: nat)
    requires 1 <= a <= MAX_ATTEMPTS
    ensures var run := RetryDial(req, respond, base, a);
      var n := |run.events|;
      1 <= n <= MAX_ATTEMPTS - a + 1 &&
      run.events == Repeat(Dialled(req), n) &&
      run.backoffs == Waits(a - 1, n - 1) &&
      (forall i :: base + a - 1 <= i < base + a + n - 2 ==> respond(i).Raise?) &&
      (run.result.Ok? <==> respond(base + a + n - 2).Answer?) &&
      (run.result.Ok? ==> run.result.value == respond(base + a + n - 2).info) &&
      (run.result.Err? ==> a + n - 1 == MAX_ATTEMPTS &&
                           run.result.error == RetryError(MAX_ATTEMPTS, respond(base + MAX_ATTEMPTS - 1).fault))
    decreases MAX_ATTEMPTS - a
  {
    if respond(base + a - 1).Raise? && a < MAX_ATTEMPTS {
      RetryDialShape(req, respond, base, a + 1);
    }
  }

  /**
   * After attempts 1 .. a-1 have raised, the run so far is a-1 identical
   * requests with the back-off schedule between them, and the rest is the run from attempt `a`.
   */
  lemma {:induction false} RetryDialAfterFailures(req: SipRequest, respond: nat -> Reply, base: nat, a: nat)
    requires 1 <= a <= MAX_ATTEMPTS
    requires forall i :: base <= i < base + a - 1 ==> respond(i).Raise?
    ensures var rest := RetryDial(req, respond, base, a);
      RetryDial(req, respond, base, 1) ==
        DialRun(Repeat(Dialled(req), a - 1) + rest.events, Waits(0, a - 1) + rest.backoffs, rest.result)
    decreases a
  {
    if a > 1 {
      var b := a - 1;
      RetryDialAfterFailures(req, respond, base, b);
      var prev := RetryDial(req, respond, base, b);
      var rest := RetryDial(req, respond, base, a);
      assert b + 1 == a;
      assert respond(base + b - 1).Raise?;
      assert prev == DialRun([Dialled(req)] + rest.events, [WaitMs(b - 1)] + rest.backoffs, rest.result);
      RepeatAppend(Dialled(req), b - 1);
      WaitsAppend(0, b - 1);
      assert b - 1 + 1 == b;
      assert Repeat(Dialled(req), b - 1) + ([Dialled(req)] + rest.events)
          == (Repeat(Dialled(req), b - 1) + [Dialled(req)]) + rest.events;
      assert Waits(0, b - 1) + ([WaitMs(b - 1)] + rest.backoffs)
          == (Waits(0, b - 1) + [WaitMs(b - 1)]) + rest.backoffs;
    }
  }

  /** Attempts `a` .. `k - 1` raise and attempt `k` is answered. */
  lemma {:induction false} RetrySucceedsFrom(req: SipRequest, respond: nat -> Reply, base: nat, a: nat, k: nat)
    requires 1 <= a <= k <= MAX_ATTEMPTS
    requires forall i :: base + a - 1 <= i < base + k - 1 ==> respond(i).Raise?
    requires respond(base + k - 1).Answer?
    ensures RetryDial(req, respond, base, a) ==
      DialRun(Repeat(Dialled(req), k - a + 1), Waits(a - 1, k - a), Ok(respond(base + k - 1).info))
    decreases k - a
  {
    if a < k {
      RetrySucceedsFrom(req, respond, base, a + 1, k);
    }
  }

  /**
   * The dial after a dispatch answered at trace position `base`: attempts 1 .. k-1
   * raise and attempt k is answered, giving k requests and the first k-1 sleeps of the schedule.
   */
  lemma RetryConnectedOn(req: SipRequest, respond: nat -> Reply, base: nat, k: nat)
    requires 1 <= k <= MAX_ATTEMPTS
    requires forall i :: base < i < base + k ==> respond(i).Raise?
    requires respond(base + k).Answer?
    ensures RetryDial(req, respond, base + 1, 1) ==
      DialRun(Repeat(Dialled(req), k), [500, 1000][..k - 1], Ok(respond(base + k).info))
  {
    RetrySucceedsFrom(req, respond, base + 1, 1, k);
    WaitSchedule();
    assert Waits(0, 0) == [];
  }

  /** Attempts `a` .. 3 all raise. */
  lemma {:induction false} RetryExhaustedFrom(req: SipRequest, respond: nat -> Reply, base: nat, a: nat)
    requires 1 <= a <= MAX_ATTEMPTS
    requires forall i :: base + a - 1 <= i < base + MAX_ATTEMPTS ==> respond(i).Raise?
    ensures RetryDial(req, respond, base, a) ==
      DialRun(Repeat(Dialled(req), MAX_ATTEMPTS - a + 1), Waits(a - 1, MAX_ATTEMPTS - a),
              Err(RetryError(MAX_ATTEMPTS, respond(base + MAX_ATTEMPTS - 1).fault)))
    decreases MAX_ATTEMPTS - a
  {
    if a < MAX_ATTEMPTS {
      RetryExhaustedFrom(req, respond, base, a + 1);
    }
  }

  /**
   * The dial after a dispatch answered at trace position `base`: all three
   * attempts raise, giving three requests, both sleeps and the third exception.
   */
  lemma RetryExhaustedAfter(req: SipRequest, respond: nat -> Reply, base: nat)
    requires forall i :: base < i <= base + MAX_ATTEMPTS ==> respond(i).Raise?
    ensures RetryDial(req, respond, base + 1, 1) ==
      DialRun(Repeat(Dialled(req), MAX_ATTEMPTS), [500, 1000],
              Err(RetryError(MAX_ATTEMPTS, respond(base + MAX_ATTEMPTS).fault)))
  {
    RetryExhaustedFrom(req, respond, base + 1, 1);
    WaitSchedule();
  }

  // ------------------------------------------------------------- whole call

  /** The keyword arguments of `create_outbound_call`. */
  datatype CallRequest = CallRequest(
    phoneNumber: string,
    callerName: string,
    agentName: string,
    agentMetadata: Option<Dict>)

  /** `(participant, room_name)`, or the exception the call raises. */
  datatype CallOutcome = Connected(participant: ParticipantInfo, roomName: string) | Failed(error: Error)

  /** What one call returns, the requests it sent in order, and the sleeps between dial attempts. */
  datatype CallRun = CallRun(outcome: CallOutcome, events: seq<Event>, backoffs: seq<nat>)

  function DispatchFor(call: CallRequest, room: string, dumps: Dict -> string): DispatchRequest
  {
    DispatchRequest(call.agentName, room, MetadataJson(call.agentMetadata, dumps))
  }

  /** The request every dial attempt of a call sends; `timestamp` is read once, before dispatch. */
  function DialFor(cfg: Config, call: CallRequest, room: string, timestamp: int): SipRequest
  {
    SipRequest(cfg.sipTrunkId, call.phoneNumber, room,
               ParticipantIdentity(call.callerName, timestamp), DisplayName(call.callerName),
               cfg.krispEnabled, true)
  }

  /** `return participant, room_name` after the dial, or the dial's exception. */
  function DialOutcome(result: Result<ParticipantInfo, Error>, room: string): CallOutcome
  {
    match result
    case Ok(p) => Connected(p, room)
    case Err(e) => Failed(e)
  }

  /**
   * `create_outbound_call`: validate the number; name the room after `uuid`;
   * dispatch the agent (not retried: an exception propagates); then dial under
   * the retry policy. The platform answers the request at trace position `n`
   * with `respond(n)`, and `base` is the length of the trace before the call.
   */
  function CallSpec(cfg: Config, call: CallRequest, uuid: Uuid, timestamp: int,
                    dumps: Dict -> string, respond: nat -> Reply, base: nat): CallRun
  {
    match ValidatePhone(call.phoneNumber)
    case Some(message) => CallRun(Failed(ValueError(message)), [], [])
    case None =>
      var room := RoomName(uuid);
      var dispatch := Dispatched(DispatchFor(call, room, dumps));
      match respond(base)
      case Raise(f) => CallRun(Failed(Raised(f)), [dispatch], [])
      case Answer(_) =>
        var dial := RetryDial(DialFor(cfg, call, room, timestamp), respond, base + 1, 1);
        CallRun(DialOutcome(dial.result, room), [dispatch] + dial.events, dial.backoffs)
  }

  /** `CallSpec` for a rejected number. */
  lemma CallSpecRejected(cfg: Config, call: CallRequest, uuid: Uuid, timestamp: int,
                         dumps: Dict -> string, respond: nat -> Reply, base: nat)
    requires ValidatePhone(call.phoneNumber).Some?
    ensures CallSpec(cfg, call, uuid, timestamp, dumps, respond, base) ==
      CallRun(Failed(ValueError(PHONE_MESSAGE)), [], [])
  {
  }

  /** `CallSpec` when the dispatch raises. */
  lemma CallSpecDispatchRaised(cfg: Config, call: CallRequest, uuid: Uuid, timestamp: int,
                               dumps: Dict -> string, respond: nat -> Reply, base: nat)
    requires ValidatePhone(call.phoneNumber).None? && respond(base).Raise?
    ensures CallSpec(cfg, call, uuid, timestamp, dumps, respond, base) ==
      CallRun(Failed(Raised(respond(base).fault)), [Dispatched(DispatchFor(call, RoomName(uuid), dumps))], [])
  {
  }

  /** `CallSpec` once the number is accepted and the dispatch answered: the dispatch, then the retried dial. */
  lemma CallSpecAfterDispatch(cfg: Config, call: CallRequest, uuid: Uuid, timestamp: int,
                              dumps: Dict -> string, respond: nat -> Reply, base: nat)
    requires ValidatePhone(call.phoneNumber).None? && respond(base).Answer?
    ensures var dial := RetryDial(DialFor(cfg, call, RoomName(uuid), timestamp), respond, base + 1, 1);
      var run := CallSpec(cfg, call, uuid, timestamp, dumps, respond, base);
      run.events == [Dispatched(DispatchFor(call, RoomName(uuid), dumps))] + dial.events &&
      run.backoffs == dial.backoffs &&
      run.outcome == DialOutcome(dial.result, RoomName(uuid))
  {
  }

  /** The number of agent dispatches in a trace. */
  function CountDispatches(events: seq<Event>): nat
  {
    if events == [] then 0
    else (if events[0].Dispatched? then 1 else 0) + CountDispatches(events[1..])
  }

  lemma {:induction false} NoDispatchesInDials(e: Event, n: nat)
    requires e.Dialled?
    ensures CountDispatches(Repeat(e, n)) == 0
  {
    if n > 0 {
      assert Repeat(e, n)[1..] == Repeat(e, n - 1);
      NoDispatchesInDials(e, n - 1);
    }
  }

  /** One dispatch followed by dials. */
  lemma OneDispatchThenDials(d: Event, e: Event, n: nat)
    requires d.Dispatched? && e.Dialled?
    ensures CountDispatches([d] + Repeat(e, n)) == 1
  {
    assert ([d] + Repeat(e, n))[1..] == Repeat(e, n);
    NoDispatchesInDials(e, n);
  }

  /**
   * A number the pattern rejects fails with `ValueError` before any remote call:
   * nothing is sent and nothing is slept. A number it accepts always reaches the platform.
   */
  lemma RejectedNumberSendsNothing(cfg: Config, call: CallRequest, uuid: Uuid, timestamp: int,
                                   dumps: Dict -> string, respond: nat -> Reply, base: nat)
    ensures var run := CallSpec(cfg, call, uuid, timestamp, dumps, respond, base);
      (run.events == [] <==> !PhoneReMatches(call.phoneNumber)) &&
      (!PhoneReMatches(call.phoneNumber) ==>
         run.outcome == Failed(ValueError(PHONE_MESSAGE)) && run.backoffs == []) &&
      (!IsE164(call.phoneNumber) && !EndsWithNewline(call.phoneNumber) ==>
         run.outcome == Failed(ValueError(PHONE_MESSAGE)))
  {
    PhoneReMatchesIff(call.phoneNumber);
  }

  /**
   * For an accepted number: the first request is the one dispatch, naming the
   * agent, the room and the metadata JSON ("null" when no map is given); every
   * later request is the same dial request; there are at most three of them;
   * and the trace holds exactly one dispatch.
   */
  lemma DispatchOnceThenDials(cfg: Config, call: CallRequest, uuid: Uuid, timestamp: int,
                              dumps: Dict -> string, respond: nat -> Reply, base: nat)
    requires PhoneReMatches(call.phoneNumber)
    ensures var run := CallSpec(cfg, call, uuid, timestamp, dumps, respond, base);
      var room := RoomName(uuid);
      1 <= |run.events| <= 1 + MAX_ATTEMPTS &&
      run.events[0] == Dispatched(DispatchRequest(call.agentName, room, MetadataJson(call.agentMetadata, dumps))) &&
      (call.agentMetadata.None? ==> run.events[0].dispatch.metadata == "null") &&
      (forall i :: 1 <= i < |run.events| ==> run.events[i] == Dialled(DialFor(cfg, call, room, timestamp))) &&
      CountDispatches(run.events) == 1
  {
    var room := RoomName(uuid);
    var req := DialFor(cfg, call, room, timestamp);
    var d := Dispatched(DispatchFor(call, room, dumps));
    if respond(base).Answer? {
      CallSpecAfterDispatch(cfg, call, uuid, timestamp, dumps, respond, base);
      RetryDialShape(req, respond, base + 1, 1);
      var dial := RetryDial(req, respond, base + 1, 1);
      var n := |dial.events|;
      assert 1 <= n <= MAX_ATTEMPTS && dial.events == Repeat(Dialled(req), n);
      OneDispatchThenDials(d, Dialled(req), n);
    } else {
      CallSpecDispatchRaised(cfg, call, uuid, timestamp, dumps, respond, base);
      assert CountDispatches([d]) == 1 by {
        assert [d][1..] == [];
      }
    }
  }

  /** A missing metadata map and an empty one reach the agent differently. */
  lemma AbsentMetadataIsNotEmptyObject(dumps: Dict -> string)
    requires IsObjectText(dumps(map[]))
    ensures MetadataJson(None, dumps) == "null" != MetadataJson(Some(map[]), dumps)
  {
  }

  /**
   * Every request of a call names the same room, `outbound-` and the UUID's
   * hex, and a connected call returns that room.
   */
  lemma OneRoomPerCall(cfg: Config, call: CallRequest, uuid: Uuid, timestamp: int,
                       dumps: Dict -> string, respond: nat -> Reply, base: nat)
    ensures var run := CallSpec(cfg, call, uuid, timestamp, dumps, respond, base);
      var room := RoomName(uuid);
      IsRoomName(room) && room == ROOM_PREFIX + UuidHex(uuid) &&
      (forall i :: 0 <= i < |run.events| ==>
         (run.events[i].Dispatched? && run.events[i].dispatch.room == room) ||
         (run.events[i].Dialled? && run.events[i].dial.roomName == room)) &&
      (run.outcome.Connected? ==> run.outcome.roomName == room)
  {
    if PhoneReMatches(call.phoneNumber) {
      DispatchOnceThenDials(cfg, call, uuid, timestamp, dumps, respond, base);
    }
  }

  /** If the dispatch raises, that same exception leaves the call and no dial is sent. */
  lemma DispatchFailurePropagates(cfg: Config, call: CallRequest, uuid: Uuid, timestamp: int,
                                  dumps: Dict -> string, respond: nat -> Reply, base: nat)
    requires PhoneReMatches(call.phoneNumber)
    requires respond(base).Raise?
    ensures var run := CallSpec(cfg, call, uuid, timestamp, dumps, respond, base);
      run.outcome == Failed(Raised(respond(base).fault)) &&
      run.events == [Dispatched(DispatchFor(call, RoomName(uuid), dumps))] &&
      run.backoffs == []
  {
  }

  /**
   * Dial attempts 1 .. k-1 raise and attempt k (at most 3) is answered: the call
   * returns that participant and the room, after one dispatch and k identical
   * dials with 500 ms, then 1000 ms, of back-off between them.
   */
  lemma ConnectedOnAttempt(cfg: Config, call: CallRequest, uuid: Uuid, timestamp: int,
                           dumps: Dict -> string, respond: nat -> Reply, base: nat, k: nat)
    requires PhoneReMatches(call.phoneNumber)
    requires respond(base).Answer?
    requires 1 <= k <= MAX_ATTEMPTS
    requires forall i :: base < i < base + k ==> respond(i).Raise?
    requires respond(base + k).Answer?
    ensures var run := CallSpec(cfg, call, uuid, timestamp, dumps, respond, base);
      var room := RoomName(uuid);
      run.outcome == Connected(respond(base + k).info, room) &&
      run.events == [Dispatched(DispatchFor(call, room, dumps))] + Repeat(Dialled(DialFor(cfg, call, room, timestamp)), k) &&
      run.backoffs == [500, 1000][..k - 1] &&
      CountDispatches(run.events) == 1
  {
    var room := RoomName(uuid);
    var req := DialFor(cfg, call, room, timestamp);
    CallSpecAfterDispatch(cfg, call, uuid, timestamp, dumps, respond, base);
    RetryConnectedOn(req, respond, base, k);
    OneDispatchThenDials(Dispatched(DispatchFor(call, room, dumps)), Dialled(req), k);
  }

  /**
   * All three dial attempts raise: the call fails with tenacity's `RetryError`
   * holding the third exception, after one dispatch, three identical dials and
   * sleeps of 500 ms and 1000 ms.
   */
  lemma DialExhausted(cfg: Config, call: CallRequest, uuid: Uuid, timestamp: int,
                      dumps: Dict -> string, respond: nat -> Reply, base: nat)
    requires PhoneReMatches(call.phoneNumber)
    requires respond(base).Answer?
    requires forall i :: base < i <= base + MAX_ATTEMPTS ==> respond(i).Raise?
    ensures var run := CallSpec(cfg, call, uuid, timestamp, dumps, respond, base);
      var room := RoomName(uuid);
      run.outcome == Failed(RetryError(MAX_ATTEMPTS, respond(base + MAX_ATTEMPTS).fault)) &&
      run.events == [Dispatched(DispatchFor(call, room, dumps))] + Repeat(Dialled(DialFor(cfg, call, room, timestamp)), MAX_ATTEMPTS) &&
      run.backoffs == [500, 1000] &&
      CountDispatches(run.events) == 1
  {
    var room := RoomName(uuid);
    var req := DialFor(cfg, call, room, timestamp);
    CallSpecAfterDispatch(cfg, call, uuid, timestamp, dumps, respond, base);
    RetryExhaustedAfter(req, respond, base);
    OneDispatchThenDials(Dispatched(DispatchFor(call, room, dumps)), Dialled(req), MAX_ATTEMPTS);
  }

  /** The retried dial fails exactly when all three attempts raise. */
  lemma RetryDialFailsIffAllRaise(req: SipRequest, respond: nat -> Reply, base: nat)
    ensures RetryDial(req, respond, base, 1).result.Err? <==>
      forall i :: base <= i < base + MAX_ATTEMPTS ==> respond(i).Raise?
  {
    RetryDialShape(req, respond, base, 1);
    var n := |RetryDial(req, respond, base, 1).events|;
    assert base <= base + n - 1 < base + MAX_ATTEMPTS;
  }

  /**
   * How a call can fail, each way exactly in its own situation: the validation
   * `ValueError` for a rejected number, `Raised` when the dispatch raises, or
   * `RetryError` after three failed dials. A call never fails with `_e`'s
   * missing-variable `EnvironmentError`; a remote exception of any Python class
   * (an `OSError` such as a refused connection included) arrives as `Raised` or
   * inside `RetryError`.
   */
  lemma FailureKinds(cfg: Config, call: CallRequest, uuid: Uuid, timestamp: int,
                     dumps: Dict -> string, respond: nat -> Reply, base: nat)
    ensures var run := CallSpec(cfg, call, uuid, timestamp, dumps, respond, base);
      var valid := PhoneReMatches(call.phoneNumber);
      (run.outcome.Failed? && run.outcome.error.ValueError? <==> !valid) &&
      (run.outcome.Failed? && run.outcome.error.Raised? <==> valid && respond(base).Raise?) &&
      (run.outcome.Failed? && run.outcome.error.RetryError? <==>
         valid && respond(base).Answer? &&
         forall i :: base < i <= base + MAX_ATTEMPTS ==> respond(i).Raise?) &&
      !(run.outcome.Failed? && run.outcome.error.EnvironmentError?)
  {
    if PhoneReMatches(call.phoneNumber) && respond(base).Answer? {
      var req := DialFor(cfg, call, RoomName(uuid), timestamp);
      CallSpecAfterDispatch(cfg, call, uuid, timestamp, dumps, respond, base);
      RetryDialShape(req, respond, base + 1, 1);
      RetryDialFailsIffAllRaise(req, respond, base + 1);
    }
  }
}
