/**
 * `OutboundCallManager` as an object: its configuration, the process-wide
 * LiveKit client it shares with every other manager, and the call sequence,
 * each method proved to behave as the specification in `Calls` says.
 */
module Manager {
  import opened Wrappers
  import opened Phone
  import opened Platform
  import opened Calls

  /** The class attribute `OutboundCallManager._lk_api`: one client per process, or none yet. */
  class ManagerClass {
    var lkApi: LiveKitApi?

    constructor ()
      ensures lkApi == null
    {
      lkApi := null;
    }
  }

  class OutboundCallManager {
    const sipTrunkId: string
    const krispEnabled: bool
    const livekitApi: LiveKitApi

    constructor Init(sipTrunkId: string, krispEnabled: bool, livekitApi: LiveKitApi)
      ensures this.sipTrunkId == sipTrunkId && this.krispEnabled == krispEnabled
      ensures this.livekitApi == livekitApi
    {
      this.sipTrunkId := sipTrunkId;
      this.krispEnabled := krispEnabled;
      this.livekitApi := livekitApi;
    }

    /**
     * `OutboundCallManager(...)`: resolve the trunk id (or raise
     * `EnvironmentError` before anything else happens) and the krisp flag, then
     * create the shared client only if there is none yet; a later construction
     * reuses it and ignores its own url, key and secret. `platform` is how the
     * server behind a newly opened client answers.
     */
    static method New(cls: ManagerClass, env: Env,
                      sipTrunkIdArg: Option<string>, krispEnabledArg: Option<bool>,
                      livekitUrl: Option<string>, livekitApiKey: Option<string>, livekitApiSecret: Option<string>,
                      platform: nat -> Reply)
      returns (r: Result<OutboundCallManager, Error>)
      modifies cls
      ensures r.Ok? <==> ResolveTrunkId(sipTrunkIdArg, env).Ok?
      ensures r.Err? ==> r.error == EnvironmentError("SIP_TRUNK_ID env var is required") && cls.lkApi == old(cls.lkApi)
      ensures r.Ok? ==> fresh(r.value)
      ensures r.Ok? ==> r.value.sipTrunkId == ResolveTrunkId(sipTrunkIdArg, env).value && r.value.sipTrunkId != ""
      ensures r.Ok? ==> r.value.krispEnabled == ResolveKrisp(krispEnabledArg, env)
      ensures r.Ok? ==> r.value.livekitApi == cls.lkApi
      ensures old(cls.lkApi) != null ==> cls.lkApi == old(cls.lkApi)
      ensures old(cls.lkApi) == null && r.Ok? ==>
        cls.lkApi != null && fresh(cls.lkApi) &&
        cls.lkApi.url == livekitUrl && cls.lkApi.apiKey == livekitApiKey && cls.lkApi.apiSecret == livekitApiSecret &&
        cls.lkApi.respond == platform && cls.lkApi.trace == [] && !cls.lkApi.closed
    {
      var trunk := ResolveTrunkId(sipTrunkIdArg, env);
      if trunk.Err? {
        return Err(trunk.error);
      }
      var krisp := ResolveKrisp(krispEnabledArg, env);
      if cls.lkApi == null {
        cls.lkApi := new LiveKitApi(livekitUrl, livekitApiKey, livekitApiSecret, platform);
      }
      var m := new OutboundCallManager.Init(trunk.value, krisp, cls.lkApi);
      r := Ok(m);
    }

    /** One attempt of `_dial`: build the SIP request from the manager's settings and send it. */
    method Dial(phoneNumber: string, roomName: string, participantIdentity: string, participantName: string)
      returns (reply: Reply)
      modifies livekitApi
      ensures livekitApi.trace == old(livekitApi.trace) +
        [Dialled(SipRequest(sipTrunkId, phoneNumber, roomName, participantIdentity, participantName, krispEnabled, true))]
      ensures reply == livekitApi.respond(|old(livekitApi.trace)|)
      ensures livekitApi.closed == old(livekitApi.closed)
    {
      var req := SipRequest(sipTrunkId, phoneNumber, roomName, participantIdentity, participantName, krispEnabled, true);
      reply := livekitApi.CreateSipParticipant(req);
    }

    /**
     * `_dial` under `@retry(wait=wait_exponential(...), stop=stop_after_attempt(3))`:
     * attempts until one is answered or the third has raised; `backoffs` are the
     * sleeps taken between attempts, in milliseconds.
     */
    method DialWithRetry(phoneNumber: string, roomName: string, participantIdentity: string, participantName: string)
      returns (result: Result<ParticipantInfo, Error>, backoffs: seq<nat>)
      modifies livekitApi
      ensures var run := RetryDial(
          SipRequest(sipTrunkId, phoneNumber, roomName, participantIdentity, participantName, krispEnabled, true),
          livekitApi.respond, |old(livekitApi.trace)|, 1);
        livekitApi.trace == old(livekitApi.trace) + run.events &&
        result == run.result && backoffs == run.backoffs
      ensures livekitApi.closed == old(livekitApi.closed)
    {
      ghost var req := SipRequest(sipTrunkId, phoneNumber, roomName, participantIdentity, participantName, krispEnabled, true);
      ghost var base := |livekitApi.trace|;
      ghost var respond := livekitApi.respond;
      var attempt := 1;
      backoffs := [];
      while true
        invariant 1 <= attempt <= MAX_ATTEMPTS
        invariant livekitApi.trace == old(livekitApi.trace) + Repeat(Dialled(req), attempt - 1)
        invariant livekitApi.closed == old(livekitApi.closed)
        invariant forall i :: base <= i < base + attempt - 1 ==> respond(i).Raise?
        invariant backoffs == Waits(0, attempt - 1)
        decreases MAX_ATTEMPTS - attempt
      {
        var reply := Dial(phoneNumber, roomName, participantIdentity, participantName);
        RepeatAppend(Dialled(req), attempt - 1);
        if reply.Answer? || attempt == MAX_ATTEMPTS {
          RetryDialAfterFailures(req, respond, base, attempt);
          if reply.Answer? {
            return Ok(reply.info), backoffs;
          }
          return Err(RetryError(attempt, reply.fault)), backoffs;
        }
        WaitsAppend(0, attempt - 1);
        backoffs := backoffs + [WaitMs(attempt - 1)];
        attempt := attempt + 1;
      }
    }

    /**
     * `create_outbound_call`: `uuid` is what `uuid.uuid4()` returns and
     * `timestamp` what `int(time.time())` returns, both drawn after validation
     * and before the dispatch; `dumps` is `json.dumps` on a present metadata map.
     */
    method CreateOutboundCall(phoneNumber: string, callerName: string, agentName: string,
                              agentMetadata: Option<Dict>, uuid: Uuid, timestamp: int, dumps: Dict -> string)
      returns (outcome: CallOutcome, backoffs: seq<nat>)
      modifies livekitApi
      ensures var run := CallSpec(Config(sipTrunkId, krispEnabled),
          CallRequest(phoneNumber, callerName, agentName, agentMetadata),
          uuid, timestamp, dumps, livekitApi.respond, |old(livekitApi.trace)|);
        livekitApi.trace == old(livekitApi.trace) + run.events &&
        outcome == run.outcome && backoffs == run.backoffs
      ensures livekitApi.closed == old(livekitApi.closed)
    {
      ghost var cfg := Config(sipTrunkId, krispEnabled);
      ghost var call := CallRequest(phoneNumber, callerName, agentName, agentMetadata);
      ghost var base := |livekitApi.trace|;
      ghost var respond := livekitApi.respond;
      ghost var run := CallSpec(cfg, call, uuid, timestamp, dumps, respond, base);
      var rejected := ValidatePhone(phoneNumber);
      if rejected.Some? {
        outcome, backoffs := Failed(ValueError(rejected.value)), [];
        assert outcome == run.outcome && backoffs == run.backoffs && run.events == [] by {
          CallSpecRejected(cfg, call, uuid, timestamp, dumps, respond, base);
        }
        return;
      }
      var roomName := RoomName(uuid);
      var dispatched := livekitApi.CreateDispatch(
        DispatchRequest(agentName, roomName, MetadataJson(agentMetadata, dumps)));
      if dispatched.Raise? {
        outcome, backoffs := Failed(Raised(dispatched.fault)), [];
        assert livekitApi.trace == old(livekitApi.trace) + run.events &&
               outcome == run.outcome && backoffs == run.backoffs by {
          CallSpecDispatchRaised(cfg, call, uuid, timestamp, dumps, respond, base);
        }
        return;
      }
      ghost var dispatchedTrace := livekitApi.trace;
      ghost var req := DialFor(cfg, call, roomName, timestamp);
      assert |dispatchedTrace| == base + 1;
      var result;
      result, backoffs := DialWithRetry(phoneNumber, roomName,
                                        ParticipantIdentity(callerName, timestamp), DisplayName(callerName));
      ghost var dial := RetryDial(req, respond, base + 1, 1);
      assert livekitApi.trace == dispatchedTrace + dial.events && result == dial.result && backoffs == dial.backoffs;
      outcome := DialOutcome(result, roomName);
      assert livekitApi.trace == old(livekitApi.trace) + run.events &&
             outcome == run.outcome && backoffs == run.backoffs by {
        CallSpecAfterDispatch(cfg, call, uuid, timestamp, dumps, respond, base);
        AppendAssoc(old(livekitApi.trace), [Dispatched(DispatchFor(call, roomName, dumps))], dial.events);
      }
    }

    /** `close`: closes the shared client; the class attribute keeps pointing at it. */
    method Close()
      modifies livekitApi
      ensures livekitApi.closed
      ensures livekitApi.trace == old(livekitApi.trace) + [Closed]
    {
      livekitApi.AClose();
    }
  }

  /**
   * Two managers of one process share one client, even across `close`: the
   * second construction ignores its own connection arguments and gets the
   * closed client.
   */
  method SharedClientSurvivesClose(env: Env, trunk: string, platform: nat -> Reply,
                                   url1: Option<string>, url2: Option<string>)
    returns (first: OutboundCallManager, second: OutboundCallManager)
    requires trunk != ""
    ensures first != second && first.livekitApi == second.livekitApi
    ensures second.livekitApi.url == url1 && second.livekitApi.closed
    ensures second.livekitApi.trace == [Closed]
  {
    var cls := new ManagerClass();
    var r1 := OutboundCallManager.New(cls, env, Some(trunk), None, url1, None, None, platform);
    first := r1.value;
    first.Close();
    var r2 := OutboundCallManager.New(cls, env, Some(trunk), None, url2, None, None, platform);
    second := r2.value;
  }
}
