/**
 * The LiveKit server API as the call manager sees it. The client records every
 * request it sends in `trace`; the platform's answer to the request at trace
 * position `n` is `respond(n)`, a script fixed when the client is created.
 */
module Platform {
  import opened Wrappers

  /** An exception raised by a remote call (its class name and message). */
  datatype Fault = Fault(kind: string, message: string)

  /** `SIPParticipantInfo`: what a successful dial returns. */
  datatype ParticipantInfo = ParticipantInfo(
    participantId: string,
    participantIdentity: string,
    roomName: string,
    sipCallId: string)

  /**
   * The platform's answer to one request: a result, or the exception the call raises.
   * The call manager discards what `create_dispatch` returns, so for a dispatch
   * only the choice between answer and exception matters, and `info` is unused.
   */
  datatype Reply = Answer(info: ParticipantInfo) | Raise(fault: Fault)

  /** `CreateAgentDispatchRequest`. */
  datatype DispatchRequest = DispatchRequest(agentName: string, room: string, metadata: string)

  /** `CreateSIPParticipantRequest`. */
  datatype SipRequest = SipRequest(
    sipTrunkId: string,
    sipCallTo: string,
    roomName: string,
    participantIdentity: string,
    participantName: string,
    krispEnabled: bool,
    waitUntilAnswered: bool)

  /** One call on the client, in the order it was made. */
  datatype Event =
    | Dispatched(dispatch: DispatchRequest)
    | Dialled(dial: SipRequest)
    | Closed

  /** `api.LiveKitAPI`: the connection to the platform. */
  class LiveKitApi {
    const url: Option<string>
    const apiKey: Option<string>
    const apiSecret: Option<string>
    const respond: nat -> Reply
    var trace: seq<Event>
    var closed: bool

    constructor (url: Option<string>, apiKey: Option<string>, apiSecret: Option<string>, respond: nat -> Reply)
      ensures this.url == url && this.apiKey == apiKey && this.apiSecret == apiSecret
      ensures this.respond == respond
      ensures trace == [] && !closed
    {
      this.url := url;
      this.apiKey := apiKey;
      this.apiSecret := apiSecret;
      this.respond := respond;
      trace := [];
      closed := false;
    }

    /** `agent_dispatch.create_dispatch`. */
    method CreateDispatch(req: DispatchRequest) returns (reply: Reply)
      modifies this
      ensures trace == old(trace) + [Dispatched(req)]
      ensures reply == respond(|old(trace)|)
      ensures closed == old(closed)
    {
      reply := respond(|trace|);
      trace := trace + [Dispatched(req)];
    }

    /** `sip.create_sip_participant`. */
    method CreateSipParticipant(req: SipRequest) returns (reply: Reply)
      modifies this
      ensures trace == old(trace) + [Dialled(req)]
      ensures reply == respond(|old(trace)|)
      ensures closed == old(closed)
    {
      reply := respond(|trace|);
      trace := trace + [Dialled(req)];
    }

    /** `aclose`: the connection is closed; a second close is recorded again. */
    method AClose()
      modifies this
      ensures trace == old(trace) + [Closed]
      ensures closed
    {
      trace := trace + [Closed];
      closed := true;
    }
  }
}
