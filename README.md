# Outbound call manager, modelled in Dafny

This project models `OutboundCallManager` from `manager.py`. The manager places
outbound telephone calls through the LiveKit platform. It checks that the
destination number has E.164 shape. It resolves its SIP trunk id and its
noise-suppression (krisp) flag from arguments or the environment. It keeps one
LiveKit API client per process in a class attribute. For each call it names a
fresh room, dispatches an agent into that room once, and then dials the callee,
attempting the dial up to three times, with exponential back-off between attempts.

Layout:

- `wrappers.dfy`: `Option` and `Result`.
- `text.dfy`: `str(int)`, the 32-digit lower-case hex of `uuid.hex`, and ASCII `str.lower`. The decimal and hex texts each have a round trip; for `str.lower`, the comparison with "true" is characterised exactly.
- `phone.dfy`: the pattern `^\+\d{7,15}$` under `re.match`, evaluated as the regular-expression engine does (a greedy bounded repetition that backtracks until `$` matches), and `_validate_phone`.
- `platform.dfy`: the LiveKit client as a class. It records every request in a trace, and it answers the request at trace position `n` with `respond(n)`, a script fixed when the client is created.
- `calls.dfy`: the pure specification. It covers the configuration fall-backs, the room-name, identity and display-name formats, tenacity's retry policy (`RetryDial`), and what one `create_outbound_call` sends and returns (`CallSpec`), with lemmas about each.
- `manager.dfy`: the classes. `ManagerClass` holds the class attribute `_lk_api`. `OutboundCallManager` has its constructor (`New`), its retry loop (`DialWithRetry`), `CreateOutboundCall` and `Close`. `DialWithRetry` and `CreateOutboundCall` are proved equal to `RetryDial` and `CallSpec`; `New` and `Close` state their whole effect in their own contracts.

Inputs that the program draws from elsewhere are parameters here:

- the UUID (a 128-bit number);
- the clock reading (an integer number of seconds);
- `json.dumps` of a present metadata map (an opaque function);
- the process environment (a map);
- the platform's replies (the `respond` script).

Back-off sleeps are recorded as milliseconds and not slept.

Points of the code's behaviour worth noting:

- The timestamp in the participant identity is read once, right after the room is named and before the agent dispatch (manager.py:122), so every dial attempt carries the same identity.
- There are no custom error types:
  - a rejected number raises `ValueError`;
  - a missing trunk id raises `EnvironmentError`;
  - a failed dispatch propagates its own exception unchanged;
  - three failed dials give tenacity's `RetryError`, which carries the attempt number and the last exception, because `reraise` is not set.

  The model's error constructors are named by where an error comes from, not by its Python class. `ValueError` is the validation error and `EnvironmentError` is `_e`'s. A remote exception of any class, including a `ValueError` or an `OSError` (which Python 3 also calls `EnvironmentError`), is `Raised`, or is inside `RetryError`.
- Python's `$` also matches just before one final newline, so a valid number followed by `"\n"` passes validation. The model keeps this behaviour (`Phone.PhoneReMatchesIff`).

## Model

| member | source | states |
|---|---|---|
| Phone.LeadingDigits | manager.py:36 | the greedy `\d{,15}` after the `+` consumes at most 15 characters, all of them digits, and stops only at the limit, the end of the text or a non-digit |
| Phone.BacktrackOnlyAtTop | manager.py:36 | giving back digits never lets `$` match: after a run of digits the pattern matches exactly when it took at least 7 and `$` holds right after them |
| Phone.PhoneReMatchesIff | manager.py:36 | the pattern matches exactly the E.164 numbers (`+` and 7 to 15 digits), plus an E.164 number followed by one newline |
| Phone.ValidatePhone | manager.py:150-153 | a rejection always carries the message "phone number must be E.164 (start with '+' and digits)" |
| Phone.RejectedExamples | manager.py:150-153 | a number without `+`, one with 3 digits and one with 16 digits are rejected |
| Phone.AcceptsE164 | manager.py:150-153 | every E.164 number passes validation, with or without one trailing newline |
| Phone.AcceptedExamples | manager.py:150-153 | "+15551234567" passes, and so does the same text followed by a newline |
| Text.NatToDecimal | manager.py:141 | `str` of a natural number is a non-empty string of digits with no leading zero |
| Text.DecimalRoundTrip | manager.py:141 | reading back the decimal text of a natural number gives the number |
| Text.IntToDecimalRoundTrip | manager.py:141 | `str(timestamp)` is well-formed integer text (optional `-`, then digits), and parsing it gives the timestamp back, negative values included |
| Text.IntToDecimalInjective | manager.py:141 | different integers have different decimal texts |
| Text.HexFixed | manager.py:121 | the hex rendering has exactly the requested width and only lower-case hex digits |
| Text.HexRoundTrip | manager.py:121 | a number below 16^width reads back from its fixed-width hex |
| Text.LowerIsTrue | manager.py:61 | `text.lower() == "true"` holds exactly when the text spells "true" in any mix of cases |
| Platform.LiveKitApi.constructor | manager.py:66-70 | a new client keeps its url, key, secret and reply script, with an empty trace, and is open |
| Platform.LiveKitApi.CreateDispatch | manager.py:127-133 | the dispatch request is appended to the trace, and the reply is the script's entry for that position |
| Platform.LiveKitApi.CreateSipParticipant | manager.py:106 | the SIP request is appended to the trace, and the reply is the script's entry for that position |
| Platform.LiveKitApi.AClose | manager.py:158 | the close is appended to the trace, and the client is closed |
| Calls.RequireEnv | manager.py:29-33 | `_e` succeeds exactly when the variable is set and non-empty, and then returns its value; otherwise the error is `EnvironmentError("<var> env var is required")` |
| Calls.ResolveTrunkId | manager.py:57 | a trunk id exists exactly when the argument or `SIP_TRUNK_ID` is non-empty; a non-empty argument wins; the result is never empty; otherwise the error is the `EnvironmentError` for `SIP_TRUNK_ID` |
| Calls.ResolveKrisp | manager.py:58-62 | a given flag is used as is; with no flag and no `KRISP_ENABLED` the flag is on; otherwise it is on exactly when the variable spells "true" in any case |
| Calls.KrispRejectsOtherSpellings | manager.py:61 | "1", "yes", "on", the empty string and "True " all switch the flag off |
| Calls.UuidHex | manager.py:121 | `uuid.hex` is 32 lower-case hex digits |
| Calls.RoomName | manager.py:121 | the room name is "outbound-" followed by 32 lower-case hex digits |
| Calls.RoomNameRoundTrip | manager.py:121 | the UUID can be read back from its room name |
| Calls.RoomNameInjective | manager.py:121 | two calls get the same room only if their UUIDs are equal |
| Calls.IdentityParts | manager.py:141 | the identity is the caller name (even an empty one), then "-caller-", then text that parses back to the timestamp |
| Calls.IdentityInjective | manager.py:141 | for one caller name, different timestamps give different identities |
| Calls.DisplayName | manager.py:142 | the display name is never empty; it is the caller name when that is non-empty, and "Caller" otherwise |
| Calls.AbsentMetadataIsNotEmptyObject | manager.py:131 | missing metadata is sent as "null", which differs from the JSON of an empty map |
| Calls.WaitMs | manager.py:88 | every back-off lies between the 0.5 s minimum and the 4 s maximum |
| Calls.WaitSchedule | manager.py:88 | the sleeps after the first and second failed attempts are 500 ms and then 1000 ms |
| Calls.RetryDialShape | manager.py:88-106 | for any replies, the retried dial sends 1 to 3 identical requests with the back-off schedule between them; every attempt before the last raised; it succeeds exactly when the last attempt was answered, with that answer; and a failure is always the third attempt's `RetryError` |
| Calls.RetryDialAfterFailures | manager.py:88-106 | after attempts 1 .. a-1 raised, the whole run is a-1 identical requests and their sleeps, followed by the run from attempt a |
| Calls.RetrySucceedsFrom | manager.py:88-106 | if attempts a .. k-1 raise and attempt k is answered, the run is k-a+1 identical requests, their sleeps, and attempt k's answer |
| Calls.RetryExhaustedFrom | manager.py:88-106 | if attempts a .. 3 all raise, the run is their requests and sleeps, ending in `RetryError(3, third exception)` |
| Calls.RetryConnectedOn | manager.py:88-106 | if dial attempts 1 .. k-1 raise and attempt k is answered, there are k requests with sleeps 500 and 1000 ms cut to k-1, and the result is attempt k's participant |
| Calls.RetryExhaustedAfter | manager.py:88-106 | three raising attempts give three requests, sleeps of 500 and 1000 ms, and `RetryError` holding the third exception |
| Calls.RetryDialFailsIffAllRaise | manager.py:88-106 | the retried dial fails exactly when all three attempts raise |
| Calls.CallSpecRejected | manager.py:119 | the rejected-number case of `CallSpec`, unfolded as a proof step for `CreateOutboundCall`: a rejected number ends the call with the `ValueError` message, with nothing sent and no sleep |
| Calls.CallSpecDispatchRaised | manager.py:127-133 | the dispatch-raised case of `CallSpec`, unfolded as a proof step for `CreateOutboundCall`: a dispatch that raises ends the call with that exception, after the one dispatch request |
| Calls.CallSpecAfterDispatch | manager.py:127-146 | the answered-dispatch case of `CallSpec`, unfolded as a proof step: after an answered dispatch, the call's requests are the dispatch followed by the retried dial's requests; its sleeps are the dial's; its result is the dial's participant with the room, or the dial's error |
| Calls.RejectedNumberSendsNothing | manager.py:119-127 | the call sends nothing exactly when the pattern rejects the number; a rejected number fails with `ValueError` and no sleep, and so does every non-E.164 number without a final newline |
| Calls.DispatchOnceThenDials | manager.py:127-143 | for an accepted number the first request is the only dispatch, naming the agent, the room and the metadata JSON ("null" without a map); every later request is the same dial request, built from the trunk id, number, room, identity, display name, krisp flag and wait-until-answered; there are at most three dials |
| Calls.OneRoomPerCall | manager.py:121-146 | every request of a call names the room "outbound-" + the UUID's hex, and a connected call returns that room |
| Calls.DispatchFailurePropagates | manager.py:127-138 | a dispatch exception leaves the call unchanged, and no dial is sent |
| Calls.ConnectedOnAttempt | manager.py:138-146 | when dial attempt k (at most 3) is the first one answered, the call returns that participant and the room, after one dispatch, k identical dials and sleeps of 500 ms, then 1000 ms, between them |
| Calls.DialExhausted | manager.py:138-146 | when all three dials raise, the call fails with `RetryError` holding the third exception, after one dispatch, three identical dials and sleeps of 500 and 1000 ms |
| Calls.FailureKinds | manager.py:119-143 | the call fails with the validation `ValueError` exactly for a rejected number, with `Raised` (the dispatch's own exception) exactly when the dispatch raises, and with `RetryError` exactly when all three dials raise; it never fails with `_e`'s missing-variable `EnvironmentError`; a remote exception of any Python class, `OSError` included, arrives as `Raised` or inside `RetryError` |
| Manager.ManagerClass.constructor | manager.py:45 | at import time there is no shared client |
| Manager.OutboundCallManager.Init | manager.py:57-71 | the manager holds the given trunk id, flag and client |
| Manager.OutboundCallManager.New | manager.py:47-71 | construction succeeds exactly when a trunk id resolves, and otherwise raises the `EnvironmentError` without creating a client; the manager holds the resolved trunk id and flag and the shared client; an existing client is reused; a client is created only when there is none, with this construction's url, key and secret |
| Manager.OutboundCallManager.Dial | manager.py:97-106 | one attempt sends exactly one SIP request with the manager's trunk id and flag and wait-until-answered set, and returns the platform's reply |
| Manager.OutboundCallManager.DialWithRetry | manager.py:88-106 | the loop sends the requests `RetryDial` describes and returns its result and sleeps |
| Manager.OutboundCallManager.CreateOutboundCall | manager.py:110-146 | the call sends exactly the requests `CallSpec` describes, in order, and returns its outcome and sleeps; it leaves the client's closed flag as it was |
| Manager.OutboundCallManager.Close | manager.py:155-158 | the shared client is closed, and the close is recorded |
| Manager.SharedClientSurvivesClose | manager.py:65-71 | two managers of one process share one client; a manager built after `close` gets the closed client and ignores its own url |

## Left out

- `api_service.py` is not part of this model. It holds the HTTP routes, the request schemas and the settings loader, and it maps `ValueError` to 422 and every other error to 500.
- `_wait_for_agent` is not modelled. It is a polling loop on the monotonic clock with a float timeout, and it is never called: its call is commented out at manager.py:135.
- Logging and `load_dotenv` are not modelled. They do not affect what is sent or returned.
- asyncio scheduling, concurrency and cancellation are not modelled: calls run one after another on one client.
- Real sleeping is not modelled: back-offs are recorded as milliseconds, and no clock advances.
- The LiveKit client's own behaviour is not modelled. This includes checking url, key and secret, reconnecting, failing on `aclose`, and refusing requests on a closed client. A request on a closed client is answered by the script like any other.
- `json.dumps` of a present metadata map is an opaque, total parameter; only the absent map's "null" is fixed. In Python, `json.dumps` raises `TypeError` on a map it cannot serialise (manager.py:131), after validation and before any request; the model does not capture that failure.
- Phone.PhoneReMatches: `\d` is modelled as the ASCII digits 0-9. Python's `\d` on `str` also matches other Unicode decimal digits.
- Text.Lower: only ASCII letters are lower-cased. `Text.LowerIsTrue` is still exact for the comparison with "true", because no other character lower-cases to one of its letters.
- The UUID and the clock reading are inputs. The model does not state that `uuid4` sets the version nibble to 4; any 128-bit value is allowed.
- Phone.ValidatePhone: its own contract states only the message text. Which numbers it accepts is stated by `Phone.PhoneReMatchesIff`.
