/**
 * The middleware class `WatsonMiddlewareV2` of src/index.ts: the message gate,
 * the lazily refreshed assistant session, the payload builder and the
 * orchestration of one exchange with the assistant service.
 */
module Middleware {
  import opened Wrappers
  import opened Assistant
  import Utils

  /** The fields of an inbound chat message that the middleware reads. */
  datatype Inbound = Inbound(
    text: string,      // `text`; an absent text is ""
    kind: string,      // `type`
    replyTo: bool,     // whether `reply_to` is truthy
    botId: bool,       // whether `bot_id` is truthy
    user: string)      // `user`

  /** An inbound message object, onto which the middleware writes its results. */
  class Message {
    const event: Inbound
    var watsonData: Option<Response>
    var watsonError: Option<Error>

    constructor (event: Inbound)
      ensures this.event == event && watsonData.None? && watsonError.None?
    {
      this.event := event;
      watsonData := None;
      watsonError := None;
    }
  }

  /** Event types initiated by the chat platform itself, never forwarded. */
  const IgnoreTypes: seq<string> := ["presence_change", "reconnect_url"]

  /** The message gate: true when the message is answered locally and not forwarded. */
  predicate Ignored(ev: Inbound): (r: bool)
    ensures !r <==>
              && (ev.text != "" || ev.kind == "welcome")
              && ev.kind != "presence_change" && ev.kind != "reconnect_url"
              && !ev.replyTo && !ev.botId
  {
    (ev.text == "" && ev.kind != "welcome")
    || ev.kind in IgnoreTypes
    || ev.replyTo
    || ev.botId
  }

  /** The dummy response attached to an ignored message: `{output: {text: []}}`. */
  const DummyResponse: Response := Response(Obj(map["text" := Arr([])]), Undefined, None)

  /** The characters the service refuses in input text. */
  predicate IsBreak(c: char) {
    c == '\r' || c == '\n' || c == '\t'
  }

  /** `text.replace(/[\r\n\t]/g, ' ')`. */
  function Sanitize(text: string): (r: string)
    ensures |r| == |text|
    ensures forall k :: 0 <= k < |text| ==> r[k] == if IsBreak(text[k]) then ' ' else text[k]
  {
    if text == "" then "" else [if IsBreak(text[0]) then ' ' else text[0]] + Sanitize(text[1..])
  }

  /** Sanitized text holds no carriage return, newline or tab. */
  lemma SanitizedHasNoBreaks(text: string)
    ensures forall k :: 0 <= k < |Sanitize(text)| ==> !IsBreak(Sanitize(text)[k])
  {
  }

  /** Text without such characters is sent as it is. */
  lemma SanitizeKeepsCleanText(text: string)
    requires forall k :: 0 <= k < |text| ==> !IsBreak(text[k])
    ensures Sanitize(text) == text
  {
  }

  /** A truthy stored context, as `if (userContext)` tests it. */
  predicate HasContext(stored: Option<JsValue>) {
    stored.Some? && Truthy(stored.value)
  }

  /**
   * The context sent with a message: with no delta, the stored context (omitted
   * when there is none); with a delta and no stored context, the delta; with
   * both, their deep merge.
   */
  function ResolveContext(stored: Option<JsValue>, delta: JsValue, merge: (JsValue, JsValue) -> JsValue): (r: Option<JsValue>)
    ensures r.Some? <==> Truthy(delta) || HasContext(stored)
    ensures !Truthy(delta) && r.Some? ==> r == stored
    ensures Truthy(delta) ==> r == Some(if HasContext(stored) then merge(stored.value, delta) else delta)
  {
    if !Truthy(delta) then (if HasContext(stored) then stored else None)
    else if !HasContext(stored) then Some(delta)
    else Some(merge(stored.value, delta))
  }

  /** The error text of a failed session creation. */
  function SessionErrorText(e: RemoteError): string {
    "Failed to renew session error code" + e.code + ", message: " + e.message
  }

  /** The error text of a failed session deletion. */
  function DeleteErrorText(e: RemoteError): string {
    "Failed to delete user data, response code: " + e.code + ", message: " + e.message
  }

  /** The session error text carries the remote code and message, readable back at fixed positions. */
  lemma SessionErrorCarriesCause(e: RemoteError)
    ensures var t, n := SessionErrorText(e), 34;
            t[n..n + |e.code|] == e.code && t[n + |e.code| + 11..] == e.message
  {
  }

  /** The same for the deletion error text. */
  lemma DeleteErrorCarriesCause(e: RemoteError)
    ensures var t, n := DeleteErrorText(e), 43;
            t[n..n + |e.code|] == e.code && t[n + |e.code| + 11..] == e.message
  {
  }

  const ReadBeforeReceive: string := "readContext is called before the first this.receive call"
  const UpdateBeforeReceive: string := "updateContext is called before the first this.receive call"

  /** A call made to the assistant service. */
  datatype Call =
    | CreateSessionCall(assistantId: string)
    | MessageCall(request: Payload)
    | DeleteSessionCall(assistantId: string, sessionId: string)

  /** A session is renewed when it was never created or its expiry lies strictly before now. */
  predicate SessionExpired(expiry: Option<real>, now: int) {
    expiry.None? || expiry.value < now as real
  }

  /** A session expiring exactly now is still reused. */
  lemma ReusedAtExpiry(expiry: real, now: int)
    requires expiry == now as real
    ensures !SessionExpired(Some(expiry), now)
  {
  }

  /** The outcome of one forwarded exchange: the request sent, if any, and the final response or the error. */
  datatype Exchange = Exchange(request: Option<Payload>, result: Result<Response, Error>)

  /** The default `before` hook: the payload, unchanged. */
  function PassPayload(message: Inbound, payload: Payload): Result<Payload, string> {
    Success(payload)
  }

  /** The default `after` hook: the response, unchanged. */
  function PassResponse(message: Inbound, response: Response): Result<Response, string> {
    Success(response)
  }

  class WatsonMiddlewareV2 {
    const assistantId: string
    const inactivityTimeOut: real
    const minimumConfidence: real
    /** The overridable hooks and the deep merge of contexts, external to this model. */
    const before: (Inbound, Payload) -> Result<Payload, string>
    const after: (Inbound, Response) -> Result<Response, string>
    const merge: (JsValue, JsValue) -> JsValue

    var storage: Utils.Storage?
    var sessionId: Option<string>
    var expiringSession: Option<real>
    /** Every call made to the assistant service, in order. */
    ghost var calls: seq<Call>

    /** A recorded expiry always comes with a session id. */
    ghost predicate Valid()
      reads this
    {
      expiringSession.Some? ==> sessionId.Some?
    }

    /**
     * The timeout (minutes) and the confidence threshold default to 5 and 0.5;
     * an argument replaces its default only when it is truthy, so 0 keeps it.
     */
    constructor (
      assistantId: string,
      inactivityTimeOut: Option<real>,
      minimumConfidence: Option<real>,
      before: (Inbound, Payload) -> Result<Payload, string>,
      after: (Inbound, Response) -> Result<Response, string>,
      merge: (JsValue, JsValue) -> JsValue)
      ensures Valid()
      ensures this.assistantId == assistantId
      ensures this.inactivityTimeOut ==
                if inactivityTimeOut.Some? && inactivityTimeOut.value != 0.0 then inactivityTimeOut.value else 5.0
      ensures this.minimumConfidence ==
                if minimumConfidence.Some? && minimumConfidence.value != 0.0 then minimumConfidence.value else 0.5
      ensures this.before == before && this.after == after && this.merge == merge
      ensures storage == null && sessionId.None? && expiringSession.None? && calls == []
    {
      this.assistantId := assistantId;
      var confidence := 0.5;
      if minimumConfidence.Some? && minimumConfidence.value != 0.0 {
        confidence := minimumConfidence.value;
      }
      this.minimumConfidence := confidence;
      var timeout := 5.0;
      if inactivityTimeOut.Some? && inactivityTimeOut.value != 0.0 {
        timeout := inactivityTimeOut.value;
      }
      this.inactivityTimeOut := timeout;
      this.before, this.after, this.merge := before, after, merge;
      storage := null;
      sessionId, expiringSession := None, None;
      calls := [];
    }

    /**
     * `hear(patterns, message)`: whether some intent of the message's response
     * names one of the patterns with at least the minimum confidence.
     */
    method Hear(patterns: seq<string>, message: Message) returns (r: bool)
      ensures r <==>
                message.watsonData.Some? && message.watsonData.value.intents.Some?
                && var intents := message.watsonData.value.intents.value;
                   exists p, i :: 0 <= p < |patterns| && 0 <= i < |intents|
                                  && intents[i].intent == patterns[p]
                                  && intents[i].confidence >= minimumConfidence
    {
      if message.watsonData.Some? && message.watsonData.value.intents.Some? {
        var intents := message.watsonData.value.intents.value;
        var p := 0;
        while p < |patterns|
          invariant 0 <= p <= |patterns|
          invariant forall q, i :: 0 <= q < p && 0 <= i < |intents| ==>
                      !(intents[i].intent == patterns[q] && intents[i].confidence >= minimumConfidence)
        {
          var i := 0;
          while i < |intents|
            invariant 0 <= i <= |intents|
            invariant forall j :: 0 <= j < i ==>
                        !(intents[j].intent == patterns[p] && intents[j].confidence >= minimumConfidence)
          {
            if intents[i].intent == patterns[p] && intents[i].confidence >= minimumConfidence {
              return true;
            }
            i := i + 1;
          }
          p := p + 1;
        }
      }
      return false;
    }

    /** The expiry of a session created at time `createdAt` (milliseconds). */
    function ExpiryAt(createdAt: int): real {
      createdAt as real + inactivityTimeOut * 60.0 * 1000.0
    }

    /**
     * `createSession()`: ask the service for a session of this assistant; on
     * success keep its id and return its expiry, timed from when the reply came.
     */
    method CreateSession(createdAt: int, reply: Reply<string>) returns (r: Result<real, Error>)
      requires Valid()
      modifies this`sessionId, this`calls
      ensures Valid()
      ensures calls == old(calls) + [CreateSessionCall(assistantId)]
      ensures reply.Success? ==> sessionId == Some(reply.value) && r == Success(ExpiryAt(createdAt))
      ensures reply.Failure? ==> sessionId == old(sessionId) && r == Failure(Thrown(SessionErrorText(reply.error)))
    {
      calls := calls + [CreateSessionCall(assistantId)];
      if reply.Failure? {
        return Failure(Thrown(SessionErrorText(reply.error)));
      }
      sessionId := Some(reply.value);
      return Success(ExpiryAt(createdAt));
    }

    /** The session fields after a session check at `now` whose create call, if made, got `reply` at `createdAt`. */
    twostate predicate SessionChecked(now: int, createdAt: int, reply: Reply<string>)
      reads this
    {
      var renewed := SessionExpired(old(expiringSession), now) && reply.Success?;
      && sessionId == (if renewed then Some(reply.value) else old(sessionId))
      && expiringSession == (if renewed then Some(ExpiryAt(createdAt)) else old(expiringSession))
    }

    /** The calls a session check at `now` makes. */
    function SessionCalls(expiry: Option<real>, now: int): seq<Call> {
      if SessionExpired(expiry, now) then [CreateSessionCall(assistantId)] else []
    }

    /** `checkExiringSession()`: renew the session when it has expired, else keep it. */
    method CheckExpiringSession(now: int, createdAt: int, reply: Reply<string>) returns (r: Outcome<Error>)
      requires Valid()
      modifies this`sessionId, this`expiringSession, this`calls
      ensures Valid()
      ensures SessionChecked(now, createdAt, reply)
      ensures calls == old(calls) + SessionCalls(old(expiringSession), now)
      ensures r == if SessionExpired(old(expiringSession), now) && reply.Failure?
                   then Fail(Thrown(SessionErrorText(reply.error))) else Pass
      ensures r.Pass? ==> sessionId.Some?
    {
      if expiringSession.None? || expiringSession.value < now as real {
        var created := CreateSession(createdAt, reply);
        if created.Failure? {
          return Fail(created.error);
        }
        expiringSession := Some(created.value);
      }
      return Pass;
    }

    /** The session id a forward uses: the current one, or a fresh one if the session expired. */
    function SessionFor(sessionId: Option<string>, expiry: Option<real>, now: int, reply: Reply<string>): Result<Option<string>, Error> {
      if !SessionExpired(expiry, now) then Success(sessionId)
      else match reply
        case Success(id) => Success(Some(id))
        case Failure(e) => Failure(Thrown(SessionErrorText(e)))
    }

    /** The payload built for a message's text, the stored context and the delta. */
    function PayloadFor(sessionId: Option<string>, text: string, userContext: Option<JsValue>, delta: JsValue): Payload {
      Payload(assistantId, sessionId, if text != "" then Some(Sanitize(text)) else None,
              ResolveContext(userContext, delta, merge))
    }

    /**
     * Build the payload of a message call: the current assistant and session
     * ids, the sanitized text when there is any, and the resolved context.
     */
    method BuildPayload(text: string, userContext: Option<JsValue>, delta: JsValue) returns (p: Payload)
      ensures p.assistantId == assistantId && p.sessionId == sessionId
      ensures p.input.Some? <==> text != ""
      ensures p.input.Some? ==> p.input.value == Sanitize(text)
      ensures !Truthy(delta) ==> p.context == (if HasContext(userContext) then userContext else None)
      ensures Truthy(delta) && !HasContext(userContext) ==> p.context == Some(delta)
      ensures Truthy(delta) && HasContext(userContext) ==> p.context == Some(merge(userContext.value, delta))
      ensures p == PayloadFor(sessionId, text, userContext, delta)
    {
      p := Payload(assistantId, sessionId, None, None);
      if text != "" {
        p := p.(input := Some(Sanitize(text)));
      }
      if HasContext(userContext) {
        p := p.(context := userContext);
      }
      if Truthy(delta) {
        if !HasContext(userContext) {
          p := p.(context := Some(delta));
        } else {
          p := p.(context := Some(merge(p.context.value, delta)));
        }
      }
    }

    /**
     * The stages of a forwarded exchange after the context was read: session,
     * payload, `before`, the message call, `after`. The first failure ends it.
     */
    function Forward(session: Result<Option<string>, Error>, userContext: Option<JsValue>, ev: Inbound,
                     delta: JsValue, reply: Reply<Response>): (x: Exchange)
      ensures x.request.Some? <==>
                session.Success? && before(ev, PayloadFor(session.value, ev.text, userContext, delta)).Success?
      ensures x.request.Some? ==>
                Success(x.request.value) == before(ev, PayloadFor(session.value, ev.text, userContext, delta))
      ensures x.result.Success? ==>
                x.request.Some? && reply.Success? && after(ev, reply.value) == Success(x.result.value)
    {
      match session
      case Failure(e) => Exchange(None, Failure(e))
      case Success(sid) =>
        match before(ev, PayloadFor(sid, ev.text, userContext, delta))
        case Failure(h) => Exchange(None, Failure(FromHook(h)))
        case Success(request) =>
          match reply
          case Failure(e) => Exchange(Some(request), Failure(FromRemote(e)))
          case Success(response) =>
            match after(ev, response)
            case Failure(h) => Exchange(Some(request), Failure(FromHook(h)))
            case Success(final) => Exchange(Some(request), Success(final))
    }

    /** An exchange fails exactly when one of its stages fails. */
    lemma ForwardFailsIffAStageFails(session: Result<Option<string>, Error>, userContext: Option<JsValue>,
                                     ev: Inbound, delta: JsValue, reply: Reply<Response>)
      ensures Forward(session, userContext, ev, delta, reply).result.Failure? <==>
                session.Failure?
                || before(ev, PayloadFor(session.value, ev.text, userContext, delta)).Failure?
                || reply.Failure?
                || after(ev, reply.value).Failure?
      ensures Forward(session, userContext, ev, delta, reply).result.Success? ==>
                reply.Success? && after(ev, reply.value) == Success(Forward(session, userContext, ev, delta, reply).result.value)
    {
    }

    /** With pass-through hooks, the built payload is sent and the service's response is the result. */
    lemma ForwardWithDefaultHooks(sid: Option<string>, userContext: Option<JsValue>, ev: Inbound,
                                  delta: JsValue, response: Response)
      requires before == PassPayload && after == PassResponse
      ensures Forward(Success(sid), userContext, ev, delta, Success(response))
              == Exchange(Some(PayloadFor(sid, ev.text, userContext, delta)), Success(response))
    {
    }

    /** What `sendToWatson` does to the middleware, the message and the store. */
    twostate predicate Handled(store: Utils.Storage, message: Message, delta: JsValue, now: int, createdAt: int,
                               sessionReply: Reply<string>, messageReply: Reply<Response>)
      reads this, message, store
    {
      if Ignored(message.event) then AnsweredLocally(store, message)
      else Forwarded(store, message, delta, now, createdAt, sessionReply, messageReply)
    }

    /** An ignored message: no session check, no remote call, no store access, storage stays unbound. */
    twostate predicate AnsweredLocally(store: Utils.Storage, message: Message)
      reads this, message, store
    {
      && message.watsonData == Some(DummyResponse)
      && message.watsonError == old(message.watsonError)
      && storage == old(storage)
      && sessionId == old(sessionId) && expiringSession == old(expiringSession)
      && calls == old(calls)
      && store.entries == old(store.entries)
    }

    /**
     * A forwarded message: the storage is bound, the session checked, and the
     * exchange's response attached and persisted, or its failure captured.
     */
    twostate predicate Forwarded(store: Utils.Storage, message: Message, delta: JsValue, now: int, createdAt: int,
                                 sessionReply: Reply<string>, messageReply: Reply<Response>)
      reads this, message, store
    {
      var ev := message.event;
      var x := Forward(SessionFor(old(sessionId), old(expiringSession), now, sessionReply),
                       old(Utils.ReadContext(ev.user, store)), ev, delta, messageReply);
      && storage == store
      && SessionChecked(now, createdAt, sessionReply)
      && calls == old(calls) + SessionCalls(old(expiringSession), now)
                  + (if x.request.Some? then [MessageCall(x.request.value)] else [])
      && match x.result
         case Failure(e) =>
           // Every failure is captured onto the message; nothing is stored.
           && message.watsonData == old(message.watsonData)
           && message.watsonError == Some(e)
           && store.entries == old(store.entries)
         case Success(response) =>
           // The response is attached and persisted; a failed write is captured too.
           && message.watsonData == Some(response)
           && store.entries == old(Utils.EntriesAfterUpdate(ev.user, store, response))
           && message.watsonError ==
                if store.writeFault.None? then old(message.watsonError)
                else Some(FromStore(store.writeFault.value))
    }

    /**
     * `sendToWatson(bot, message, contextDelta)`: answer an ignored message with
     * the dummy response; otherwise bind the bot's storage and forward the
     * message, capturing every failure onto the message instead of throwing.
     */
    method SendToWatson(store: Utils.Storage, message: Message, delta: JsValue, now: int, createdAt: int,
                        sessionReply: Reply<string>, messageReply: Reply<Response>)
      requires Valid()
      modifies this, message, store`entries
      ensures Valid()
      ensures Handled(store, message, delta, now, createdAt, sessionReply, messageReply)
    {
      if Ignored(message.event) {
        message.watsonData := Some(DummyResponse);
        return;
      }
      RunExchange(store, message, delta, now, createdAt, sessionReply, messageReply);
    }

    /** The unfiltered path of `sendToWatson`: bind the storage, then run the `try` block. */
    method RunExchange(store: Utils.Storage, message: Message, delta: JsValue, now: int, createdAt: int,
                       sessionReply: Reply<string>, messageReply: Reply<Response>)
      requires Valid()
      modifies this, message, store`entries
      ensures Valid()
      ensures Forwarded(store, message, delta, now, createdAt, sessionReply, messageReply)
    {
      storage := store;
      var ev := message.event;
      var userContext := Utils.ReadContext(ev.user, store);
      ghost var x := Forward(SessionFor(sessionId, expiringSession, now, sessionReply), userContext, ev, delta, messageReply);
      var checked := CheckExpiringSession(now, createdAt, sessionReply);
      if checked.Fail? {
        message.watsonError := Some(checked.error);
        assert x == Exchange(None, Failure(checked.error));
        return;
      }
      var payload := BuildPayload(ev.text, userContext, delta);
      var request := before(ev, payload);
      if request.Failure? {
        message.watsonError := Some(FromHook(request.error));
        assert x == Exchange(None, Failure(FromHook(request.error)));
        return;
      }
      calls := calls + [MessageCall(request.value)];
      if messageReply.Failure? {
        message.watsonError := Some(FromRemote(messageReply.error));
        assert x == Exchange(Some(request.value), Failure(FromRemote(messageReply.error)));
        return;
      }
      var response := after(ev, messageReply.value);
      if response.Failure? {
        message.watsonError := Some(FromHook(response.error));
        assert x == Exchange(Some(request.value), Failure(FromHook(response.error)));
        return;
      }
      assert x == Exchange(Some(request.value), Success(response.value));
      message.watsonData := Some(response.value);
      var persisted := Utils.UpdateContext(ev.user, store, response.value);
      if persisted.Failure? {
        message.watsonError := Some(persisted.error);
      }
    }

    /** `receive(bot, message)`: forward with no context delta. */
    method Receive(store: Utils.Storage, message: Message, now: int, createdAt: int,
                   sessionReply: Reply<string>, messageReply: Reply<Response>)
      requires Valid()
      modifies this, message, store`entries
      ensures Valid()
      ensures Handled(store, message, Null, now, createdAt, sessionReply, messageReply)
    {
      SendToWatson(store, message, Null, now, createdAt, sessionReply, messageReply);
    }

    /** `interpret(bot, message)`: the same as `receive`. */
    method Interpret(store: Utils.Storage, message: Message, now: int, createdAt: int,
                     sessionReply: Reply<string>, messageReply: Reply<Response>)
      requires Valid()
      modifies this, message, store`entries
      ensures Valid()
      ensures Handled(store, message, Null, now, createdAt, sessionReply, messageReply)
    {
      SendToWatson(store, message, Null, now, createdAt, sessionReply, messageReply);
    }

    /** `readContext(user)`: throws until storage is bound, then reads the user's context. */
    method ReadContext(user: string) returns (r: Result<Option<JsValue>, Error>)
      ensures storage == null ==> r == Failure(Thrown(ReadBeforeReceive))
      ensures storage != null ==> r == Success(Utils.ReadContext(user, storage))
    {
      if storage == null {
        return Failure(Thrown(ReadBeforeReceive));
      }
      var context := Utils.ReadContext(user, storage);
      return Success(context);
    }

    /** `updateContext(user, response)`: throws until storage is bound, then updates the user's record. */
    method UpdateContext(user: string, response: Response) returns (r: Result<Response, Error>)
      modifies if storage == null then {} else {storage}
      ensures storage == null ==> r == Failure(Thrown(UpdateBeforeReceive))
      ensures storage != null ==>
                && storage.entries == old(Utils.EntriesAfterUpdate(user, storage, response))
                && storage.readFault == old(storage.readFault)
                && storage.writeFault == old(storage.writeFault)
                && r == if storage.writeFault.None? then Success(response)
                        else Failure(FromStore(storage.writeFault.value))
    {
      if storage == null {
        return Failure(Thrown(UpdateBeforeReceive));
      }
      r := Utils.UpdateContext(user, storage, response);
    }

    /**
     * `deleteUserData(sessionId)`: check the session first (its failure is
     * thrown), then delete the given session of the current assistant; a
     * rejected deletion is thrown with the remote code and message.
     */
    method DeleteUserData(sid: string, now: int, createdAt: int, sessionReply: Reply<string>,
                          deleteReply: Outcome<RemoteError>) returns (r: Outcome<Error>)
      requires Valid()
      modifies this`sessionId, this`expiringSession, this`calls
      ensures Valid()
      ensures SessionChecked(now, createdAt, sessionReply)
      ensures SessionExpired(old(expiringSession), now) && sessionReply.Failure? ==>
                && calls == old(calls) + [CreateSessionCall(assistantId)]
                && r == Fail(Thrown(SessionErrorText(sessionReply.error)))
      ensures !(SessionExpired(old(expiringSession), now) && sessionReply.Failure?) ==>
                && calls == old(calls) + SessionCalls(old(expiringSession), now) + [DeleteSessionCall(assistantId, sid)]
                && r == if deleteReply.Fail? then Fail(Thrown(DeleteErrorText(deleteReply.error))) else Pass
    {
      var checked := CheckExpiringSession(now, createdAt, sessionReply);
      if checked.Fail? {
        return checked;
      }
      calls := calls + [DeleteSessionCall(assistantId, sid)];
      if deleteReply.Fail? {
        return Fail(Thrown(DeleteErrorText(deleteReply.error)));
      }
      return Pass;
    }
  }
}
