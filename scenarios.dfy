/** Client-side consequences of the middleware's contracts, one behaviour each. */
module Scenarios {
  import opened Wrappers
  import opened Assistant
  import opened Middleware
  import Utils

  /** "hello\tworld\n!" is sent as "hello world !". */
  lemma SanitizeExample(text: string)
    requires text == "hello\tworld\n!"
    ensures Sanitize(text) == "hello world !"
  {
    var expected := "hello world !";
    forall k | 0 <= k < |text|
      ensures Sanitize(text)[k] == expected[k]
    {
      assert IsBreak(text[k]) <==> k == 5 || k == 11;
    }
  }

  /**
   * A run of ignored messages never binds the storage, so the context accessors
   * keep throwing; each message carries the dummy response.
   */
  method IgnoredRunLeavesStorageUnbound(m: WatsonMiddlewareV2, store: Utils.Storage, messages: seq<Message>, user: string)
      returns (read: Result<Option<JsValue>, Error>)
    requires m.Valid() && m.storage == null
    requires forall k :: 0 <= k < |messages| ==> Ignored(messages[k].event)
    modifies m, store`entries, set k | 0 <= k < |messages| :: messages[k]
    ensures m.storage == null && m.calls == old(m.calls) && store.entries == old(store.entries)
    ensures forall k :: 0 <= k < |messages| ==> messages[k].watsonData == Some(DummyResponse)
    ensures read == Failure(Thrown(ReadBeforeReceive))
  {
    var i := 0;
    while i < |messages|
      invariant 0 <= i <= |messages|
      invariant m.Valid() && m.storage == null && m.calls == old(m.calls) && store.entries == old(store.entries)
      invariant forall k :: 0 <= k < i ==> messages[k].watsonData == Some(DummyResponse)
    {
      m.SendToWatson(store, messages[i], Null, 0, 0, Failure(RemoteError("", "")), Failure(RemoteError("", "")));
      i := i + 1;
    }
    read := m.ReadContext(user);
  }

  /**
   * Two checks within the inactivity window share one session; the boundary
   * instant still reuses it, and the first check after it creates a new one.
   */
  method SessionReuse(m: WatsonMiddlewareV2, t: int)
    requires m.Valid() && m.expiringSession.None? && m.inactivityTimeOut == 5.0
    modifies m`sessionId, m`expiringSession, m`calls
    ensures m.sessionId == Some("second")
    ensures m.calls == old(m.calls) + [CreateSessionCall(m.assistantId), CreateSessionCall(m.assistantId)]
  {
    var r := m.CheckExpiringSession(t, t, Success("first"));
    assert m.expiringSession == Some(t as real + 300000.0);
    r := m.CheckExpiringSession(t + 300000, t + 300000, Success("unused"));
    assert m.sessionId == Some("first");
    r := m.CheckExpiringSession(t + 300001, t + 300001, Success("second"));
  }

  /**
   * After an exchange on a store whose reads and writes succeed, reading the
   * user's context back returns the context of the response just received
   * (`null` when that context is falsy).
   */
  method ReceiveThenReadBack(m: WatsonMiddlewareV2, store: Utils.Storage, message: Message, response: Response, now: int)
      returns (read: Result<Option<JsValue>, Error>)
    requires m.Valid() && m.before == PassPayload && m.after == PassResponse
    requires !Ignored(message.event)
    requires store.readFault.None? && store.writeFault.None?
    modifies m, message, store`entries
    ensures read == Success(if Truthy(response.context) then Some(response.context) else None)
  {
    m.Receive(store, message, now, now, Success("session"), Success(response));
    read := m.ReadContext(message.event.user);
  }
}
