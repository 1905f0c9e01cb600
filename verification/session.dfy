/**
 * One quote session of `fetch_financial_data`: the session id, the six handshake frames sent on
 * open, and the two fetcher variants. The transport is a parameter: `inbound` is the sequence of
 * messages the socket delivers (for the timeout variant, those delivered before the timeout), and
 * `decode` stands for `json.loads`, `None` meaning it raised.
 */
module Session {
  import opened Wrappers
  import opened Strings
  import opened Json
  import opened FrameCodec
  import opened Snapshot

  const SESSION_PREFIX := "qs_"

  /**
   * `"qs_" + ''.join(random.choices(ascii_letters + digits, k=12))`, the random draw being `chars`.
   */
  function SessionId(chars: string): (id: string)
    requires |chars| == 12 && forall i :: 0 <= i < 12 ==> IsAsciiAlnum(chars[i])
    ensures |id| == 15 && StartsWith(id, SESSION_PREFIX)
    ensures forall i :: 3 <= i < 15 ==> IsAsciiAlnum(id[i])
    ensures id[3..] == chars
  {
    SESSION_PREFIX + chars
  }

  /** A double-quoted JSON string whose text needs no escaping. */
  function Quote(s: string): string {
    "\"" + s + "\""
  }

  /** The text that opens a request for the method `name`: `{"m":"<name>","p":[`. */
  function RequestHead(name: string): string {
    "{\"m\":\"" + name + "\",\"p\":["
  }

  /** The methods of the handshake requests, in the order they are sent. */
  const HANDSHAKE_METHODS := ["set_data_quality", "set_auth_token", "set_locale",
                              "quote_create_session", "quote_add_symbols", "quote_fast_symbols"]

  const CREATE_SESSION_HEAD := RequestHead("quote_create_session")
  const ADD_SYMBOLS_HEAD := RequestHead("quote_add_symbols")
  const FAST_SYMBOLS_HEAD := RequestHead("quote_fast_symbols")

  /**
   * The six request payloads sent on open, in order, with the session id and symbol spliced in
   * unescaped: each is a request for the method in the same place of `HANDSHAKE_METHODS`.
   */
  function HandshakePayloads(sessionId: string, symbol: string): (ps: seq<string>)
    ensures |ps| == |HANDSHAKE_METHODS| == 6
    ensures forall i :: 0 <= i < 6 ==> StartsWith(ps[i], RequestHead(HANDSHAKE_METHODS[i]))
  {
    var ps := [RequestHead("set_data_quality") + "\"low\"]}",
               RequestHead("set_auth_token") + "\"unauthorized_user_token\"]}",
               RequestHead("set_locale") + "\"en\",\"US\"]}",
               CREATE_SESSION_HEAD + "\"" + sessionId + "\"]}",
               ADD_SYMBOLS_HEAD + "\"" + sessionId + "\",\"" + symbol + "\"]}",
               FAST_SYMBOLS_HEAD + "\"" + sessionId + "\",\"" + symbol + "\"]}"];
    assert forall i :: 0 <= i < 6 ==> ps[i][..|RequestHead(HANDSHAKE_METHODS[i])|] == RequestHead(HANDSHAKE_METHODS[i]);
    ps
  }

  /** The `messages` list: each payload wrapped by `create_message`, one transport message each. */
  function HandshakeFrames(sessionId: string, symbol: string): (fs: seq<string>)
    ensures |fs| == 6
  {
    var ps := HandshakePayloads(sessionId, symbol);
    seq(6, i requires 0 <= i < 6 => CreateMessage(ps[i]))
  }

  /**
   * The session requests carry the id (and the symbol) as quoted parameters right after the method
   * name; the first three payloads do not depend on either.
   */
  lemma HandshakeParameters(sessionId: string, symbol: string, otherId: string, otherSymbol: string)
    ensures var ps := HandshakePayloads(sessionId, symbol);
      && ps[3] == CREATE_SESSION_HEAD + Quote(sessionId) + "]}"
      && ps[4] == ADD_SYMBOLS_HEAD + Quote(sessionId) + "," + Quote(symbol) + "]}"
      && ps[5] == FAST_SYMBOLS_HEAD + Quote(sessionId) + "," + Quote(symbol) + "]}"
    ensures HandshakePayloads(sessionId, symbol)[..3] == HandshakePayloads(otherId, otherSymbol)[..3]
  {
    var ps := HandshakePayloads(sessionId, symbol);
    var q, r := Quote(sessionId), Quote(symbol);
    assert ps[3] == CREATE_SESSION_HEAD + q + "]}" by {
      assert "\"]}" == "\"" + "]}";
    }
    assert ps[4] == ADD_SYMBOLS_HEAD + q + "," + r + "]}" by {
      assert "\",\"" == "\"" + "," + "\"";
      assert "\"]}" == "\"" + "]}";
    }
    assert ps[5] == FAST_SYMBOLS_HEAD + q + "," + r + "]}" by {
      assert "\",\"" == "\"" + "," + "\"";
      assert "\"]}" == "\"" + "]}";
    }
  }

  /** Each handshake message scans back to exactly its payload: the length prefix is right. */
  lemma HandshakeRoundTrip(sessionId: string, symbol: string)
    ensures forall i :: 0 <= i < 6 ==>
      Scan(HandshakeFrames(sessionId, symbol)[i]) == [HandshakePayloads(sessionId, symbol)[i]]
    ensures Scan(Frames(HandshakePayloads(sessionId, symbol))) == HandshakePayloads(sessionId, symbol)
  {
    var ps := HandshakePayloads(sessionId, symbol);
    var fs := HandshakeFrames(sessionId, symbol);
    forall i | 0 <= i < 6 ensures Scan(fs[i]) == [ps[i]] {
      SingleFrame(ps[i]);
    }
    RoundTrip(ps);
  }

  lemma SingleFrame(content: string)
    ensures Scan(CreateMessage(content)) == [content]
  {
    RoundTrip([content]);
    assert Frames([content]) == CreateMessage(content) + "";
    assert CreateMessage(content) + "" == CreateMessage(content);
  }

  /** The state a fetch starts in. */
  function Start(symbol: string): State {
    State(InitialSnapshot(symbol), false)
  }

  /**
   * The first-delta fetch: messages are handled in order until one accepted segment has set the
   * flag and closed the socket; the rest of that message's segments are still handled, later
   * messages are not delivered. `handle` gives the deltas of one message.
   */
  function UntilReceived(st: State, inbound: seq<string>, handle: string -> seq<Delta>): State
    decreases |inbound|
  {
    if inbound == [] || st.received then st
    else UntilReceived(ApplyDeltas(st, handle(inbound[0])), inbound[1..], handle)
  }

  /** `fetch_financial_data` with a timeout: handshake, handle what arrives, return the dictionary. */
  method FetchFinancialData(symbol: string, chars: string, inbound: seq<string>, decode: string -> Option<Json>)
    returns (sent: seq<string>, financialData: map<string, Json>)
    requires |chars| == 12 && forall i :: 0 <= i < 12 ==> IsAsciiAlnum(chars[i])
    ensures sent == HandshakeFrames(SessionId(chars), symbol)
    ensures financialData == ApplyMessages(Start(symbol), inbound, Handler(decode)).data
    ensures financialData.Keys == KEY_SET
  {
    var sessionId := SessionId(chars);
    sent := HandshakeFrames(sessionId, symbol);
    var acc := new Accumulator(symbol);
    for i := 0 to |inbound|
      invariant acc.Valid()
      invariant acc.Current() == ApplyMessages(Start(symbol), inbound[..i], Handler(decode))
    {
      acc.OnMessage(inbound[i], decode);
      assert inbound[..i + 1][..i] == inbound[..i];
    }
    assert inbound[..|inbound|] == inbound;
    financialData := acc.data;
  }

  /** `fetch_financial_data` of the single-company fetcher: `None` unless an update was accepted. */
  method FetchFinancialDataFirstDelta(symbol: string, chars: string, inbound: seq<string>, decode: string -> Option<Json>)
    returns (sent: seq<string>, result: Option<map<string, Json>>)
    requires |chars| == 12 && forall i :: 0 <= i < 12 ==> IsAsciiAlnum(chars[i])
    ensures sent == HandshakeFrames(SessionId(chars), symbol)
    ensures var final := UntilReceived(Start(symbol), inbound, Handler(decode));
      result == if final.received then Some(final.data) else None
  {
    var sessionId := SessionId(chars);
    sent := HandshakeFrames(sessionId, symbol);
    var acc := new Accumulator(symbol);
    var i := 0;
    while i < |inbound| && !acc.receivedData
      invariant 0 <= i <= |inbound| && acc.Valid()
      invariant UntilReceived(acc.Current(), inbound[i..], Handler(decode)) == UntilReceived(Start(symbol), inbound, Handler(decode))
    {
      acc.OnMessage(inbound[i], decode);
      i := i + 1;
    }
    result := if acc.receivedData then Some(acc.data) else None;
  }

  /** A message accepts an update when one of its deltas is accepted (for `Handler`: an accepted `qsd` segment). */
  predicate Accepts(message: string, handle: string -> seq<Delta>) {
    AnyAccepted(handle(message))
  }

  /** The first-delta fetch yields nothing exactly when no delivered message accepts an update. */
  lemma {:induction false} NoneIffNothingAccepted(st: State, inbound: seq<string>, handle: string -> seq<Delta>)
    requires !st.received
    ensures !UntilReceived(st, inbound, handle).received <==> forall i :: 0 <= i < |inbound| ==> !Accepts(inbound[i], handle)
    decreases |inbound|
  {
    if inbound != [] {
      var next := ApplyDeltas(st, handle(inbound[0]));
      ReceivedIffAccepted(st, handle(inbound[0]));
      if !next.received {
        NoneIffNothingAccepted(next, inbound[1..], handle);
        assert forall i :: 1 <= i < |inbound| ==> inbound[i] == inbound[1..][i - 1];
      }
    }
  }

  /**
   * The first-delta fetch stops at the first accepting message: its result is the state after
   * exactly the messages up to and including that one.
   */
  lemma {:induction false} StopsAtFirstAccepting(st: State, inbound: seq<string>, handle: string -> seq<Delta>, k: nat)
    requires !st.received && k < |inbound| && Accepts(inbound[k], handle)
    requires forall i :: 0 <= i < k ==> !Accepts(inbound[i], handle)
    ensures UntilReceived(st, inbound, handle) == ApplyMessagesFrom(st, inbound[..k + 1], handle)
    decreases k
  {
    ReceivedIffAccepted(st, handle(inbound[0]));
    assert inbound[..k + 1][0] == inbound[0];
    if k == 0 {
      assert inbound[..1][1..] == [];
    } else {
      assert !Accepts(inbound[0], handle);
      assert inbound[1..][k - 1] == inbound[k];
      forall i | 0 <= i < k - 1 ensures !Accepts(inbound[1..][i], handle) {
        assert inbound[1..][i] == inbound[i + 1];
      }
      StopsAtFirstAccepting(ApplyDeltas(st, handle(inbound[0])), inbound[1..], handle, k - 1);
      assert inbound[..k + 1][1..] == inbound[1..][..k];
    }
  }

  /** The messages handled in order from the front (with `Handler(decode)`, the fold `ApplyMessages` unrolls from the back). */
  function ApplyMessagesFrom(st: State, messages: seq<string>, handle: string -> seq<Delta>): State
    decreases |messages|
  {
    if messages == [] then st
    else ApplyMessagesFrom(ApplyDeltas(st, handle(messages[0])), messages[1..], handle)
  }

  lemma {:induction false} FromSnoc(st: State, messages: seq<string>, m: string, handle: string -> seq<Delta>)
    ensures ApplyMessagesFrom(st, messages + [m], handle) == ApplyDeltas(ApplyMessagesFrom(st, messages, handle), handle(m))
    decreases |messages|
  {
    if messages == [] {
      assert [m][1..] == [];
    } else {
      assert (messages + [m])[0] == messages[0];
      assert (messages + [m])[1..] == messages[1..] + [m];
      FromSnoc(ApplyDeltas(st, handle(messages[0])), messages[1..], m, handle);
    }
  }

  /** Both folds handle the same messages in the same order, so they agree. */
  lemma {:induction false} FromAgreesWithApplyMessages(st: State, messages: seq<string>, handle: string -> seq<Delta>)
    ensures ApplyMessagesFrom(st, messages, handle) == ApplyMessages(st, messages, handle)
    decreases |messages|
  {
    if messages != [] {
      var init, last := messages[..|messages| - 1], messages[|messages| - 1];
      FromAgreesWithApplyMessages(st, init, handle);
      FromSnoc(st, init, last, handle);
      assert init + [last] == messages;
    }
  }

  /** The timeout fetch always returns the full dictionary, so its result is never empty or `None`. */
  lemma TimeoutFetchAlwaysAnswers(symbol: string, inbound: seq<string>, decode: string -> Option<Json>)
    ensures ApplyMessages(Start(symbol), inbound, Handler(decode)).data.Keys == KEY_SET
    ensures "symbol" in ApplyMessages(Start(symbol), inbound, Handler(decode)).data
  {
    forall i | 0 <= i < |inbound| ensures StaysInKeys(Handler(decode)(inbound[i])) {
      MessageStaysInKeys(inbound[i], decode);
    }
    MessagesKeepKeys(Start(symbol), inbound, Handler(decode));
    SymbolIsKey();
  }

  /** The segments of one message write only snapshot keys. */
  lemma MessageStaysInKeys(message: string, decode: string -> Option<Json>)
    ensures StaysInKeys(MessageDeltas(message, decode))
  {
  }

  lemma {:induction false} MessagesKeepKeys(st: State, inbound: seq<string>, handle: string -> seq<Delta>)
    requires st.data.Keys == KEY_SET
    requires forall i :: 0 <= i < |inbound| ==> StaysInKeys(handle(inbound[i]))
    ensures ApplyMessages(st, inbound, handle).data.Keys == KEY_SET
    decreases |inbound|
  {
    if inbound != [] {
      var init := inbound[..|inbound| - 1];
      assert forall i :: 0 <= i < |init| ==> init[i] == inbound[i];
      MessagesKeepKeys(st, init, handle);
      KeysPreserved(ApplyMessages(st, init, handle), handle(inbound[|inbound| - 1]));
    }
  }
}
