/** Concrete runs of the model: the daemon comes up during the polling, it never comes up,
    and a response arrives as a header chunk followed by a payload chunk. */
module Scenarios {
  import opened Wrappers
  import opened Transport
  import opened Console

  /** Auto-start where the first connect and the first three polls are refused and the fourth
      poll connects: the call gets its connection after five attempts and one launch. */
  lemma AutoStartConnectsOnFourthPoll(st: AppState, script: Script, unix: bool, s: SockId)
    requires st.sock.None?
    requires forall j: nat :: st.env.attempts <= j < st.env.attempts + 4 ==> script.At(j) == Failed(ECONNREFUSED)
    requires script.At(st.env.attempts + 4) == Connected(s)
    ensures var r := AcquireSpec(st, script, unix, false, true);
      r.0.None? && r.1.sock == Some(s) &&
      r.1.env.attempts == st.env.attempts + 5 && r.1.env.launches == st.env.launches + 1
  {
  }

  /** Auto-start against a daemon that never answers: server_start_error, raised after exactly
      1 + START_POLLS attempts and one launch, with nothing sent. */
  lemma AutoStartNeverAnswered(st: AppState, script: Script, unix: bool,
                               codec: Codec, callid: int, params: Bytes)
    requires st.sock.None?
    requires forall j: nat :: script.At(j) == Failed(ECONNREFUSED)
    ensures var r := SvrCallSpec(st, script, unix, codec, callid, params, false, true);
      r.0 == Err(ServerStartError) &&
      r.1.env.attempts == st.env.attempts + 1 + START_POLLS &&
      r.1.env.launches == st.env.launches + 1 &&
      r.1.env.sent == st.env.sent
  {
    AutoStartGivesUpOnlyWhenNoAttemptAnswers(st, script, unix);
  }

  /** A response that arrives as a header chunk and then a payload chunk of the announced
      length is interpreted on exactly that payload, and the stream is left empty. */
  lemma WholeResponseIsInterpreted(st: AppState, codec: Codec, callid: int, params: Bytes,
                                   header: Bytes, payload: Bytes)
    requires |header| == RESP_HEADER_LEN && st.env.inbound == [header, payload]
    requires codec.unpack(header).magic == codec.respMagic
    requires codec.unpack(header).paramlen == |payload|
    requires |params| < MAX_PARAMS
    ensures var r := ExchangeSpec(st, codec, callid, params);
      r.0 == Interpret(codec, codec.unpack(header), payload) && Flatten(r.1.env.inbound) == []
  {
    assert Flatten([payload]) == payload;
    assert Flatten(st.env.inbound) == header + payload;
    assert Take(st.env.inbound, RESP_HEADER_LEN) == (header, [payload]);
    assert [] + header == header;
    assert ReadHeader(st.env.inbound, []) == ReadHeader([payload], header) == (header, [payload]);
  }

  /** The daemon answers with an exception whose text is "boom": the call raises an error whose
      message is "boom". */
  lemma RemoteExceptionCarriesItsMessage(st: AppState, codec: Codec, callid: int, params: Bytes,
                                         header: Bytes)
    requires |header| == RESP_HEADER_LEN && st.env.inbound == [header, Boom()]
    requires codec.unpack(header) == RespHeader(codec.respMagic, codec.respExc, 4)
    requires codec.respRet != codec.respExc
    requires |params| < MAX_PARAMS
    ensures ExchangeSpec(st, codec, callid, params).0 == Err(RemoteError(Boom()))
  {
    WholeResponseIsInterpreted(st, codec, callid, params, header, Boom());
  }

  /** The bytes of "boom". */
  function Boom(): (r: Bytes)
  {
    [98, 111, 111, 109]
  }
}
