/** Steam web chat: the access token scraped from the chat page, the presence
    logon, and the long-poll and send calls of the web-presence API. */
module Chat {
  import opened Errors
  import opened Http
  import opened Encoding

  /* ---------------- the chat access token ---------------- */

  /** Whitespace as `\s` reads it in Go's regular expressions. */
  predicate IsSpace(c: char) {
    c == ' ' || c == '\t' || c == '\n' || c == '\r' || c == 12 as char
  }

  predicate AllLowerHex(t: string) {
    forall m :: 0 <= m < |t| ==> IsLowerHex(t[m])
  }

  /** The first position at or after `j` that is not whitespace. */
  function SkipSpace(s: string, j: nat): (k: nat)
    requires j <= |s|
    ensures j <= k <= |s|
    ensures forall m :: j <= m < k ==> IsSpace(s[m])
    ensures k < |s| ==> !IsSpace(s[k])
    decreases |s| - j
  {
    if j < |s| && IsSpace(s[j]) then SkipSpace(s, j + 1) else j
  }

  /** The first comma at or after `j`, or the end of `s`. */
  function NextComma(s: string, j: nat): (k: nat)
    requires j <= |s|
    ensures j <= k <= |s|
    ensures forall m :: j <= m < k ==> s[m] != ','
    ensures k < |s| ==> s[k] == ','
    decreases |s| - j
  {
    if j < |s| && s[j] != ',' then NextComma(s, j + 1) else j
  }

  const Callee: string := "CWebAPI"

  /** Whether the token pattern
        CWebAPI\s*\(\s*(?:[^,]+,){2}\s*"([0-9a-f]{32})"\s*\)
      matches at position `i`, and the captured token if so. The pattern
      leaves no choice once its start is fixed: each `\s*` stops at a
      character that is not whitespace, and each `[^,]+,` ends at the next
      comma, so the match is computed directly. */
  function MatchAt(s: string, i: nat): (tok: Option<string>)
    ensures tok.Some? ==> |tok.value| == 32 && AllLowerHex(tok.value)
  {
    if i + |Callee| > |s| || s[i..i + |Callee|] != Callee then None
    else
      var p := SkipSpace(s, i + |Callee|);
      if p >= |s| || s[p] != '(' then None
      else
        var c1 := NextComma(s, p + 1);
        if c1 == p + 1 || c1 >= |s| then None
        else
          var c2 := NextComma(s, c1 + 1);
          if c2 == c1 + 1 || c2 >= |s| then None
          else
            var q := SkipSpace(s, c2 + 1);
            if q + 34 > |s| || s[q] != '"' || s[q + 33] != '"' || !AllLowerHex(s[q + 1..q + 33]) then None
            else
              var e := SkipSpace(s, q + 34);
              if e >= |s| || s[e] != ')' then None
              else Some(s[q + 1..q + 33])
  }

  /** The leftmost position at or after `from` where the pattern matches. */
  function LeftmostMatch(s: string, from: nat): (k: Option<nat>)
    requires from <= |s|
    ensures k.Some? ==> from <= k.value <= |s| && MatchAt(s, k.value).Some?
    ensures k.Some? ==> forall j :: from <= j < k.value ==> MatchAt(s, j).None?
    ensures k.None? ==> forall j :: from <= j <= |s| ==> MatchAt(s, j).None?
    decreases |s| - from
  {
    if MatchAt(s, from).Some? then Some(from)
    else if from == |s| then None
    else LeftmostMatch(s, from + 1)
  }

  /** The chat page as the client reads it: the bytes read, and the error
      `ioutil.ReadAll` reported, if any. */
  datatype Page = Page(body: string, readError: Option<Error>)

  /** `ChatAccessToken`: the token captured by the leftmost match of the
      pattern in the page, or `ErrNoAuthToken` when there is none. The error
      from reading the page is not checked on its own: if what was read holds
      a token, the token is returned together with that error. */
  function ChatAccessToken(get: Result<Page>): (r: (string, Option<Error>))
    ensures get.Fail? ==> r == ("", Some(get.error))
    ensures get.Ok? && LeftmostMatch(get.value.body, 0).None? ==> r == ("", Some(NoAuthToken))
    ensures r.0 != "" ==>
              get.Ok? && r.1 == get.value.readError && |r.0| == 32 && AllLowerHex(r.0) &&
              exists k :: 0 <= k <= |get.value.body| && MatchAt(get.value.body, k) == Some(r.0) &&
                forall j :: 0 <= j < k ==> MatchAt(get.value.body, j).None?
    ensures get.Ok? && LeftmostMatch(get.value.body, 0).Some? ==> r.0 != "" && r.1 == get.value.readError
    ensures r.1.None? ==> |r.0| == 32
  {
    match get
    case Fail(e) => ("", Some(e))
    case Ok(page) =>
      match LeftmostMatch(page.body, 0)
      case None => ("", Some(NoAuthToken))
      case Some(k) => (MatchAt(page.body, k).value, page.readError)
  }

  lemma NextCommaAt(s: string, j: nat, k: nat)
    requires j <= k < |s| && s[k] == ','
    requires forall m :: j <= m < k ==> s[m] != ','
    ensures NextComma(s, j) == k
    decreases k - j
  {
    if j < k {
      NextCommaAt(s, j + 1, k);
    }
  }

  /** The pattern matches at `i` when the callee name, the parenthesis, two
      non-empty arguments, the quoted token and the closing parenthesis are
      found where the matcher looks for them. */
  lemma MatchAtWhen(s: string, i: nat, p: nat, c1: nat, c2: nat, q: nat)
    requires i + |Callee| <= |s| && s[i..i + |Callee|] == Callee
    requires SkipSpace(s, i + |Callee|) == p && p < |s| && s[p] == '('
    requires NextComma(s, p + 1) == c1 && c1 != p + 1 && c1 < |s|
    requires NextComma(s, c1 + 1) == c2 && c2 != c1 + 1 && c2 < |s|
    requires SkipSpace(s, c2 + 1) == q && q + 34 < |s| && s[q] == '"' && s[q + 33] == '"'
    requires AllLowerHex(s[q + 1..q + 33])
    requires SkipSpace(s, q + 34) == q + 34 && s[q + 34] == ')'
    ensures MatchAt(s, i) == Some(s[q + 1..q + 33])
  {
  }

  /** A page that is exactly one initialisation call `CWebAPI(a,b,"token")`
      yields that token. */
  lemma TokenOfCall(a: string, b: string, token: string)
    requires a != [] && b != [] && forall m :: 0 <= m < |a| ==> a[m] != ','
    requires forall m :: 0 <= m < |b| ==> b[m] != ','
    requires |token| == 32 && AllLowerHex(token)
    ensures var s := Callee + "(" + a + "," + b + ",\"" + token + "\")";
            ChatAccessToken(Ok(Page(s, None))) == (token, None)
  {
    var s := Callee + "(" + a + "," + b + ",\"" + token + "\")";
    var p := |Callee|;
    var c1 := p + 1 + |a|;
    var c2 := c1 + 1 + |b|;
    var q := c2 + 1;
    assert s[0..|Callee|] == Callee && s[p] == '(' && SkipSpace(s, p) == p;
    assert |s| == q + 35;
    assert NextComma(s, p + 1) == c1 by {
      assert s[c1] == ',' && forall m :: p + 1 <= m < c1 ==> s[m] == a[m - p - 1];
      NextCommaAt(s, p + 1, c1);
    }
    assert NextComma(s, c1 + 1) == c2 by {
      assert s[c2] == ',' && forall m :: c1 + 1 <= m < c2 ==> s[m] == b[m - c1 - 1];
      NextCommaAt(s, c1 + 1, c2);
    }
    assert s[q] == '"' && SkipSpace(s, q) == q;
    assert s[q + 1..q + 33] == token && AllLowerHex(s[q + 1..q + 33]);
    assert s[q + 33] == '"' && s[q + 34] == ')' && SkipSpace(s, q + 34) == q + 34;
    MatchAtWhen(s, 0, p, c1, c2, q);
  }

  /* ---------------- messages ---------------- */

  /** `MessageType`: 0 for the bare base message, then the four variants. */
  type MessageType = nat
  const Saytext: MessageType := 1
  const Typing: MessageType := 2
  const Personastate: MessageType := 3
  const Leftconversation: MessageType := 4

  /** The fields every message has; `Type` is the raw type tag. */
  datatype BaseMessage = BaseMessage(Type: string, Timestamp: uint64, UtcTimestamp: uint64, AccountIDFrom: uint32)
  {
    /** The bare base message reports no variant's type. */
    function MessageType(): (t: MessageType)
      ensures t < Saytext
    {
      0
    }

    function MessageTimestamp(): (t: uint64)
      ensures t == Timestamp
    {
      Timestamp
    }
  }

  /** The closed set of message variants a poll can yield. */
  datatype Message =
    | SaytextMessage(base: BaseMessage, Text: string, Self: bool)
    | TypingMessage(base: BaseMessage)
    | PersonastateMessage(base: BaseMessage, PersonaName: string, PersonaState: uint64)
    | LeftconversationMessage(base: BaseMessage)
  {
    function MessageType(): (t: MessageType)
      ensures Saytext <= t <= Leftconversation
    {
      match this
      case SaytextMessage(_, _, _) => Saytext
      case TypingMessage(_) => Typing
      case PersonastateMessage(_, _, _) => Personastate
      case LeftconversationMessage(_) => Leftconversation
    }

    /** Every variant reports the timestamp of the base message it embeds. */
    function MessageTimestamp(): (t: uint64)
      ensures t == base.MessageTimestamp()
    {
      base.Timestamp
    }
  }

  /** The message type a tag selects; 0 for a tag the client does not know. */
  function TagType(tag: string): (t: MessageType)
    ensures t <= Leftconversation
  {
    if tag == "saytext" || tag == "my_saytext" then Saytext
    else if tag == "typing" then Typing
    else if tag == "personastate" then Personastate
    else if tag == "leftconversation" then Leftconversation
    else 0
  }

  /** One entry of the poll's `messages` array, as the two decodes see it:
      the generic decode into the base fields, and the fields only a variant
      reads (a missing key decodes to its zero value, a value of the wrong
      JSON type fails). `json.Unmarshal` keeps going after a type mismatch
      and reports the first one in document order, so the entry also
      records whether `persona_state` comes before `persona_name`. */
  datatype RawMessage = RawMessage(
    header: Body<BaseMessage>,
    text: Body<string>,
    personaName: Body<string>,
    personaState: Body<uint64>,
    stateBeforeName: bool)

  /** The second decode: into a fresh value of the variant the tag selects,
      `Self` preset for `my_saytext`. An unknown tag leaves the target nil,
      and decoding into nil fails. */
  function DecodeVariant(b: BaseMessage, raw: RawMessage): (r: Result<Message>)
    ensures TagType(b.Type) == 0 ==> r == Fail(NilUnmarshal)
    ensures r.Fail? ==> r.error.Decode?
    ensures r.Ok? ==> r.value.base == b && r.value.MessageType() == TagType(b.Type)
    ensures r.Ok? && r.value.SaytextMessage? ==> r.value.Self == (b.Type == "my_saytext")
    ensures r.Ok? && r.value.SaytextMessage? ==> raw.text == Decoded(r.value.Text)
    ensures TagType(b.Type) == Typing || TagType(b.Type) == Leftconversation ==> r.Ok?
    ensures r.Ok? && r.value.PersonastateMessage? ==>
              raw.personaName == Decoded(r.value.PersonaName) && raw.personaState == Decoded(r.value.PersonaState)
    ensures b.Type == "saytext" || b.Type == "my_saytext" ==>
              (r.Ok? <==> raw.text.Decoded?) &&
              (raw.text.Undecodable? ==> r == Fail(Decode(raw.text.cause)))
    ensures b.Type == "personastate" ==>
              (r.Ok? <==> raw.personaName.Decoded? && raw.personaState.Decoded?) &&
              (raw.personaName.Undecodable? && (raw.personaState.Decoded? || !raw.stateBeforeName) ==>
                 r == Fail(Decode(raw.personaName.cause))) &&
              (raw.personaState.Undecodable? && (raw.personaName.Decoded? || raw.stateBeforeName) ==>
                 r == Fail(Decode(raw.personaState.cause)))
  {
    if b.Type == "saytext" || b.Type == "my_saytext" then
      match raw.text
      case Decoded(t) => Ok(SaytextMessage(b, t, b.Type == "my_saytext"))
      case Undecodable(cause) => Fail(Decode(cause))
    else if b.Type == "typing" then Ok(TypingMessage(b))
    else if b.Type == "personastate" then
      match (raw.personaName, raw.personaState)
      case (Decoded(name), Decoded(state)) => Ok(PersonastateMessage(b, name, state))
      case (Undecodable(cause), Decoded(_)) => Fail(Decode(cause))
      case (Decoded(_), Undecodable(cause)) => Fail(Decode(cause))
      case (Undecodable(nameCause), Undecodable(stateCause)) =>
        Fail(Decode(if raw.stateBeforeName then stateCause else nameCause))
    else if b.Type == "leftconversation" then Ok(LeftconversationMessage(b))
    else Fail(NilUnmarshal)
  }

  /** Both decodes of one entry. */
  function DecodeEntry(raw: RawMessage): (r: Result<Message>)
    ensures r.Ok? ==> raw.header == Decoded(r.value.base)
    ensures r.Ok? ==> r.value.MessageType() == TagType(r.value.base.Type) != 0
    ensures raw.header.Decoded? && TagType(raw.header.value.Type) == 0 ==> r == Fail(NilUnmarshal)
  {
    match raw.header
    case Undecodable(cause) => Fail(Decode(cause))
    case Decoded(b) => DecodeVariant(b, raw)
  }

  /** The index of the first entry that fails to decode, or the length of
      the batch when none does. */
  function FirstFailure(raws: seq<RawMessage>): (k: nat)
    ensures k <= |raws|
    ensures forall i :: 0 <= i < k ==> DecodeEntry(raws[i]).Ok?
    ensures k < |raws| ==> DecodeEntry(raws[k]).Fail?
  {
    if raws == [] then 0
    else if DecodeEntry(raws[0]).Fail? then 0
    else 1 + FirstFailure(raws[1..])
  }

  /** The slice `Poll` returns for a batch: a slot per entry, the entries
      before the first failure decoded in order, the rest left nil. */
  function Slots(raws: seq<RawMessage>): (ms: seq<Option<Message>>)
    ensures |ms| == |raws|
    ensures forall i :: 0 <= i < |raws| ==>
              (ms[i].Some? <==> forall j :: 0 <= j <= i ==> DecodeEntry(raws[j]).Ok?)
    ensures forall i :: 0 <= i < |raws| && ms[i].Some? ==> DecodeEntry(raws[i]) == Ok(ms[i].value)
  {
    var k := FirstFailure(raws);
    seq(|raws|, i requires 0 <= i < |raws| => if i < k then Some(DecodeEntry(raws[i]).value) else None)
  }

  /** The error `Poll` returns for a batch: that of the first failing entry. */
  function BatchError(raws: seq<RawMessage>): (err: Option<Error>)
    ensures err.None? <==> forall i :: 0 <= i < |raws| ==> DecodeEntry(raws[i]).Ok?
    ensures err.Some? ==> exists k :: 0 <= k < |raws| && DecodeEntry(raws[k]) == Fail(err.value) &&
                            forall i :: 0 <= i < k ==> DecodeEntry(raws[i]).Ok?
  {
    var k := FirstFailure(raws);
    if k < |raws| then Some(DecodeEntry(raws[k]).error) else None
  }

  /** A batch whose entries all decode comes back whole: one message per
      entry, in order, each of the variant its tag names. */
  lemma AllKnownDecoded(raws: seq<RawMessage>)
    requires forall i :: 0 <= i < |raws| ==> DecodeEntry(raws[i]).Ok?
    ensures BatchError(raws).None?
    ensures forall i :: 0 <= i < |raws| ==>
              Slots(raws)[i].Some? &&
              Decoded(Slots(raws)[i].value.base) == raws[i].header &&
              Slots(raws)[i].value.MessageType() == TagType(Slots(raws)[i].value.base.Type)
  {
    assert FirstFailure(raws) == |raws|;
  }

  /** A decoded entry keeps the timestamp of its first decode. */
  lemma EntryTimestamp(raw: RawMessage)
    requires DecodeEntry(raw).Ok?
    ensures DecodeEntry(raw).value.MessageTimestamp() == raw.header.value.MessageTimestamp()
    ensures DecodeEntry(raw).value.base.MessageType() != DecodeEntry(raw).value.MessageType()
  {
  }

  /** An entry with an unknown tag aborts the batch: the poll fails, and it
      and every slot after it stay nil, whatever they hold. */
  lemma UnknownTagAborts(raws: seq<RawMessage>, k: nat)
    requires k < |raws| && raws[k].header.Decoded? && TagType(raws[k].header.value.Type) == 0
    ensures BatchError(raws).Some?
    ensures forall i :: k <= i < |raws| ==> Slots(raws)[i].None?
    ensures (forall i :: 0 <= i < k ==> DecodeEntry(raws[i]).Ok?) ==> BatchError(raws) == Some(NilUnmarshal)
  {
    assert DecodeEntry(raws[k]).Fail?;
    assert FirstFailure(raws) <= k;
  }

  /** A batch of one text message and one entry with an unknown tag: the
      unknown entry fails the poll in either order, and the text message
      survives only when it comes first. */
  lemma UnknownTagOrder(say: RawMessage, other: RawMessage)
    requires say.header.Decoded? && say.header.value.Type == "saytext" && say.text.Decoded?
    requires other.header.Decoded? && TagType(other.header.value.Type) == 0
    ensures var m := SaytextMessage(say.header.value, say.text.value, false);
            Slots([say, other]) == [Some(m), None] && BatchError([say, other]) == Some(NilUnmarshal)
    ensures Slots([other, say]) == [None, None] && BatchError([other, say]) == Some(NilUnmarshal)
  {
    assert [say, other][1..] == [other];
    assert FirstFailure([other]) == 0;
    assert FirstFailure([say, other]) == 1;
    assert FirstFailure([other, say]) == 0;
  }

  /* ---------------- the chat session ---------------- */

  /** `responseError`: a transport error passes through; a status other than
      200 becomes "steam chat: " followed by the status line. */
  function ResponseError<T>(r: Result<Response<T>>): (out: Result<Response<T>>)
    ensures out.Ok? <==> r.Ok? && r.value.StatusCode == 200
    ensures out.Ok? ==> out == r
    ensures r.Fail? ==> out == r
    ensures r.Ok? && r.value.StatusCode != 200 ==> out.error == Text("steam chat: " + r.value.Status)
  {
    match r
    case Fail(e) => Fail(e)
    case Ok(rs) => if rs.StatusCode != 200 then Fail(Text("steam chat: " + rs.Status)) else r
  }

  /** Checking twice is checking once. */
  lemma ResponseErrorIdempotent<T>(r: Result<Response<T>>)
    ensures ResponseError(ResponseError(r)) == ResponseError(r)
  {
  }

  /** The form posted to the logon endpoint. */
  datatype LogonRequest = LogonRequest(access_token: string)

  /** The logon reply's fields. */
  datatype LogonBody = LogonBody(
    steamid: uint64, error: string, umqid: uint64,
    timestamp: uint64, utc_timestamp: uint64, message: uint64, push: uint64)

  /** The form posted to the message endpoint. */
  datatype SayRequest = SayRequest(umqid: uint64, access_token: string, text: string, kind: string, steamid_dst: uint64)

  datatype SayBody = SayBody(Error: string)

  /** The form posted to the poll endpoint: the session, the cursor and the
      poll counter, and the fixed long-poll parameters. */
  datatype PollRequest = PollRequest(
    umqid: uint64, message: uint64, pollid: uint64,
    sectimeout: nat, secidletime: nat, use_accountids: nat, access_token: string)

  datatype PollBody = PollBody(Messages: seq<RawMessage>, Messagelast: uint64, Error: string)

  /** The value of a `Chat` record. */
  datatype ChatState = ChatState(
    Steamid: uint64, Umqid: uint64, Timestamp: uint64, UtcTimestamp: uint64,
    Message: uint64, Push: uint64, AccessToken: string, Pollid: uint64)

  const ZeroChat: ChatState := ChatState(0, 0, 0, 0, 0, 0, "", 0)

  /** What a logon reply does to the record: the account id is taken before
      the status is looked at; the session fields only on "OK". */
  function LoggedOn(st: ChatState, j: LogonBody): (r: ChatState)
    ensures r.Steamid == j.steamid && r.AccessToken == st.AccessToken && r.Pollid == st.Pollid
    ensures j.error == "OK" ==>
              r.Umqid == j.umqid && r.Timestamp == j.timestamp && r.UtcTimestamp == j.utc_timestamp &&
              r.Message == j.message && r.Push == j.push
    ensures j.error != "OK" ==> r == st.(Steamid := j.steamid)
  {
    if j.error != "OK" then st.(Steamid := j.steamid)
    else st.(Steamid := j.steamid, Umqid := j.umqid, Timestamp := j.timestamp,
             UtcTimestamp := j.utc_timestamp, Message := j.message, Push := j.push)
  }

  /** What a logon exchange does to the record and what it returns: a
      transport, status or decode failure changes nothing; a decoded reply is
      applied by `LoggedOn`, and a status other than "OK" is the error text
      itself. */
  function LogonOutcome(st: ChatState, reply: Result<Response<LogonBody>>): (o: (ChatState, Option<Error>))
    ensures o.1.None? <==>
              reply.Ok? && reply.value.StatusCode == 200 && reply.value.body.Decoded? &&
              reply.value.body.value.error == "OK"
    ensures reply.Fail? ==> o == (st, Some(reply.error))
    ensures reply.Ok? && reply.value.StatusCode != 200 ==> o == (st, Some(Text("steam chat: " + reply.value.Status)))
    ensures reply.Ok? && reply.value.StatusCode == 200 && reply.value.body.Undecodable? ==>
              o == (st, Some(Decode(reply.value.body.cause)))
    ensures reply.Ok? && reply.value.StatusCode == 200 && reply.value.body.Decoded? ==>
              var j := reply.value.body.value;
              o.0 == LoggedOn(st, j) && (j.error != "OK" ==> o.1 == Some(Text(j.error)))
  {
    match ResponseError(reply)
    case Fail(e) => (st, Some(e))
    case Ok(rs) =>
      match rs.body
      case Undecodable(cause) => (st, Some(Decode(cause)))
      case Decoded(j) => (LoggedOn(st, j), if j.error != "OK" then Some(Text(j.error)) else None)
  }

  /** What a decoded poll reply does to the record, whatever its status:
      the poll counter goes up by one (wrapping like a 64-bit `uint`) and the
      cursor becomes the server's last message. */
  function Advanced(st: ChatState, last: uint64): (r: ChatState)
    ensures r.Message == last && r.Pollid == (st.Pollid + 1) % Max64
    ensures r.(Pollid := st.Pollid, Message := st.Message) == st
  {
    st.(Pollid := (st.Pollid + 1) % Max64, Message := last)
  }

  /** Below the top of its range the poll counter goes up by exactly one,
      and the poll counter of `n` polls in a row is `n` more. */
  lemma {:induction false} PollidCounts(st: ChatState, lasts: seq<uint64>)
    requires st.Pollid + |lasts| < Max64
    ensures AdvancedAll(st, lasts).Pollid == st.Pollid + |lasts|
    ensures lasts != [] ==> AdvancedAll(st, lasts).Message == lasts[|lasts| - 1]
  {
    if lasts != [] {
      PollidCounts(st, lasts[..|lasts| - 1]);
    }
  }

  /** A run of polls, one reply's last-message value each. */
  function AdvancedAll(st: ChatState, lasts: seq<uint64>): ChatState {
    if lasts == [] then st else Advanced(AdvancedAll(st, lasts[..|lasts| - 1]), lasts[|lasts| - 1])
  }

  /** `chat.Chat`: a web chat session. */
  class Chat {
    var Steamid: uint64
    var Umqid: uint64
    var Timestamp: uint64
    var UtcTimestamp: uint64
    var Message: uint64
    var Push: uint64
    var AccessToken: string
    var Pollid: uint64

    constructor ()
      ensures State() == ZeroChat
    {
      Steamid, Umqid, Timestamp, UtcTimestamp := 0, 0, 0, 0;
      Message, Push, AccessToken, Pollid := 0, 0, "", 0;
    }

    function State(): ChatState
      reads this
    {
      ChatState(Steamid, Umqid, Timestamp, UtcTimestamp, Message, Push, AccessToken, Pollid)
    }

    /** The poll form: the session, the cursor and the poll counter, with a
        35-second timeout, no idle time and account ids requested. */
    function PollForm(): (f: PollRequest)
      reads this
      ensures f.umqid == Umqid && f.message == Message && f.pollid == Pollid && f.access_token == AccessToken
      ensures f.sectimeout == 35 && f.secidletime == 0 && f.use_accountids == 1
    {
      PollRequest(Umqid, Message, Pollid, 35, 0, 1, AccessToken)
    }

    /** `Chat.login`: post the access token; a transport, status or decode
        failure changes nothing; otherwise the reply is applied and a status
        other than "OK" is returned as the error text itself. */
    method Logon(post: LogonRequest -> Result<Response<LogonBody>>) returns (err: Option<Error>)
      modifies this
      ensures (State(), err) == LogonOutcome(old(State()), post(LogonRequest(old(AccessToken))))
    {
      var rs := ResponseError(post(LogonRequest(AccessToken)));
      if rs.Fail? {
        return Some(rs.error);
      }
      match rs.value.body {
        case Undecodable(cause) =>
          return Some(Decode(cause));
        case Decoded(j) =>
          Steamid := j.steamid;
          if j.error != "OK" {
            return Some(Text(j.error));
          }
          Umqid := j.umqid;
          Timestamp := j.timestamp;
          UtcTimestamp := j.utc_timestamp;
          Message := j.message;
          Push := j.push;
          err := None;
      }
    }

    /** `Chat.Say`: send `text` to `sid`. It succeeds exactly when the post
        goes through with status 200 and the reply's status is "OK"; a reply
        with another status is returned as "steam chat: " and that status.
        The session record is only read. */
    method Say(sid: uint64, text: string, post: SayRequest -> Result<Response<SayBody>>)
      returns (err: Option<Error>)
      ensures var r := post(SayRequest(Umqid, AccessToken, text, "saytext", sid));
              err.None? <==>
                r.Ok? && r.value.StatusCode == 200 && r.value.body.Decoded? && r.value.body.value.Error == "OK"
      ensures var r := post(SayRequest(Umqid, AccessToken, text, "saytext", sid));
              r.Ok? && r.value.StatusCode == 200 && r.value.body.Decoded? && r.value.body.value.Error != "OK" ==>
                err == Some(Text("steam chat: " + r.value.body.value.Error))
      ensures var r := post(SayRequest(Umqid, AccessToken, text, "saytext", sid));
              r.Fail? ==> err == Some(r.error)
      ensures var r := post(SayRequest(Umqid, AccessToken, text, "saytext", sid));
              r.Ok? && r.value.StatusCode != 200 ==> err == Some(ResponseError(r).error)
      ensures var r := post(SayRequest(Umqid, AccessToken, text, "saytext", sid));
              r.Ok? && r.value.StatusCode == 200 && r.value.body.Undecodable? ==>
                err == Some(Decode(r.value.body.cause))
    {
      var rs := ResponseError(post(SayRequest(Umqid, AccessToken, text, "saytext", sid)));
      if rs.Fail? {
        return Some(rs.error);
      }
      match rs.value.body {
        case Undecodable(cause) =>
          return Some(Decode(cause));
        case Decoded(j) =>
          if j.Error != "OK" {
            return Some(Text("steam chat: " + j.Error));
          }
          err := None;
      }
    }

    /** `Chat.Poll`: post the cursor and poll counter. A transport, status or
        decode failure returns before anything changes. Once the reply
        decodes, the counter goes up and the cursor is set from the reply
        before its status is checked; a status other than "OK" is returned
        with no messages. Otherwise each entry is decoded in order into its
        own slot until one fails. */
    method Poll(post: PollRequest -> Result<Response<PollBody>>)
      returns (ms: seq<Option<Message>>, err: Option<Error>)
      modifies this
      ensures match ResponseError(post(old(PollForm())))
              case Fail(e) => err == Some(e) && ms == [] && State() == old(State())
              case Ok(rs) =>
                match rs.body
                case Undecodable(cause) => err == Some(Decode(cause)) && ms == [] && State() == old(State())
                case Decoded(j) =>
                  State() == Advanced(old(State()), j.Messagelast) &&
                  if j.Error != "OK" then err == Some(Text("steam chat: " + j.Error)) && ms == []
                  else ms == Slots(j.Messages) && err == BatchError(j.Messages)
    {
      var rs := ResponseError(post(PollForm()));
      if rs.Fail? {
        return [], Some(rs.error);
      }
      if rs.value.body.Undecodable? {
        return [], Some(Decode(rs.value.body.cause));
      }
      var j := rs.value.body.value;
      Pollid := (Pollid + 1) % Max64;
      Message := j.Messagelast;
      if j.Error != "OK" {
        return [], Some(Text("steam chat: " + j.Error));
      }
      ms, err := DecodeBatch(j.Messages);
    }
  }

  /** The decoding loop of `Chat.Poll`: a slice with a slot per entry is
      allocated, and each entry is decoded into its slot, in order, until
      one fails; that entry's error is returned with the slice as filled so
      far. */
  method DecodeBatch(raws: seq<RawMessage>) returns (ms: seq<Option<Message>>, err: Option<Error>)
    ensures ms == Slots(raws) && err == BatchError(raws)
  {
    var slots := new Option<Message>[|raws|](_ => None);
    var i := 0;
    while i < |raws|
      invariant 0 <= i <= |raws| == slots.Length
      invariant forall k :: 0 <= k < i ==> DecodeEntry(raws[k]).Ok? && slots[k] == Some(DecodeEntry(raws[k]).value)
      invariant forall k :: i <= k < slots.Length ==> slots[k] == None
    {
      match raws[i].header {
        case Undecodable(cause) =>
          SlotsUpTo(raws, i, slots[..]);
          return slots[..], Some(Decode(cause));
        case Decoded(b) =>
          var m := DecodeVariant(b, raws[i]);
          if m.Fail? {
            SlotsUpTo(raws, i, slots[..]);
            return slots[..], Some(m.error);
          }
          slots[i] := Some(m.value);
      }
      i := i + 1;
    }
    SlotsUpTo(raws, i, slots[..]);
    ms, err := slots[..], None;
  }

  /** Slots filled up to the first failure, and empty after it, are the
      slots of the batch. */
  lemma SlotsUpTo(raws: seq<RawMessage>, i: nat, s: seq<Option<Message>>)
    requires i <= |raws| == |s|
    requires i < |raws| ==> DecodeEntry(raws[i]).Fail?
    requires forall k :: 0 <= k < i ==> DecodeEntry(raws[k]).Ok? && s[k] == Some(DecodeEntry(raws[k]).value)
    requires forall k :: i <= k < |s| ==> s[k] == None
    ensures i == FirstFailure(raws) && s == Slots(raws)
    ensures BatchError(raws) == if i < |raws| then Some(DecodeEntry(raws[i]).error) else None
  {
    FirstFailureUnique(raws, i);
  }

  /** The first failure is the index before which everything decodes and at
      which decoding fails, or the length when nothing fails. */
  lemma {:induction false} FirstFailureUnique(raws: seq<RawMessage>, i: nat)
    requires i <= |raws|
    requires i < |raws| ==> DecodeEntry(raws[i]).Fail?
    requires forall k :: 0 <= k < i ==> DecodeEntry(raws[k]).Ok?
    ensures FirstFailure(raws) == i
  {
    if raws != [] && i > 0 {
      assert forall k :: 0 <= k < i - 1 ==> raws[1..][k] == raws[k + 1];
      FirstFailureUnique(raws[1..], i - 1);
    }
  }

  /** `chat.New`: fetch the access token (keeping it even when the read
      error is returned beside it), then log on. */
  method New(get: Result<Page>, post: LogonRequest -> Result<Response<LogonBody>>)
    returns (ch: Chat, err: Option<Error>)
    ensures fresh(ch)
    ensures ch.AccessToken == ChatAccessToken(get).0
    ensures ChatAccessToken(get).1.Some? ==> err == ChatAccessToken(get).1 && ch.State() == ZeroChat.(AccessToken := ch.AccessToken)
    ensures err.None? ==> |ch.AccessToken| == 32 && AllLowerHex(ch.AccessToken)
    ensures var (token, tokenErr) := ChatAccessToken(get);
            tokenErr.None? ==>
              (ch.State(), err) == LogonOutcome(ZeroChat.(AccessToken := token), post(LogonRequest(token)))
  {
    ch := new Chat();
    var tokenErr := ChatAccessToken(get);
    ch.AccessToken, err := tokenErr.0, tokenErr.1;
    if err.Some? {
      return;
    }
    err := ch.Logon(post);
  }
}
