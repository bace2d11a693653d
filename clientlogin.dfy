/** The Steam Community login flow: fetch the account's RSA key, submit the
    encrypted password, and resolve CAPTCHA and SteamGuard challenges until
    the server reports the login complete. */
module ClientLogin {
  import opened Errors
  import opened Http
  import opened Encoding
  import opened Session

  /** The captcha image endpoint, appended to the community URL. */
  const CaptchaPath: string := "/public/captcha.php?gid="

  /** The `getrsakey` reply fields the client reads. */
  datatype RsaKeyBody = RsaKeyBody(publickey_exp: string, publickey_mod: string, success: bool, timestamp: string)

  /** What `getRSAKey` returns on success: the public exponent (a Go `int`),
      the modulus, and the timestamp tying the key to the attempt. */
  datatype RsaKey = RsaKey(exp: int, mod: nat, timestamp: string)

  /** The `dologin` reply fields that `Attempt` reads. */
  datatype DoLoginBody = DoLoginBody(
    login_complete: bool,
    success: bool,
    captcha_needed: bool,
    captcha_gid: string,
    emailauth_needed: bool,
    emaildomain: string,
    message: string)

  /** The form `Attempt` posts to /login/dologin. The password is the
      ciphertext itself; its base64 text form is wire encoding. */
  datatype DoLoginRequest = DoLoginRequest(
    username: string,
    password: seq<byte>,
    emailauth: string,
    loginfriendlyname: string,
    captchaGID: string,
    captcha_text: string,
    rsatimestamp: string,
    remember_login: bool)

  /** The value of a `Login` record, every field but the client pointer. */
  datatype LoginState = LoginState(
    Complete: bool,
    encPw: seq<byte>,
    username: string,
    rsatimestamp: string,
    EmailDomain: string,
    Message: string,
    Captcha: string,
    CaptchaSolution: string,
    SteamGuard: bool,
    SteamGuardCode: string,
    ComputerName: string)

  /** The zero `Login` value Go starts from. */
  const ZeroState: LoginState := LoginState(false, [], "", "", "", "", "", "", false, "", "")

  /** The request an attempt sends from a given record. */
  function RequestOf(st: LoginState): (r: DoLoginRequest)
    ensures r.username == st.username && r.password == st.encPw && r.rsatimestamp == st.rsatimestamp
    ensures r.emailauth == st.SteamGuardCode && r.loginfriendlyname == st.ComputerName
    ensures r.captchaGID == st.Captcha && r.captcha_text == st.CaptchaSolution
    ensures !r.remember_login
  {
    DoLoginRequest(st.username, st.encPw, st.SteamGuardCode, st.ComputerName,
                   st.Captcha, st.CaptchaSolution, st.rsatimestamp, false)
  }

  /** How a decoded `dologin` reply updates the record: completion, the
      SteamGuard flag, the e-mail domain and the message are always replaced;
      the captcha id only when the server asks for a captcha. Nothing the user
      supplies and none of the credentials change. */
  function Absorb(st: LoginState, rsp: DoLoginBody): (r: LoginState)
    ensures r.Complete == rsp.login_complete && r.SteamGuard == rsp.emailauth_needed
    ensures r.EmailDomain == rsp.emaildomain && r.Message == rsp.message
    ensures rsp.captcha_needed ==> r.Captcha == rsp.captcha_gid
    ensures !rsp.captcha_needed ==> r.Captcha == st.Captcha
    ensures r.CaptchaSolution == st.CaptchaSolution && r.SteamGuardCode == st.SteamGuardCode
    ensures r.ComputerName == st.ComputerName
    ensures r.username == st.username && r.encPw == st.encPw && r.rsatimestamp == st.rsatimestamp
  {
    st.(Complete := rsp.login_complete,
        Captcha := if rsp.captcha_needed then rsp.captcha_gid else st.Captcha,
        SteamGuard := rsp.emailauth_needed,
        EmailDomain := rsp.emaildomain,
        Message := rsp.message)
  }

  /** Absorbing the same reply twice is the same as absorbing it once. */
  lemma AbsorbIdempotent(st: LoginState, rsp: DoLoginBody)
    ensures Absorb(Absorb(st, rsp), rsp) == Absorb(st, rsp)
  {
  }

  /** The next request resubmits the same credentials and user input; only
      the captcha id may have moved on. */
  lemma AbsorbKeepsRequest(st: LoginState, rsp: DoLoginBody)
    ensures RequestOf(Absorb(st, rsp)) == RequestOf(st).(captchaGID := Absorb(st, rsp).Captcha)
  {
  }

  /** After a reply without a captcha and without SteamGuard, a record whose
      captcha id was empty has nothing left to resolve. */
  lemma AbsorbNothingPending(st: LoginState, rsp: DoLoginBody)
    requires st.Captcha == "" && !rsp.captcha_needed && !rsp.emailauth_needed
    ensures var r := Absorb(st, rsp); r.Captcha == "" && !r.SteamGuard
  {
  }

  /** The id the captcha URL carries, if the URL has the expected form. */
  function CaptchaGIDOf(url: string): (gid: Option<string>)
    ensures gid.Some? ==> SteamCommunityURL + CaptchaPath + gid.value == url
  {
    var prefix := SteamCommunityURL + CaptchaPath;
    if |prefix| <= |url| && url[..|prefix|] == prefix then Some(url[|prefix|..]) else None
  }

  /** `getRSAKey` once the reply is decoded: a reply that reports failure is
      `GetRSAKeyFailed` before any hex is read; then the exponent and the
      modulus are hex-decoded in that order, the first failure returned;
      otherwise both are read as big-endian numbers, the exponent through
      `Uint64` and `int`. */
  function ParseRSAKey(body: Body<RsaKeyBody>): (r: Result<RsaKey>)
    ensures body.Undecodable? ==> r == Fail(Decode(body.cause))
    ensures body.Decoded? && !body.value.success ==> r == Fail(GetRSAKeyFailed)
    ensures r.Ok? <==>
              body.Decoded? && body.value.success &&
              HexDecode(body.value.publickey_exp).Ok? && HexDecode(body.value.publickey_mod).Ok?
    ensures body.Decoded? && body.value.success && HexDecode(body.value.publickey_exp).Fail? ==>
              r == Fail(HexDecode(body.value.publickey_exp).error)
    ensures body.Decoded? && body.value.success && HexDecode(body.value.publickey_exp).Ok? &&
            HexDecode(body.value.publickey_mod).Fail? ==>
              r == Fail(HexDecode(body.value.publickey_mod).error)
    ensures r.Ok? ==>
              r.value.exp == Int(Uint64(BigEndian(HexDecode(body.value.publickey_exp).value))) &&
              r.value.mod == BigEndian(HexDecode(body.value.publickey_mod).value) &&
              r.value.mod < Pow256(|body.value.publickey_mod| / 2) &&
              r.value.timestamp == body.value.timestamp
  {
    match body
    case Undecodable(cause) => Fail(Decode(cause))
    case Decoded(rsp) =>
      if !rsp.success then Fail(GetRSAKeyFailed)
      else match HexDecode(rsp.publickey_exp)
        case Fail(e) => Fail(e)
        case Ok(expB) =>
          match HexDecode(rsp.publickey_mod)
          case Fail(e) => Fail(e)
          case Ok(modB) =>
            assert |modB| == |rsp.publickey_mod| / 2;
            Ok(RsaKey(Int(Uint64(BigEndian(expB))), BigEndian(modB), rsp.timestamp))
  }

  /** A key sent as hex of its bytes is read back as those bytes' values; an
      exponent of at most seven bytes is exact. */
  lemma ParseEncodedKey(expB: seq<byte>, modB: seq<byte>, ts: string)
    ensures var r := ParseRSAKey(Decoded(RsaKeyBody(HexEncode(expB), HexEncode(modB), true, ts)));
            r == Ok(RsaKey(Int(Uint64(BigEndian(expB))), BigEndian(modB), ts))
    ensures |expB| <= 7 ==>
            ParseRSAKey(Decoded(RsaKeyBody(HexEncode(expB), HexEncode(modB), true, ts))).value.exp == BigEndian(expB)
  {
    HexRoundTrip(expB);
    HexRoundTrip(modB);
    if |expB| <= 7 {
      ShortExponentExact(expB);
    }
  }

  /** `Client.getRSAKey`: post the user name; a transport failure is returned
      as it is, otherwise the jar keeps the reply's cookies and the body is
      parsed. */
  method GetRSAKey(c: Client, username: string, post: string -> Result<Reply<RsaKeyBody>>)
    returns (key: Result<RsaKey>)
    requires c.Jar != null
    modifies c.Jar
    ensures match post(username)
            case Fail(e) => key == Fail(e) && c.Jar.cookies == old(c.Jar.cookies)
            case Ok(reply) => key == ParseRSAKey(reply.body) && c.Jar.cookies == reply.cookies
  {
    var r := post(username);
    if r.Fail? {
      return Fail(r.error);
    }
    c.Jar.cookies := r.value.cookies;
    key := ParseRSAKey(r.value.body);
  }

  /** One line of standard input as `fmt.Scanln` delivers it. */
  datatype Line = Line(text: string) | ReadError(cause: string)

  /** The line at `pos`, or end of file past the last one. */
  function NextLine(stdin: seq<Line>, pos: nat): (l: Line)
    ensures pos >= |stdin| ==> l.ReadError?
  {
    if pos < |stdin| then stdin[pos] else ReadError("EOF")
  }

  /** `geothermal.Login`: a login in progress. */
  class Login {
    var Complete: bool
    var encPw: seq<byte>
    var username: string
    var rsatimestamp: string
    var EmailDomain: string
    var Message: string
    var Captcha: string
    var CaptchaSolution: string
    var SteamGuard: bool
    var SteamGuardCode: string
    var ComputerName: string
    var c: Client?

    constructor ()
      ensures State() == ZeroState && c == null
    {
      Complete, encPw, username, rsatimestamp := false, [], "", "";
      EmailDomain, Message, Captcha, CaptchaSolution := "", "", "", "";
      SteamGuard, SteamGuardCode, ComputerName := false, "", "";
      c := null;
    }

    function State(): LoginState
      reads this
    {
      LoginState(Complete, encPw, username, rsatimestamp, EmailDomain, Message,
                 Captcha, CaptchaSolution, SteamGuard, SteamGuardCode, ComputerName)
    }

    /** `Login.CaptchaURL`: the captcha image URL, from which the captcha id
        can be read back. */
    function CaptchaURL(): (url: string)
      reads this
      ensures CaptchaGIDOf(url) == Some(Captcha)
    {
      SteamCommunityURL + CaptchaPath + Captcha
    }

    /** The assignments `Client.Login` makes once the password is
        encrypted: the ciphertext, the user name and the client. */
    method Begin(client: Client, name: string, ciphertext: seq<byte>)
      modifies this
      ensures State() == old(State()).(encPw := ciphertext, username := name) && c == client
    {
      encPw := ciphertext;
      username := name;
      c := client;
    }

    /** The assignments `Login.Attempt` makes from a decoded reply. */
    method TakeReply(rsp: DoLoginBody)
      modifies this
      ensures State() == Absorb(old(State()), rsp) && c == old(c)
    {
      Complete := rsp.login_complete;
      if rsp.captcha_needed {
        Captcha := rsp.captcha_gid;
      }
      SteamGuard := rsp.emailauth_needed;
      EmailDomain := rsp.emaildomain;
      Message := rsp.message;
    }

    /** `Login.Attempt`: post the current record; a reply that does not decode
        is returned as an error with the record untouched; otherwise the reply
        is absorbed and then the session id is looked up again, the client
        keeping whatever the lookup returns even when it fails. */
    method Attempt(post: DoLoginRequest -> Reply<DoLoginBody>, refresh: seq<Cookie> -> seq<Cookie>)
      returns (err: Option<Error>)
      requires c != null && c.Jar != null
      modifies this, c, c.Jar
      ensures c == old(c) && c.Jar == old(c.Jar) && c.Jar != null
      ensures var a := AttemptOutcome(old(State()), old(c.SessionID), post, refresh);
              State() == a.st && c.SessionID == a.sid && c.Jar.cookies == a.jar && err == a.err
    {
      ghost var st0 := State();
      var reply := post(RequestOf(State()));
      c.Jar.cookies := reply.cookies;
      match reply.body {
        case Undecodable(cause) =>
          return Some(Decode(cause));
        case Decoded(rsp) =>
          TakeReply(rsp);
          var sid;
          sid, err := c.FindSessionID(refresh);
          c.SessionID := sid;
          assert AttemptOutcome(st0, old(c.SessionID), post, refresh) ==
                 Attempted(State(), sid, c.Jar.cookies, err);
      }
    }

    /** `Login.PromptCAPTCHA`, with the line read from standard input. */
    method PromptCAPTCHA(line: Line) returns (err: Option<Error>)
      modifies this`CaptchaSolution
      ensures line.Line? ==> err.None? && CaptchaSolution == line.text
      ensures line.ReadError? ==> err == Some(Input(line.cause)) && CaptchaSolution == old(CaptchaSolution)
    {
      match line {
        case Line(text) => CaptchaSolution := text; err := None;
        case ReadError(cause) => err := Some(Input(cause));
      }
    }

    /** `Login.PromptSteamGuard`, with the line read from standard input. */
    method PromptSteamGuard(line: Line) returns (err: Option<Error>)
      modifies this`SteamGuardCode
      ensures line.Line? ==> err.None? && SteamGuardCode == line.text
      ensures line.ReadError? ==> err == Some(Input(line.cause)) && SteamGuardCode == old(SteamGuardCode)
    {
      match line {
        case Line(text) => SteamGuardCode := text; err := None;
        case ReadError(cause) => err := Some(Input(cause));
      }
    }

    /** The prompts of one round of `CompleteInteractive`: the captcha
        solution when a captcha id is pending, then the SteamGuard code when
        one is asked for; `done` counts the prompts that were pending. */
    method PromptPending(stdin: seq<Line>, pos: nat) returns (err: Option<Error>, next: nat, done: nat)
      requires pos <= |stdin|
      modifies this`CaptchaSolution, this`SteamGuardCode
      ensures Prompted(old(State()), stdin, pos) == Prompts(State(), next, err)
      ensures err.None? ==> done == (if old(Captcha) != "" then 1 else 0) + (if old(SteamGuard) then 1 else 0)
    {
      next, done := pos, 0;
      if Captcha != "" {
        done := done + 1;
        err := PromptCAPTCHA(NextLine(stdin, next));
        if err.Some? {
          return;
        }
        next := next + 1;
      }
      if SteamGuard {
        done := done + 1;
        err := PromptSteamGuard(NextLine(stdin, next));
        if err.Some? {
          return;
        }
        next := next + 1;
      }
      err := None;
    }

    /** One round of `CompleteInteractive`: the pending prompts, then an
        attempt, or LoginFail when nothing is pending. `req` holds the request
        the round posts, if any. An error ends the interaction where
        `Interact` ends it; otherwise the rest of the interaction is
        `Interact` from the new record and input position. */
    method Round(stdin: seq<Line>, pos: nat, post: DoLoginRequest -> Reply<DoLoginBody>,
                 refresh: seq<Cookie> -> seq<Cookie>)
      returns (err: Option<Error>, next: nat, ghost req: seq<DoLoginRequest>)
      requires c != null && c.Jar != null && pos <= |stdin| && !Complete
      modifies this, c, c.Jar
      ensures c == old(c) && c.Jar == old(c.Jar) && next <= |stdin|
      ensures var r := Interact(old(State()), old(c.SessionID), old(c.Jar.cookies), stdin, pos, post, refresh);
              var rest := Interact(State(), c.SessionID, c.Jar.cookies, stdin, next, post, refresh);
              (err.Some? ==> r == Interaction(State(), c.SessionID, c.Jar.cookies, err, next, req)) &&
              (err.None? ==> pos < next && |req| == 1 && r == rest.(sent := req + rest.sent))
    {
      ghost var st0, sid0, jar0 := State(), c.SessionID, c.Jar.cookies;
      InteractRound(st0, sid0, jar0, stdin, pos, post, refresh);
      var thingsDone;
      err, next, thingsDone := PromptPending(stdin, pos);
      if err.Some? {
        return err, next, [];
      }
      if thingsDone < 1 {
        return Some(LoginFail), next, [];
      }
      ghost var st1 := State();
      req := [RequestOf(st1)];
      err := Attempt(post, refresh);
    }

    /** `Login.CompleteInteractive`: while the login is incomplete, prompt for
        the captcha solution and the SteamGuard code that are pending, then
        attempt again; with nothing pending the login has failed. `read` is
        the number of input lines consumed and `attempts` the number of calls
        to `Attempt`. The record, the client's session id, the jar, the error
        and the lines read are those of `Interact`, round by round. */
    method CompleteInteractive(stdin: seq<Line>, post: DoLoginRequest -> Reply<DoLoginBody>,
                               refresh: seq<Cookie> -> seq<Cookie>)
      returns (err: Option<Error>, read: nat, ghost attempts: nat)
      requires c != null && c.Jar != null
      modifies this, c, c.Jar
      ensures c == old(c) && c.Jar == old(c.Jar)
      ensures var r := Interact(old(State()), old(c.SessionID), old(c.Jar.cookies), stdin, 0, post, refresh);
              State() == r.st && c.SessionID == r.sid && c.Jar.cookies == r.jar &&
              err == r.err && read == r.read && attempts == |r.sent|
      ensures old(Complete) ==> err.None? && read == 0 && State() == old(State())
      ensures !old(Complete) && old(Captcha) == "" && !old(SteamGuard) ==>
                err == Some(LoginFail) && attempts == 0 && State() == old(State())
    {
      err, read, attempts := None, 0, 0;
      ghost var r00 := Interact(State(), c.SessionID, c.Jar.cookies, stdin, 0, post, refresh);
      if Complete {
        assert r00 == Interaction(State(), c.SessionID, c.Jar.cookies, None, 0, []);
      } else {
        InteractRound(State(), c.SessionID, c.Jar.cookies, stdin, 0, post, refresh);
      }
      while !Complete
        invariant c == old(c) && c.Jar == old(c.Jar) && c != null && c.Jar != null
        invariant err.None? && read <= |stdin|
        invariant var r := Interact(State(), c.SessionID, c.Jar.cookies, stdin, read, post, refresh);
                  r00.st == r.st && r00.sid == r.sid && r00.jar == r.jar && r00.err == r.err &&
                  r00.read == r.read && |r00.sent| == attempts + |r.sent|
        decreases |stdin| - read
      {
        ghost var req;
        err, read, req := Round(stdin, read, post, refresh);
        if err.Some? {
          attempts := attempts + |req|;
          return;
        }
        attempts := attempts + 1;
      }
      assert Interact(State(), c.SessionID, c.Jar.cookies, stdin, read, post, refresh) ==
             Interaction(State(), c.SessionID, c.Jar.cookies, None, read, []);
    }
  }

  /** What one attempt leaves: the record, the client's session id, the jar
      and the error. */
  datatype Attempted = Attempted(st: LoginState, sid: string, jar: seq<Cookie>, err: Option<Error>)

  /** `Login.Attempt` on values: the jar takes the reply's cookies; a reply
      that does not decode is a decode error and changes nothing else; a
      decoded reply is absorbed, and the client keeps whatever the session-id
      lookup returns, even when it fails. The next request differs from this
      one at most in the captcha id, and the only errors are decode, NoSID
      and escape errors. */
  function AttemptOutcome(st: LoginState, sid: string, post: DoLoginRequest -> Reply<DoLoginBody>,
                          refresh: seq<Cookie> -> seq<Cookie>): (a: Attempted)
    ensures a.jar == post(RequestOf(st)).cookies || a.jar == Lookup(post(RequestOf(st)).cookies, refresh, 2).jar
    ensures RequestOf(a.st) == RequestOf(st).(captchaGID := a.st.Captcha)
    ensures a.err.Some? ==> a.err.value.Decode? || a.err.value == NoSID || a.err.value.Escape?
    ensures a.err.None? ==> post(RequestOf(st)).body.Decoded? && a.st == Absorb(st, post(RequestOf(st)).body.value)
    ensures post(RequestOf(st)).body.Undecodable? ==>
              a == Attempted(st, sid, post(RequestOf(st)).cookies, Some(Decode(post(RequestOf(st)).body.cause)))
    ensures post(RequestOf(st)).body.Decoded? ==>
              var o := Lookup(post(RequestOf(st)).cookies, refresh, 2);
              a == Attempted(Absorb(st, post(RequestOf(st)).body.value), o.sid, o.jar, o.err)
  {
    var reply := post(RequestOf(st));
    match reply.body
    case Undecodable(cause) => Attempted(st, sid, reply.cookies, Some(Decode(cause)))
    case Decoded(rsp) =>
      var o := Lookup(reply.cookies, refresh, 2);
      LookupErrors(reply.cookies, refresh, 2);
      AbsorbKeepsRequest(st, rsp);
      Attempted(Absorb(st, rsp), o.sid, o.jar, o.err)
  }

  /** The prompts of one round, with where the input stands after them. */
  datatype Prompts = Prompts(st: LoginState, pos: nat, err: Option<Error>)

  /** The prompts of one round of `CompleteInteractive`: the captcha
      solution when a captcha id is pending, then the SteamGuard code when
      one is asked for, each from the next line of input. A read error ends
      the round and keeps what was read before it. */
  function Prompted(st: LoginState, stdin: seq<Line>, pos: nat): (p: Prompts)
    requires pos <= |stdin|
    ensures pos <= p.pos <= |stdin|
    ensures p.err.Some? ==> p.err.value.Input?
    ensures p.st.(CaptchaSolution := st.CaptchaSolution, SteamGuardCode := st.SteamGuardCode) == st
    ensures p.err.None? ==>
              p.pos == pos + (if st.Captcha != "" then 1 else 0) + (if st.SteamGuard then 1 else 0)
    ensures p.err.None? && st.Captcha != "" ==>
              pos < |stdin| && stdin[pos] == Line(p.st.CaptchaSolution)
    ensures p.err.None? && st.SteamGuard ==>
              0 < p.pos && stdin[p.pos - 1] == Line(p.st.SteamGuardCode)
    ensures p.err.None? && st.Captcha == "" ==> p.st.CaptchaSolution == st.CaptchaSolution
    ensures p.err.None? && !st.SteamGuard ==> p.st.SteamGuardCode == st.SteamGuardCode
    ensures st.Captcha != "" && NextLine(stdin, pos).ReadError? ==>
              p == Prompts(st, pos, Some(Input(NextLine(stdin, pos).cause)))
    ensures var q := pos + (if st.Captcha != "" then 1 else 0);
            (st.Captcha == "" || NextLine(stdin, pos).Line?) && st.SteamGuard && NextLine(stdin, q).ReadError? ==>
              p.err == Some(Input(NextLine(stdin, q).cause)) && p.pos == q &&
              p.st.SteamGuardCode == st.SteamGuardCode &&
              p.st.CaptchaSolution == (if st.Captcha != "" then NextLine(stdin, pos).text else st.CaptchaSolution)
  {
    var first :=
      if st.Captcha == "" then Prompts(st, pos, None)
      else match NextLine(stdin, pos)
        case Line(t) => Prompts(st.(CaptchaSolution := t), pos + 1, None)
        case ReadError(cause) => Prompts(st, pos, Some(Input(cause)));
    if first.err.Some? || !st.SteamGuard then first
    else match NextLine(stdin, first.pos)
      case Line(t) => Prompts(first.st.(SteamGuardCode := t), first.pos + 1, None)
      case ReadError(cause) => Prompts(first.st, first.pos, Some(Input(cause)))
  }

  /** The end of an interactive login: the record, the session id, the jar,
      the error, the number of lines read, and the requests posted in order. */
  datatype Interaction = Interaction(
    st: LoginState, sid: string, jar: seq<Cookie>, err: Option<Error>, read: nat, sent: seq<DoLoginRequest>)

  /** `CompleteInteractive` on values, one round per call: a complete login
      stops; an incomplete one with nothing pending fails with `LoginFail`;
      otherwise the pending prompts are all answered and only then is an
      attempt made from the record they leave. */
  function Interact(st: LoginState, sid: string, jar: seq<Cookie>, stdin: seq<Line>, pos: nat,
                    post: DoLoginRequest -> Reply<DoLoginBody>, refresh: seq<Cookie> -> seq<Cookie>): (r: Interaction)
    requires pos <= |stdin|
    ensures !st.Complete && (st.Captcha != "" || st.SteamGuard) && Prompted(st, stdin, pos).err.None? ==>
              r.sent != [] && r.sent[0] == RequestOf(Prompted(st, stdin, pos).st)
    decreases |stdin| - pos
  {
    if st.Complete then Interaction(st, sid, jar, None, pos, [])
    else if st.Captcha == "" && !st.SteamGuard then Interaction(st, sid, jar, Some(LoginFail), pos, [])
    else
      var p := Prompted(st, stdin, pos);
      if p.err.Some? then Interaction(p.st, sid, jar, p.err, p.pos, [])
      else
        var a := AttemptOutcome(p.st, sid, post, refresh);
        if a.err.Some? then Interaction(a.st, a.sid, a.jar, a.err, p.pos, [RequestOf(p.st)])
        else
          var rest := Interact(a.st, a.sid, a.jar, stdin, p.pos, post, refresh);
          rest.(sent := [RequestOf(p.st)] + rest.sent)
  }

  /** An interactive login ends with no error only once the login is
      complete, and with `LoginFail` only when nothing is left to prompt for;
      its other errors are those of the prompts and the attempts; and each
      attempt follows at least one line of input. */
  lemma {:induction false} InteractEnds(st: LoginState, sid: string, jar: seq<Cookie>, stdin: seq<Line>, pos: nat,
      post: DoLoginRequest -> Reply<DoLoginBody>, refresh: seq<Cookie> -> seq<Cookie>)
    requires pos <= |stdin|
    ensures var r := Interact(st, sid, jar, stdin, pos, post, refresh);
            pos + |r.sent| <= r.read <= |stdin| &&
            (r.err.None? ==> r.st.Complete) &&
            (r.err == Some(LoginFail) ==> !r.st.Complete && r.st.Captcha == "" && !r.st.SteamGuard) &&
            (r.err.Some? ==>
               r.err.value == LoginFail || r.err.value.Input? || r.err.value.Decode? ||
               r.err.value == NoSID || r.err.value.Escape?)
    decreases |stdin| - pos
  {
    if !st.Complete && (st.Captcha != "" || st.SteamGuard) {
      var p := Prompted(st, stdin, pos);
      if p.err.None? {
        var a := AttemptOutcome(p.st, sid, post, refresh);
        if a.err.None? {
          InteractEnds(a.st, a.sid, a.jar, stdin, p.pos, post, refresh);
        }
      }
    }
  }

  /** An interactive login never changes the user name, the ciphertext, the
      key timestamp or the computer name. */
  lemma {:induction false} InteractKeepsCredentials(st: LoginState, sid: string, jar: seq<Cookie>, stdin: seq<Line>, pos: nat,
      post: DoLoginRequest -> Reply<DoLoginBody>, refresh: seq<Cookie> -> seq<Cookie>)
    requires pos <= |stdin|
    ensures var r := Interact(st, sid, jar, stdin, pos, post, refresh);
            r.st.username == st.username && r.st.encPw == st.encPw &&
            r.st.rsatimestamp == st.rsatimestamp && r.st.ComputerName == st.ComputerName
    decreases |stdin| - pos
  {
    if !st.Complete && (st.Captcha != "" || st.SteamGuard) {
      var p := Prompted(st, stdin, pos);
      if p.err.None? {
        var a := AttemptOutcome(p.st, sid, post, refresh);
        if a.err.None? {
          InteractKeepsCredentials(a.st, a.sid, a.jar, stdin, p.pos, post, refresh);
        }
      }
    }
  }

  /** A round whose prompts succeed posts the record's credentials and
      computer name, and the attempt leaves them in the record. */
  lemma RoundKeepsCredentials(st: LoginState, sid: string, stdin: seq<Line>, pos: nat,
      post: DoLoginRequest -> Reply<DoLoginBody>, refresh: seq<Cookie> -> seq<Cookie>)
    requires pos <= |stdin| && Prompted(st, stdin, pos).err.None?
    ensures var p := Prompted(st, stdin, pos);
            var q := RequestOf(p.st);
            var a := AttemptOutcome(p.st, sid, post, refresh);
            q.username == st.username && q.password == st.encPw &&
            q.rsatimestamp == st.rsatimestamp && q.loginfriendlyname == st.ComputerName &&
            a.st.username == st.username && a.st.encPw == st.encPw &&
            a.st.rsatimestamp == st.rsatimestamp && a.st.ComputerName == st.ComputerName
  {
    var p := Prompted(st, stdin, pos);
    var q := RequestOf(p.st);
    var a := AttemptOutcome(p.st, sid, post, refresh);
    assert RequestOf(a.st).(captchaGID := q.captchaGID) == q;
  }

  /** Every request an interactive login posts carries the credentials, the
      key timestamp and the computer name it started with. */
  lemma {:induction false} InteractRequests(st: LoginState, sid: string, jar: seq<Cookie>, stdin: seq<Line>, pos: nat,
      post: DoLoginRequest -> Reply<DoLoginBody>, refresh: seq<Cookie> -> seq<Cookie>)
    requires pos <= |stdin|
    ensures var r := Interact(st, sid, jar, stdin, pos, post, refresh);
            forall k :: 0 <= k < |r.sent| ==>
              r.sent[k].username == st.username && r.sent[k].password == st.encPw &&
              r.sent[k].rsatimestamp == st.rsatimestamp && r.sent[k].loginfriendlyname == st.ComputerName
    decreases |stdin| - pos
  {
    var r := Interact(st, sid, jar, stdin, pos, post, refresh);
    if st.Complete || (st.Captcha == "" && !st.SteamGuard) {
      assert r.sent == [];
    } else {
      InteractRound(st, sid, jar, stdin, pos, post, refresh);
      var p := Prompted(st, stdin, pos);
      if p.err.Some? {
        assert r.sent == [];
      } else {
        var q := RequestOf(p.st);
        var a := AttemptOutcome(p.st, sid, post, refresh);
        RoundKeepsCredentials(st, sid, stdin, pos, post, refresh);
        if a.err.Some? {
          assert r.sent == [q];
        } else {
          InteractRequests(a.st, a.sid, a.jar, stdin, p.pos, post, refresh);
          var rest := Interact(a.st, a.sid, a.jar, stdin, p.pos, post, refresh);
          assert r.sent == [q] + rest.sent;
          forall k | 0 <= k < |r.sent|
            ensures r.sent[k].username == st.username && r.sent[k].password == st.encPw &&
                    r.sent[k].rsatimestamp == st.rsatimestamp && r.sent[k].loginfriendlyname == st.ComputerName
          {
            if k > 0 {
              assert r.sent[k] == rest.sent[k - 1];
            }
          }
        }
      }
    }
  }


  /** One round of `Interact`, unfolded. */
  lemma InteractRound(st: LoginState, sid: string, jar: seq<Cookie>, stdin: seq<Line>, pos: nat,
                      post: DoLoginRequest -> Reply<DoLoginBody>, refresh: seq<Cookie> -> seq<Cookie>)
    requires pos <= |stdin| && !st.Complete
    ensures var p := Prompted(st, stdin, pos);
            var r := Interact(st, sid, jar, stdin, pos, post, refresh);
            (st.Captcha == "" && !st.SteamGuard ==> r == Interaction(st, sid, jar, Some(LoginFail), pos, [])) &&
            ((st.Captcha != "" || st.SteamGuard) && p.err.Some? ==> r == Interaction(p.st, sid, jar, p.err, p.pos, [])) &&
            ((st.Captcha != "" || st.SteamGuard) && p.err.None? ==>
              var a := AttemptOutcome(p.st, sid, post, refresh);
              pos < p.pos &&
              (a.err.Some? ==> r == Interaction(a.st, a.sid, a.jar, a.err, p.pos, [RequestOf(p.st)])) &&
              (a.err.None? ==>
                var rest := Interact(a.st, a.sid, a.jar, stdin, p.pos, post, refresh);
                r == rest.(sent := [RequestOf(p.st)] + rest.sent)))
  {
  }

  /** The request of a round carries, as captcha text and SteamGuard code,
      the lines read for that round's pending prompts; every other field is
      the record's own. */
  lemma RoundRequest(st: LoginState, stdin: seq<Line>, pos: nat)
    requires pos <= |stdin| && (st.Captcha != "" || st.SteamGuard) && Prompted(st, stdin, pos).err.None?
    ensures var q := RequestOf(Prompted(st, stdin, pos).st);
            (st.Captcha != "" ==> Line(q.captcha_text) == stdin[pos]) &&
            (st.SteamGuard ==> Line(q.emailauth) == stdin[pos + (if st.Captcha != "" then 1 else 0)]) &&
            q.(captcha_text := st.CaptchaSolution, emailauth := st.SteamGuardCode) == RequestOf(st)
  {
  }

  /** The record once the key has been fetched and the password encrypted,
      just before the first attempt. */
  function Started(username: string, encPw: seq<byte>, timestamp: string): (st: LoginState)
    ensures RequestOf(st) == DoLoginRequest(username, encPw, "", "", "", "", timestamp, false)
    ensures !st.Complete
  {
    ZeroState.(encPw := encPw, username := username, rsatimestamp := timestamp)
  }

  /** What `getRSAKey` returns for the outcome of its post. */
  function KeyOf(r: Result<Reply<RsaKeyBody>>): (k: Result<RsaKey>)
    ensures r.Fail? ==> k == Fail(r.error)
    ensures r.Ok? ==> k == ParseRSAKey(r.value.body)
    ensures k.Ok? ==> r.Ok? && r.value.body.Decoded? && r.value.body.value.success &&
                      k.value.timestamp == r.value.body.value.timestamp
  {
    match r
    case Fail(e) => Fail(e)
    case Ok(reply) => ParseRSAKey(reply.body)
  }

  /** `Client.Login`: make sure the client has a jar, fetch the RSA key,
      encrypt the password with it (an opaque operation that may fail), and
      only then record the user name and client and make the first attempt.
      A failed key fetch or encryption returns before any attempt, leaving the
      zero record (with the timestamp once the key was fetched). */
  method BeginLogin(c: Client, username: string, password: string,
                    keyPost: string -> Result<Reply<RsaKeyBody>>,
                    encrypt: (nat, int, string) -> Result<seq<byte>>,
                    post: DoLoginRequest -> Reply<DoLoginBody>,
                    refresh: seq<Cookie> -> seq<Cookie>)
    returns (l: Login, err: Option<Error>)
    modifies c, c.Jar
    ensures fresh(l) && c.Jar != null
    ensures old(c.Jar) != null ==> c.Jar == old(c.Jar)
    ensures match KeyOf(keyPost(username))
            case Fail(e) =>
              err == Some(e) && l.State() == ZeroState && l.c == null
            case Ok(key) =>
              match encrypt(key.mod, key.exp, password)
              case Fail(e) =>
                err == Some(e) && l.State() == ZeroState.(rsatimestamp := key.timestamp) && l.c == null
              case Ok(ct) =>
                var a := AttemptOutcome(Started(username, ct, key.timestamp), old(c.SessionID), post, refresh);
                l.c == c && l.State() == a.st && c.SessionID == a.sid && c.Jar.cookies == a.jar && err == a.err
    ensures (KeyOf(keyPost(username)).Fail? ||
             encrypt(KeyOf(keyPost(username)).value.mod, KeyOf(keyPost(username)).value.exp, password).Fail?) ==>
              c.SessionID == old(c.SessionID) &&
              c.Jar.cookies == (if keyPost(username).Ok? then keyPost(username).value.cookies
                                else if old(c.Jar) == null then [] else old(c.Jar.cookies))
  {
    if c.Jar == null {
      c.Jar := new CookieJar();
    }
    l := new Login();
    var key := GetRSAKey(c, username, keyPost);
    if key.Fail? {
      return l, Some(key.error);
    }
    l.rsatimestamp := key.value.timestamp;
    var ct := encrypt(key.value.mod, key.value.exp, password);
    if ct.Fail? {
      return l, Some(ct.error);
    }
    l.Begin(c, username, ct.value);
    assert l.State() == Started(username, ct.value, key.value.timestamp);
    err := l.Attempt(post, refresh);
  }
}
