/** What the authenticated client promises, stated about the functions that
    give the meaning of its methods (StepAuthenticate, PreCall, StepRequest). */
module ClientProperties {
  import opened Wrappers
  import opened JsValues
  import opened Text
  import opened Client

  /** Every URL that contains the authentication path also contains the
      marker the response hook tests, so 401s from it are never replayed. */
  lemma AuthenticatePathHasMarker(url: string)
    requires Contains(url, AuthenticatePath)
    ensures Contains(url, AuthenticateMarker)
  {
    assert AuthenticatePath[11..11 + |AuthenticateMarker|] == AuthenticateMarker;
    ContainsPiece(url, AuthenticatePath, AuthenticateMarker, 11);
  }

  /** A request sent while no token is held triggers exactly one
      authentication first and then goes out with the new bearer token. */
  lemma LazyAuthentication(s: Session, d: Descriptor)
    requires !Contains(d.path, AuthenticatePath) && !TokenHeld(s.token)
    requires |s.authReplies| > 0 && s.authReplies[0].Granted?
    requires |s.replies| > 0 && !Replays(s.replies[0], d)
    ensures var r := StepRequest(s, d);
      && r.after.authCalls == s.authCalls + 1
      && r.after.token == s.authReplies[0].token
      && r.after.sent == s.sent + [AuthRequest(s), Sent(d.verb, d.path, BearerHeader(s.authReplies[0].token), d.body)]
      && r.result == Settle(s.replies[0])
  {
  }

  /** When that first authentication fails, nothing but the authentication
      request goes out, the token is unchanged, and the failure reaches the
      caller through the response hook as a request error. */
  lemma LazyAuthenticationRefused(s: Session, d: Descriptor)
    requires !Contains(d.path, AuthenticatePath) && !TokenHeld(s.token)
    requires |s.authReplies| > 0 && s.authReplies[0].Refused?
    ensures var r := StepRequest(s, d);
      && r.after.authCalls == s.authCalls + 1
      && r.after.token == s.token
      && r.after.sent == s.sent + [AuthRequest(s)]
      && r.after.replies == s.replies
      && r.result == Err(RequestError("Authentication failed: " + s.authReplies[0].message.GetOr("Unknown error")))
  {
  }

  /** With a token held, no authentication happens and the request carries
      that token. */
  lemma HeldTokenSkipsAuthentication(s: Session, d: Descriptor)
    requires !Contains(d.path, AuthenticatePath) && TokenHeld(s.token)
    requires |s.replies| > 0 && !Replays(s.replies[0], d)
    ensures var r := StepRequest(s, d);
      && r.after.authCalls == s.authCalls
      && r.after.token == s.token
      && r.after.authReplies == s.authReplies
      && r.after.sent == s.sent + [Sent(d.verb, d.path, BearerHeader(s.token), d.body)]
      && r.result == Settle(s.replies[0])
  {
  }

  /** A request to the authentication path carries the Basic challenge,
      never authenticates, is never replayed (a 401 is an ordinary error)
      and leaves the token alone. */
  lemma AuthenticatePathUsesBasic(s: Session, d: Descriptor)
    requires Contains(d.path, AuthenticatePath)
    ensures var r := StepRequest(s, d);
      && r.after.authCalls == s.authCalls
      && r.after.token == s.token
      && r.after.authReplies == s.authReplies
      && (|s.replies| == 0 ==> r.result == Err(ScriptExhausted))
      && (|s.replies| > 0 ==>
            && r.after.sent == s.sent + [Sent(d.verb, d.path, BasicHeader(s.credentials), d.body)]
            && r.result == Settle(s.replies[0]))
  {
    AuthenticatePathHasMarker(d.path);
  }

  /** A 401 on a URL that contains `/authenticate` is reported as an API
      error with status 401 and is not replayed: nothing changes after the
      request hook (which may have authenticated lazily) but the consumed reply
      and the logged request. */
  lemma MarkedPath401Reported(s: Session, d: Descriptor, data: JsValue, message: string)
    requires Contains(d.path, AuthenticateMarker) && PreCall(s, d).result.Ok?
    requires |s.replies| > 0 && s.replies[0] == Rejected(401, data, message)
    ensures var r := StepRequest(s, d); var p := PreCall(s, d).after;
      && r.result == Err(ApiError(401, if Truthy(data) then data else Str(message)))
      && r.after.authCalls == p.authCalls
      && r.after.token == p.token
      && r.after.authReplies == p.authReplies
      && r.after.sent == p.sent + [Sent(d.verb, d.path, PreCall(s, d).result.value, d.body)]
  {
  }

  /** The snapshot after a replayable 401 and a successful re-authentication,
      from the snapshot `p` the request hook left and the header it chose:
      the 401'd request and the authentication request have gone out, the
      new token is stored and one reply of each script is consumed. */
  function AfterReplayedRejection(p: Session, d: Descriptor, header: string): Session
    requires |p.replies| > 0 && |p.authReplies| > 0 && p.authReplies[0].Granted?
  {
    Session(p.baseURL, p.credentials, p.authReplies[0].token, p.replies[1..], p.authReplies[1..],
            p.authCalls + 1, p.sent + [Sent(d.verb, d.path, header, d.body), AuthRequest(p)])
  }

  /** A 401 on any other URL clears the token and authenticates once; the
      result is that of sending the same descriptor again from there. This
      holds whatever the request hook did first, a lazy authentication
      included. */
  lemma ReplayAfterRejection(s: Session, d: Descriptor)
    requires !Contains(d.path, AuthenticateMarker) && PreCall(s, d).result.Ok?
    requires |s.replies| > 0 && s.replies[0].Rejected? && s.replies[0].status == 401
    requires var p := PreCall(s, d).after; |p.authReplies| > 0 && p.authReplies[0].Granted?
    ensures var pre := PreCall(s, d);
      StepRequest(s, d) == StepRequest(AfterReplayedRejection(pre.after, d, pre.result.value), d)
  {
    var pre := PreCall(s, d);
    var p := pre.after;
    var s2 := p.(replies := p.replies[1..], sent := p.sent + [Sent(d.verb, d.path, pre.result.value, d.body)]);
    assert Replays(s.replies[0], d);
    var a := StepAuthenticate(s2.(token := Null));
    assert AuthRequest(s2.(token := Null)) == AuthRequest(p);
    assert s2.sent + [AuthRequest(p)] == p.sent + [Sent(d.verb, d.path, pre.result.value, d.body), AuthRequest(p)];
    assert a.result.Ok? && a.after == AfterReplayedRejection(p, d, pre.result.value);
  }

  /** When the re-authentication after a 401 fails, its error escapes
      unchanged and the token stays cleared, whatever the request hook did
      first. */
  lemma ReplayAuthenticationRefused(s: Session, d: Descriptor)
    requires !Contains(d.path, AuthenticateMarker) && PreCall(s, d).result.Ok?
    requires |s.replies| > 0 && s.replies[0].Rejected? && s.replies[0].status == 401
    requires var p := PreCall(s, d).after; |p.authReplies| > 0 && p.authReplies[0].Refused?
    ensures var r := StepRequest(s, d); var p := PreCall(s, d).after;
      && r.result == Err(AuthenticationFailed(p.authReplies[0].message.GetOr("Unknown error")))
      && r.after.token == Null
      && r.after.authCalls == p.authCalls + 1
      && r.after.sent == p.sent + [Sent(d.verb, d.path, PreCall(s, d).result.value, d.body), AuthRequest(p)]
  {
    var pre := PreCall(s, d);
    var p := pre.after;
    var s2 := p.(replies := p.replies[1..], sent := p.sent + [Sent(d.verb, d.path, pre.result.value, d.body)]);
    assert Replays(s.replies[0], d);
    assert AuthRequest(s2.(token := Null)) == AuthRequest(p);
  }

  /** The replay with a token already held: the 401'd request carried that token. */
  lemma ReplayWithHeldToken(s: Session, d: Descriptor)
    requires !Contains(d.path, AuthenticateMarker) && !Contains(d.path, AuthenticatePath) && TokenHeld(s.token)
    requires |s.replies| > 0 && s.replies[0].Rejected? && s.replies[0].status == 401
    requires |s.authReplies| > 0 && s.authReplies[0].Granted?
    ensures StepRequest(s, d) == StepRequest(AfterReplayedRejection(s, d, BearerHeader(s.token)), d)
  {
    assert PreCall(s, d) == Step(Ok(BearerHeader(s.token)), s);
    ReplayAfterRejection(s, d);
  }

  /** There is no retry counter: n consecutive 401s answered by n successful
      re-authentications are absorbed, the request succeeds with the next
      body, and `authenticate` has run n times. */
  lemma {:induction false} NoBoundOnReplays(s: Session, d: Descriptor, n: nat)
    requires !Contains(d.path, AuthenticateMarker) && TokenHeld(s.token)
    requires n < |s.replies| && s.replies[n].Answered?
    requires forall i :: 0 <= i < n ==> s.replies[i].Rejected? && s.replies[i].status == 401
    requires n <= |s.authReplies|
    requires forall i :: 0 <= i < n ==> s.authReplies[i].Granted? && TokenHeld(s.authReplies[i].token)
    ensures var r := StepRequest(s, d);
      && r.result == Ok(s.replies[n].data)
      && r.after.authCalls == s.authCalls + n
      && |r.after.sent| == |s.sent| + 2 * n + 1
    decreases n
  {
    assert !Contains(d.path, AuthenticatePath) by {
      if Contains(d.path, AuthenticatePath) {
        AuthenticatePathHasMarker(d.path);
      }
    }
    if n == 0 {
      HeldTokenSkipsAuthentication(s, d);
    } else {
      var s' := AfterReplayedRejection(s, d, BearerHeader(s.token));
      ReplayWithHeldToken(s, d);
      assert s'.replies == s.replies[1..] && s'.authReplies == s.authReplies[1..];
      assert s'.authCalls == s.authCalls + 1 && |s'.sent| == |s.sent| + 2;
      assert TokenHeld(s'.token) && s'.replies[n - 1] == s.replies[n];
      assert forall i :: 0 <= i < n - 1 ==> s'.replies[i] == s.replies[i + 1];
      assert forall i :: 0 <= i < n - 1 ==> s'.authReplies[i] == s.authReplies[i + 1];
      NoBoundOnReplays(s', d, n - 1);
    }
  }

  /** An entry a request for `d` may put on the wire: the authentication
      request, or `d` itself (same verb, path and body) with the Basic
      challenge on the authentication path and a bearer token elsewhere. */
  predicate Outgoing(s: Session, d: Descriptor, e: Sent) {
    || e == AuthRequest(s)
    || (&& e == Sent(d.verb, d.path, e.authorization, d.body)
        && (if Contains(d.path, AuthenticatePath)
            then e.authorization == BasicHeader(s.credentials)
            else StartsWith(e.authorization, "Bearer ")))
  }

  /** `after` keeps what `s` had sent and adds only entries `d` may produce. */
  predicate Extends(s: Session, d: Descriptor, after: seq<Sent>) {
    && |s.sent| <= |after|
    && after[..|s.sent|] == s.sent
    && forall i :: |s.sent| <= i < |after| ==> Outgoing(s, d, after[i])
  }

  lemma ExtendsTransitive(s: Session, x: Session, d: Descriptor, after: seq<Sent>)
    requires x.baseURL == s.baseURL && x.credentials == s.credentials
    requires Extends(s, d, x.sent) && Extends(x, d, after)
    ensures Extends(s, d, after)
  {
    assert AuthRequest(x) == AuthRequest(s);
    forall i | |s.sent| <= i < |after|
      ensures Outgoing(s, d, after[i])
    {
      if i >= |x.sent| {
        assert Outgoing(x, d, after[i]);
      } else {
        assert after[i] == after[..|x.sent|][i] == x.sent[i];
      }
    }
  }

  /** Appending one entry `d` may produce keeps `Extends`. */
  lemma ExtendsByOne(s: Session, d: Descriptor, before: seq<Sent>, e: Sent)
    requires Extends(s, d, before) && Outgoing(s, d, e)
    ensures Extends(s, d, before + [e])
  {
    assert (before + [e])[..|s.sent|] == before[..|s.sent|];
  }

  /** Everything a request sends, replays included, is the authentication
      request or the caller's own descriptor with the right kind of header;
      what was sent before is kept. */
  lemma {:induction false} OnlyOutgoing(s: Session, d: Descriptor)
    ensures Extends(s, d, StepRequest(s, d).after.sent)
    decreases |s.replies|
  {
    assert s.sent[..|s.sent|] == s.sent;
    var pre := PreCall(s, d);
    if !Contains(d.path, AuthenticatePath) && !TokenHeld(s.token) && |s.authReplies| > 0 {
      ExtendsByOne(s, d, s.sent, AuthRequest(s));
    }
    assert Extends(s, d, pre.after.sent);
    if pre.result.Ok? && |pre.after.replies| > 0 {
      var reply := pre.after.replies[0];
      var e := Sent(d.verb, d.path, pre.result.value, d.body);
      var s2 := pre.after.(replies := pre.after.replies[1..], sent := pre.after.sent + [e]);
      assert StartsWith(BearerHeader(pre.after.token), "Bearer ");
      ExtendsByOne(s, d, pre.after.sent, e);
      if Replays(reply, d) {
        var a := StepAuthenticate(s2.(token := Null));
        if |s2.authReplies| > 0 {
          assert AuthRequest(s2.(token := Null)) == AuthRequest(s);
          ExtendsByOne(s, d, s2.sent, AuthRequest(s));
        }
        assert Extends(s, d, a.after.sent);
        if a.result.Ok? {
          OnlyOutgoing(a.after, d);
          ExtendsTransitive(s, a.after, d, StepRequest(a.after, d).after.sent);
        }
      }
    }
  }

  /** The first character of an error's text tells its kind. */
  function Lead(e: ClientError): char {
    match e
    case ApiError(_, _) => 'D'
    case NoResponseReceived => 'N'
    case RequestError(_) => 'R'
    case AuthenticationFailed(_) => 'A'
    case ScriptExhausted => '?'
  }

  lemma MessageLead(e: ClientError, stringify: JsValue -> string)
    requires !e.ScriptExhausted?
    ensures var m := ErrorMessage(e, stringify); |m| > 0 && m[0] == Lead(e)
  {
    var m := ErrorMessage(e, stringify);
    if e.ApiError? {
      assert m[..20][0] == 'D';
    }
  }

  /** Errors of different kinds never have the same text, whatever
      `JSON.stringify` prints. */
  lemma MessagesTellKindsApart(e1: ClientError, e2: ClientError, stringify: JsValue -> string)
    requires !e1.ScriptExhausted? && !e2.ScriptExhausted?
    requires ErrorMessage(e1, stringify) == ErrorMessage(e2, stringify)
    ensures e1.ApiError? <==> e2.ApiError?
    ensures e1.NoResponseReceived? <==> e2.NoResponseReceived?
    ensures e1.RequestError? <==> e2.RequestError?
    ensures e1.AuthenticationFailed? <==> e2.AuthenticationFailed?
  {
    MessageLead(e1, stringify);
    MessageLead(e2, stringify);
  }

  /** A newly constructed client: one trailing slash stripped from the base
      URL, no token, no authentication and nothing sent. */
  lemma FreshClient(baseURL: string, credentials: string, replies: seq<Reply>, authReplies: seq<AuthReply>)
    ensures var s := Fresh(baseURL, credentials, replies, authReplies);
      && s.baseURL == StripTrailingSlash(baseURL)
      && s.token == Null && s.authCalls == 0 && s.sent == []
      && s.replies == replies && s.authReplies == authReplies
  {
  }

  /** The first call of a fresh client: `GET /api/space` authenticates with
      the Basic challenge, gets `tok1`, and is sent with `Bearer tok1`. */
  lemma FirstCallScenario(s: Session, d: Descriptor, baseURL: string, credentials: string, spaces: JsValue)
    requires s == Fresh(baseURL, credentials, [Answered(spaces)], [Granted(Str("tok1"))])
    requires d == Descriptor(GET, "/api/space", None)
    ensures var r := StepRequest(s, d);
      && r.result == Ok(spaces)
      && r.after.authCalls == 1
      && r.after.sent == [
           Sent(POST, StripTrailingSlash(baseURL) + "/api/public/authenticate", "Basic " + credentials, Some(Json(Obj(map[])))),
           Sent(GET, "/api/space", "Bearer tok1", None)]
  {
    ContainsNoLonger(d.path, AuthenticatePath);
    assert BearerHeader(s.authReplies[0].token) == "Bearer tok1";
    assert s.sent == [];
    LazyAuthentication(s, d);
  }

  /** `/api/space/space1` contains neither `/authenticate` nor the authentication path. */
  lemma SpacePathUnmarked(path: string)
    requires path == "/api/space/space1"
    ensures !Contains(path, AuthenticateMarker) && !Contains(path, AuthenticatePath)
  {
    ContainsNoLonger(path[5..], AuthenticateMarker);
    forall j | 0 <= j < 5
      ensures !StartsWith(path[j..], AuthenticateMarker)
    {
      assert AuthenticateMarker[..3] == "/au";
      assert path[j] != '/' || path[j + 2] != 'u';
      assert path[j..j + 3][0] == path[j] && path[j..j + 3][2] == path[j + 2];
      assert path[j..][..|AuthenticateMarker|][..3] == path[j..j + 3];
    }
    NotContainsFrom(path, AuthenticateMarker, 5);
    assert !Contains(path, AuthenticatePath) by {
      if Contains(path, AuthenticatePath) {
        AuthenticatePathHasMarker(path);
      }
    }
  }

  /** A later call whose token `tok1` the server now rejects (for instance
      `GET /api/space/space1`, see SpacePathUnmarked): the client
      authenticates again, gets `tok2`, resends the request with
      `Bearer tok2` and returns its body; the 401 never reaches the caller. */
  lemma ExpiredTokenScenario(s: Session, d: Descriptor, space: JsValue, rejection: JsValue, message: string)
    requires s.token == Str("tok1") && s.authReplies == [Granted(Str("tok2"))]
    requires s.replies == [Rejected(401, rejection, message), Answered(space)]
    requires !Contains(d.path, AuthenticateMarker)
    ensures var r := StepRequest(s, d);
      && r.result == Ok(space)
      && r.after.authCalls == s.authCalls + 1
      && r.after.token == Str("tok2")
      && r.after.sent == s.sent + [
           Sent(d.verb, d.path, "Bearer tok1", d.body),
           AuthRequest(s),
           Sent(d.verb, d.path, "Bearer tok2", d.body)]
  {
    assert !Contains(d.path, AuthenticatePath) by {
      if Contains(d.path, AuthenticatePath) {
        AuthenticatePathHasMarker(d.path);
      }
    }
    assert BearerHeader(s.token) == "Bearer tok1";
    assert PreCall(s, d) == Step(Ok("Bearer tok1"), s);
    ReplayAfterRejection(s, d);
    var s' := AfterReplayedRejection(s, d, "Bearer tok1");
    assert s'.replies == [Answered(space)] && s'.token == Str("tok2");
    HeldTokenSkipsAuthentication(s', d);
    assert BearerHeader(s'.token) == "Bearer tok2";
    assert s'.sent + [Sent(d.verb, d.path, "Bearer tok2", d.body)] == s.sent + [
           Sent(d.verb, d.path, "Bearer tok1", d.body),
           AuthRequest(s),
           Sent(d.verb, d.path, "Bearer tok2", d.body)];
  }

  /** The request hook of that first call: one authentication, then `Bearer tok1`. */
  lemma FirstPreCall(s: Session, d: Descriptor)
    requires s.token == Null && s.sent == [] && |s.authReplies| > 0 && s.authReplies[0] == Granted(Str("tok1"))
    requires !Contains(d.path, AuthenticatePath)
    ensures PreCall(s, d).result == Ok("Bearer tok1")
    ensures PreCall(s, d).after == s.(token := Str("tok1"), authReplies := s.authReplies[1..],
                                      authCalls := s.authCalls + 1, sent := [AuthRequest(s)])
  {
    assert BearerHeader(Str("tok1")) == "Bearer tok1";
  }

  /** The first round of that scenario: authenticate, send with `Bearer tok1`,
      meet the 401, authenticate again; what is left is one call with `tok2`. */
  lemma FreshFirstReplay(s: Session, d: Descriptor)
    requires s.token == Null && s.authCalls == 0 && s.sent == []
    requires |s.replies| > 0 && s.replies[0].Rejected? && s.replies[0].status == 401
    requires s.authReplies == [Granted(Str("tok1")), Granted(Str("tok2"))]
    requires !Contains(d.path, AuthenticateMarker) && !Contains(d.path, AuthenticatePath)
    ensures StepRequest(s, d) == StepRequest(Session(s.baseURL, s.credentials, Str("tok2"), s.replies[1..], [], 2,
              [AuthRequest(s), Sent(d.verb, d.path, "Bearer tok1", d.body), AuthRequest(s)]), d)
  {
    var pre := PreCall(s, d);
    FirstPreCall(s, d);
    ReplayAfterRejection(s, d);
    assert AuthRequest(pre.after) == AuthRequest(s);
  }

  /** A fresh client whose first call is answered with 401: it authenticates
      lazily (`tok1`), sends, meets the 401, authenticates again (`tok2`) and
      resends with `Bearer tok2`; the caller only sees the body. */
  lemma FreshFirst401Scenario(s: Session, d: Descriptor, rejection: JsValue, message: string, body: JsValue)
    requires s.token == Null && s.authCalls == 0 && s.sent == []
    requires s.replies == [Rejected(401, rejection, message), Answered(body)]
    requires s.authReplies == [Granted(Str("tok1")), Granted(Str("tok2"))]
    requires !Contains(d.path, AuthenticateMarker)
    ensures var r := StepRequest(s, d);
      && r.result == Ok(body)
      && r.after.authCalls == 2
      && r.after.token == Str("tok2")
      && r.after.sent == [
           AuthRequest(s),
           Sent(d.verb, d.path, "Bearer tok1", d.body),
           AuthRequest(s),
           Sent(d.verb, d.path, "Bearer tok2", d.body)]
  {
    assert !Contains(d.path, AuthenticatePath) by {
      if Contains(d.path, AuthenticatePath) {
        AuthenticatePathHasMarker(d.path);
      }
    }
    var first := Sent(d.verb, d.path, "Bearer tok1", d.body);
    var second := Sent(d.verb, d.path, "Bearer tok2", d.body);
    var s' := Session(s.baseURL, s.credentials, Str("tok2"), [Answered(body)], [], 2,
                      [AuthRequest(s), first, AuthRequest(s)]);
    FreshFirstReplay(s, d);
    assert StepRequest(s', d) == Step(Ok(body), s'.(replies := [], sent := s'.sent + [second])) by {
      HeldTokenSkipsAuthentication(s', d);
      assert BearerHeader(s'.token) == "Bearer tok2";
    }
    assert s'.sent + [second] == [AuthRequest(s), first, AuthRequest(s), second];
  }
}
