/** `protect`: the bearer-token gate in front of every API route. Verifying the JWT and
    finding the user are abstract: `verify` stands for `jwt.verify` (None when it throws),
    and `users` for the ids `User.findById` can find. */
module Auth {
  import opened Base
  import opened Text
  import opened Http

  const BearerScheme: string := "Bearer"
  const NoToken: string := "Not authorized, no token"
  const TokenFailed: string := "Not authorized, token failed"
  const UserNotFound: string := "User not found"

  /** The decoded JWT payload; `userId` may be missing from it. */
  datatype Claims = Claims(userId: Option<Id>)

  type Verifier = string -> Option<Claims>

  /** t is the field of h between its first and second spaces (or the end of h). */
  predicate SecondField(h: string, t: string) {
    exists i :: && 0 <= i < |h| && h[i] == ' ' && ' ' !in h[..i]
                && StartsWith(h[i + 1..], t) && ' ' !in t
                && (|h| == i + 1 + |t| || h[i + 1 + |t|] == ' ')
  }

  /** Lines 9-15: `token = authorization.split(" ")[1]` when the header starts with
      "Bearer"; None stands for `undefined`. */
  function HeaderToken(authorization: Option<string>): (t: Option<string>)
    ensures t.Some? <==> && authorization.Some? && StartsWith(authorization.value, BearerScheme)
                         && ' ' in authorization.value
    ensures t.Some? ==> SecondField(authorization.value, t.value)
  {
    if authorization.Some? && authorization.value != "" && StartsWith(authorization.value, BearerScheme) then
      var fields := Split(authorization.value, ' ');
      SplitSecond(authorization.value);
      if |fields| > 1 then Some(fields[1]) else None
    else None
  }

  /** The first field of a split is the text before the first separator. */
  lemma {:induction false} SplitHead(s: string, c: char)
    ensures var f := Split(s, c)[0];
            StartsWith(s, f) && (|f| == |s| || s[|f|] == c)
    decreases |s|
  {
    if s != [] && s[0] != c {
      SplitHead(s[1..], c);
    }
  }

  /** A split has a second field exactly when the separator occurs, and that field lies
      between the first and second separators. */
  lemma {:induction false} SplitSecond(h: string)
    ensures |Split(h, ' ')| > 1 <==> ' ' in h
    ensures |Split(h, ' ')| > 1 ==> SecondField(h, Split(h, ' ')[1])
  {
    if ' ' !in h {
      SplitNoSeparator(h, ' ');
    } else {
      var i := FirstSpace(h);
      var p, rest := h[..i], h[i + 1..];
      assert h == p + [' '] + rest;
      SplitFirstField(p, ' ', rest);
      assert Split(h, ' ') == [p] + Split(rest, ' ');
      var t := Split(rest, ' ')[0];
      SplitHead(rest, ' ');
      assert Split(h, ' ')[1] == t;
      assert StartsWith(h[i + 1..], t) && ' ' !in t;
      assert |h| == i + 1 + |t| || h[i + 1 + |t|] == ' ' by {
        if |h| != i + 1 + |t| {
          assert rest[|t|] == h[i + 1 + |t|];
        }
      }
    }
  }

  /** The index of the first space of h. */
  function FirstSpace(h: string): (i: nat)
    requires ' ' in h
    ensures i < |h| && h[i] == ' ' && ' ' !in h[..i]
  {
    if h[0] == ' ' then 0
    else
      assert ' ' in h[1..] by { assert h == [h[0]] + h[1..]; }
      var k := FirstSpace(h[1..]);
      assert h[..k + 1] == [h[0]] + h[1..][..k];
      k + 1
  }

  /** Either the authenticated user's id, or the 401 reply. */
  datatype AuthOutcome = Authenticated(userId: Id) | Rejected(reply: Reply)

  /** The decision ladder of lines 17-43: no token, a token that fails verification, and a
      verified token whose user is not found each get their own 401. A payload without a
      user id finds no user. */
  function Authenticate(authorization: Option<string>, verify: Verifier, users: set<Id>): (r: AuthOutcome)
    ensures r.Rejected? ==> r.reply.status == 401
    ensures r == Rejected(Reply(401, NoToken)) <==> !Truthy(HeaderToken(authorization))
    ensures r == Rejected(Reply(401, TokenFailed)) <==>
              Truthy(HeaderToken(authorization)) && verify(HeaderToken(authorization).value).None?
    ensures r == Rejected(Reply(401, UserNotFound)) <==>
              && Truthy(HeaderToken(authorization))
              && verify(HeaderToken(authorization).value).Some?
              && (|| verify(HeaderToken(authorization).value).value.userId.None?
                  || verify(HeaderToken(authorization).value).value.userId.value !in users)
    ensures r.Authenticated? <==> && Truthy(HeaderToken(authorization))
                                  && verify(HeaderToken(authorization).value).Some?
                                  && verify(HeaderToken(authorization).value).value.userId.Some?
                                  && verify(HeaderToken(authorization).value).value.userId.value in users
    ensures r.Authenticated? ==> r.userId == verify(HeaderToken(authorization).value).value.userId.value
  {
    var token := HeaderToken(authorization);
    if !Truthy(token) then Rejected(Reply(401, NoToken))
    else match verify(token.value)
      case None => Rejected(Reply(401, TokenFailed))
      case Some(claims) =>
        if claims.userId.Some? && claims.userId.value in users then Authenticated(claims.userId.value)
        else Rejected(Reply(401, UserNotFound))
  }

  /** `protect` as a guard, with the logging of line 14 guarded so that a missing token
      reaches the check at line 17: an authenticated caller passes with the user recorded
      on the request and nothing else changed; anyone else gets the 401 of `Authenticate`. */
  function ProtectStep(ctx: Ctx, verify: Verifier, users: set<Id>): (s: Step)
    ensures s.Pass? <==> Authenticate(ctx.authorization, verify, users).Authenticated?
    ensures s.Pass? ==> s.ctx == ctx.(user := Some(Authenticate(ctx.authorization, verify, users).userId))
    ensures s.Halt? ==> s.reply == Authenticate(ctx.authorization, verify, users).reply && s.reply.status == 401
  {
    var outcome := Authenticate(ctx.authorization, verify, users);
    if outcome.Authenticated? then Pass(ctx.(user := Some(outcome.userId))) else Halt(outcome.reply)
  }

  /** `protect` as written: line 14 logs `token.substring(0, 20)` before the check at line
      17, so a header that starts with "Bearer" but holds no space leaves `token`
      undefined and the log line throws. None stands for that exception; no 401 is sent. */
  function ProtectAsWritten(ctx: Ctx, verify: Verifier, users: set<Id>): (r: Option<Step>)
    ensures r.None? <==> && ctx.authorization.Some? && StartsWith(ctx.authorization.value, BearerScheme)
                         && ' ' !in ctx.authorization.value
    ensures r.Some? ==> r.value == ProtectStep(ctx, verify, users)
  {
    if ctx.authorization.Some? && ctx.authorization.value != "" && StartsWith(ctx.authorization.value, BearerScheme)
       && HeaderToken(ctx.authorization).None?
    then None
    else Some(ProtectStep(ctx, verify, users))
  }

  /** The header "Bearer" alone: the code as written throws instead of answering. */
  lemma BareBearerThrows(param: Id, verify: Verifier, users: set<Id>)
    ensures ProtectAsWritten(Incoming(Some(BearerScheme), param), verify, users).None?
  {
    assert StartsWith(BearerScheme, BearerScheme);
  }

  /** The corrected guard answers the same header with 401 "no token", as intended. */
  lemma BareBearerRejected(param: Id, verify: Verifier, users: set<Id>)
    ensures ProtectStep(Incoming(Some(BearerScheme), param), verify, users) == Halt(Reply(401, NoToken))
  {
    assert ' ' !in BearerScheme;
  }

  /** "Bearer  x" (two spaces): the second field is empty, so there is no token. */
  lemma DoubleSpaceHasNoToken(x: string)
    ensures !Truthy(HeaderToken(Some(BearerScheme + "  " + x)))
  {
    var h := BearerScheme + "  " + x;
    assert h == BearerScheme + [' '] + ([' '] + x);
    SplitFirstField(BearerScheme, ' ', [' '] + x);
    assert Split([' '] + x, ' ') == [""] + Split(x, ' ');
  }

  /** Lines 4-44 on the request object: assigns `req.user`/`req.userId` and calls `next()`
      (result None), or answers with a 401 reply and leaves the request untouched. */
  method Protect(req: Request, verify: Verifier, users: set<Id>) returns (reply: Option<Reply>)
    modifies req
    ensures ProtectStep(old(req.Snapshot()), verify, users).Pass? ==>
              reply.None? && req.Snapshot() == ProtectStep(old(req.Snapshot()), verify, users).ctx
    ensures ProtectStep(old(req.Snapshot()), verify, users).Halt? ==>
              reply == Some(ProtectStep(old(req.Snapshot()), verify, users).reply) && req.Snapshot() == old(req.Snapshot())
  {
    var token := HeaderToken(req.authorization);
    if !Truthy(token) {
      return Some(Reply(401, NoToken));
    }
    var decoded := verify(token.value);
    if decoded.None? {
      return Some(Reply(401, TokenFailed));
    }
    if decoded.value.userId.None? || decoded.value.userId.value !in users {
      return Some(Reply(401, UserNotFound));
    }
    req.user := decoded.value.userId;
    return None;
  }
}
