/** The two request guards: `protect` (a bearer session token is required)
    and `adminOnly` (the token's role must be ADMIN). */
module Middleware {
  import opened Records

  const BearerPrefix: string := "Bearer "

  /** The header is present and starts with "Bearer " (an absent header fails the test). */
  predicate HasBearerPrefix(header: Option<string>): (has: bool)
    ensures has <==> exists token :: header == Some(BearerPrefix + token)
  {
    if header.Some? && |BearerPrefix| <= |header.value| && header.value[..|BearerPrefix|] == BearerPrefix then
      assert header.value == BearerPrefix + header.value[|BearerPrefix|..];
      true
    else
      false
  }

  /** Inverse of Split: the fields glued back together with the separator. */
  function Join(fields: seq<string>, sep: char): string
    requires |fields| >= 1
  {
    if |fields| == 1 then fields[0] else fields[0] + [sep] + Join(fields[1..], sep)
  }

  /** String.prototype.split with a one-character separator: the maximal
      separator-free runs of `s`, empty runs included. */
  function Split(s: string, sep: char): (fields: seq<string>)
    ensures |fields| >= 1
    ensures Join(fields, sep) == s
    ensures forall i | 0 <= i < |fields| :: sep !in fields[i]
  {
    if s == [] then [""]
    else
      var rest := Split(s[1..], sep);
      if s[0] == sep then
        assert ([""] + rest)[1..] == rest;
        [""] + rest
      else
        var fields := [[s[0]] + rest[0]] + rest[1..];
        assert |rest| > 1 ==> fields[1..] == rest[1..];
        fields
  }

  /** Splitting undoes joining, as long as no field contains the separator. */
  lemma {:induction false} SplitJoin(fields: seq<string>, sep: char)
    requires |fields| >= 1
    requires forall i | 0 <= i < |fields| :: sep !in fields[i]
    ensures Split(Join(fields, sep), sep) == fields
  {
    if |fields| == 1 {
      SplitRun(fields[0], sep);
    } else {
      SplitJoin(fields[1..], sep);
      SplitAfterRun(fields[0], Join(fields[1..], sep), sep);
    }
  }

  /** A separator-free string is one field. */
  lemma {:induction false} SplitRun(run: string, sep: char)
    requires sep !in run
    ensures Split(run, sep) == [run]
  {
    if run != [] {
      SplitRun(run[1..], sep);
    }
  }

  /** A separator-free run followed by the separator becomes the first field. */
  lemma {:induction false} SplitAfterRun(run: string, tail: string, sep: char)
    requires sep !in run
    ensures Split(run + [sep] + tail, sep) == [run] + Split(tail, sep)
  {
    if run == [] {
      assert run + [sep] + tail == [sep] + tail;
      assert ([sep] + tail)[1..] == tail;
    } else {
      assert (run + [sep] + tail)[1..] == run[1..] + [sep] + tail;
      SplitAfterRun(run[1..], tail, sep);
      assert [run[0]] + run[1..] == run;
    }
  }

  /** The first field of a split is the prefix up to the first separator. */
  lemma FirstField(s: string, sep: char)
    ensures var f := Split(s, sep)[0];
      sep !in f && f <= s && (|f| == |s| || s[|f|] == sep)
  {
    var fields := Split(s, sep);
    if |fields| > 1 {
      assert s == fields[0] + ([sep] + Join(fields[1..], sep));
    }
  }

  /** `authHeader.split(' ')[1]`: the token is the second space-separated field. */
  function TokenOf(header: string): (token: string)
    requires HasBearerPrefix(Some(header))
    ensures ' ' !in token
    ensures BearerPrefix + token <= header
    ensures |header| == |BearerPrefix| + |token| || header[|BearerPrefix| + |token|] == ' '
  {
    var rest := header[|BearerPrefix|..];
    assert header == "Bearer" + [' '] + rest;
    SplitAfterRun("Bearer", rest, ' ');
    FirstField(rest, ' ');
    Split(header, ' ')[1]
  }

  /** A header built as "Bearer " + token yields that token back. */
  lemma BearerRoundTrip(token: string)
    requires ' ' !in token
    ensures HasBearerPrefix(Some(BearerPrefix + token))
    ensures TokenOf(BearerPrefix + token) == token
  {
    var header := BearerPrefix + token;
    assert header[..|BearerPrefix|] == BearerPrefix;
    var t := TokenOf(header);
    assert t == header[|BearerPrefix|..|BearerPrefix| + |t|];
  }

  /** The request as the guards see it: its Authorization header and the
      user a verified token attaches to it. */
  class AuthRequest {
    const authorization: Option<string>
    var user: Option<Payload>

    constructor (authorization: Option<string>)
      ensures this.authorization == authorization && user == None
    {
      this.authorization := authorization;
      user := None;
    }
  }

  /** A guard either calls `next()` once, or ends the request with an error reply. */
  datatype Gate = Next | Halt(error: HttpError)

  /** `protect`: token verification is the caller-supplied `verify`, which
      answers None for a token that is invalid or expired. */
  method Protect(req: AuthRequest, verify: string -> Option<Payload>) returns (gate: Gate)
    modifies req
    ensures !HasBearerPrefix(req.authorization) ==>
      gate == Halt(Unauthorized("No token provided")) && req.user == old(req.user)
    ensures HasBearerPrefix(req.authorization) && verify(TokenOf(req.authorization.value)).None? ==>
      gate == Halt(Unauthorized("Invalid or expired token")) && req.user == old(req.user)
    ensures HasBearerPrefix(req.authorization) && verify(TokenOf(req.authorization.value)).Some? ==>
      gate == Next && req.user == verify(TokenOf(req.authorization.value))
    ensures gate.Halt? ==> gate.error.Code() == 401
  {
    if !HasBearerPrefix(req.authorization) {
      return Halt(Unauthorized("No token provided"));
    }
    var token := TokenOf(req.authorization.value);
    var payload := verify(token);
    if payload.None? {
      return Halt(Unauthorized("Invalid or expired token"));
    }
    req.user := payload;
    gate := Next;
  }

  /** `adminOnly`: only a user whose role is exactly "ADMIN" passes. */
  function AdminOnly(req: AuthRequest): (gate: Gate)
    reads req
    ensures gate == Next <==> req.user.Some? && req.user.value.role == "ADMIN"
    ensures gate != Next ==> gate == Halt(Forbidden("Admin access required"))
    ensures gate.Halt? ==> gate.error.Code() == 403
  {
    if req.user.None? || req.user.value.role != "ADMIN" then Halt(Forbidden("Admin access required"))
    else Next
  }
}
