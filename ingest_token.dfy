/**
 * The ingest-token guard: it is configured once with the `INGEST_TOKEN`
 * environment value and admits a request whose `Authorization` header is
 * `Bearer <token>` with that token.
 */
module IngestToken {
  import opened Results
  import opened HttpErrors

  /** `String.prototype.split` with a one-character separator. */
  function Split(s: string, sep: char): (parts: seq<string>)
    ensures |parts| >= 1
    ensures forall i :: 0 <= i < |parts| ==> sep !in parts[i]
  {
    if s == [] then [""]
    else if s[0] == sep then [""] + Split(s[1..], sep)
    else
      var rest := Split(s[1..], sep);
      [[s[0]] + rest[0]] + rest[1..]
  }

  /** `Array.prototype.join` with a one-character separator. */
  function Join(parts: seq<string>, sep: char): string
    requires |parts| >= 1
  {
    if |parts| == 1 then parts[0] else parts[0] + [sep] + Join(parts[1..], sep)
  }

  /** The characters of `s` before the first `sep`. */
  function TakeUntil(s: string, sep: char): (r: string)
    ensures sep !in r && |r| <= |s| && r == s[..|r|]
  {
    if s == [] || s[0] == sep then [] else [s[0]] + TakeUntil(s[1..], sep)
  }

  /** Joining the segments gives the string back. */
  lemma {:induction false} JoinSplit(s: string, sep: char)
    ensures Join(Split(s, sep), sep) == s
  {
    if s != [] {
      var rest := Split(s[1..], sep);
      JoinSplit(s[1..], sep);
      if s[0] == sep {
        assert Split(s, sep)[1..] == rest;
      } else if |rest| > 1 {
        var parts := Split(s, sep);
        assert parts[1..] == rest[1..];
        assert Join(parts, sep) == [s[0]] + (rest[0] + [sep] + Join(rest[1..], sep));
      }
    }
  }

  /** The first segment runs up to the first separator. */
  lemma {:induction false} FirstSegment(s: string, sep: char)
    ensures Split(s, sep)[0] == TakeUntil(s, sep)
  {
    if s != [] && s[0] != sep {
      FirstSegment(s[1..], sep);
    }
  }

  /** A separator-free word followed by the separator is the first segment. */
  lemma {:induction false} SplitAfterWord(word: string, sep: char, rest: string)
    requires sep !in word
    ensures Split(word + [sep] + rest, sep) == [word] + Split(rest, sep)
  {
    var s := word + [sep] + rest;
    if word == [] {
      assert s[1..] == rest;
    } else {
      assert s[0] == word[0];
      assert s[1..] == word[1..] + [sep] + rest;
      SplitAfterWord(word[1..], sep, rest);
      assert [word[0]] + word[1..] == word;
    }
  }

  predicate StartsWith(s: string, prefix: string) {
    |prefix| <= |s| && s[..|prefix|] == prefix
  }

  const BEARER := "Bearer "
  const MISSING_HEADER := "Missing or invalid Authorization header"
  const INVALID_TOKEN := "Invalid token"
  const TOKEN_NOT_SET := "INGEST_TOKEN environment variable is not set"

  /** The token of a `Bearer ` header: the second space-separated segment. */
  function BearerToken(header: string): string
    requires StartsWith(header, BEARER)
  {
    TakeUntil(header[|BEARER|..], ' ')
  }

  /** `header.split(' ')[1]` is the Bearer token; later segments are ignored. */
  lemma SecondSegmentIsToken(header: string)
    requires StartsWith(header, BEARER)
    ensures |Split(header, ' ')| >= 2
    ensures Split(header, ' ')[1] == BearerToken(header)
  {
    var rest := header[|BEARER|..];
    assert header == "Bearer" + [' '] + rest;
    SplitAfterWord("Bearer", ' ', rest);
    FirstSegment(rest, ' ');
  }

  /** A configured guard. */
  datatype IngestTokenGuard = IngestTokenGuard(token: string)

  /** The constructor: it refuses an unset or empty `INGEST_TOKEN`. */
  function NewIngestTokenGuard(env: Option<string>): (r: Result<IngestTokenGuard, string>)
    ensures r.Success? <==> Present(env)
    ensures r.Success? ==> r.value.token == env.value && r.value.token != ""
    ensures r.Failure? ==> r.error == TOKEN_NOT_SET
  {
    if !Present(env) then Failure(TOKEN_NOT_SET) else Success(IngestTokenGuard(env.value))
  }

  /** `request.headers['authorization']`. */
  function AuthorizationOf(headers: map<string, string>): Option<string> {
    if "authorization" in headers then Some(headers["authorization"]) else None
  }

  /** `canActivate`. */
  function CanActivate(guard: IngestTokenGuard, headers: map<string, string>): (r: Result<bool, HttpException>)
    ensures r.Success? <==>
      var auth := AuthorizationOf(headers);
      Present(auth) && StartsWith(auth.value, BEARER) && BearerToken(auth.value) == guard.token
    ensures r.Success? ==> r.value
    ensures r.Failure? ==> r.error.status == UNAUTHORIZED
    ensures r.Failure? ==>
      var auth := AuthorizationOf(headers);
      (r.error == Unauthorized(MISSING_HEADER) <==> !Present(auth) || !StartsWith(auth.value, BEARER))
    ensures r.Failure? && Present(AuthorizationOf(headers)) && StartsWith(AuthorizationOf(headers).value, BEARER) ==>
      r.error == Unauthorized(INVALID_TOKEN)
  {
    var auth := AuthorizationOf(headers);
    if !Present(auth) || !StartsWith(auth.value, BEARER) then
      Failure(Unauthorized(MISSING_HEADER))
    else
      SecondSegmentIsToken(auth.value);
      var token := Split(auth.value, ' ')[1];
      if token != guard.token then Failure(Unauthorized(INVALID_TOKEN)) else Success(true)
  }

  /** `Bearer ` with nothing after it, or with a second space, never gets through a constructed guard. */
  lemma EmptyTokenNeverMatches(env: Option<string>, headers: map<string, string>)
    requires NewIngestTokenGuard(env).Success?
    requires AuthorizationOf(headers) == Some(BEARER) || AuthorizationOf(headers) == Some(BEARER + " " + "x")
    ensures CanActivate(NewIngestTokenGuard(env).value, headers) == Failure(Unauthorized(INVALID_TOKEN))
  {
    var auth := AuthorizationOf(headers).value;
    assert StartsWith(auth, BEARER) by {
      assert auth[..|BEARER|] == BEARER;
    }
    assert auth[|BEARER|..] == [] || auth[|BEARER|..][0] == ' ';
  }

  /** The configured token after `Bearer ` admits the request, whatever follows a further space. */
  lemma ConfiguredTokenAdmitted(env: Option<string>, headers: map<string, string>, trailer: string)
    requires NewIngestTokenGuard(env).Success?
    requires AuthorizationOf(headers) == Some(BEARER + env.value + " " + trailer)
    requires ' ' !in env.value
    ensures CanActivate(NewIngestTokenGuard(env).value, headers) == Success(true)
  {
    var auth := AuthorizationOf(headers).value;
    assert auth[..|BEARER|] == BEARER;
    var rest := auth[|BEARER|..];
    assert rest == env.value + [' '] + trailer;
    SplitAfterWord(env.value, ' ', trailer);
    FirstSegment(rest, ' ');
  }
}
