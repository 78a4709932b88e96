/** The API server's request guard
    (apps/api-server/src/common/auth.middleware.ts): it takes the second
    space-separated word of the Authorization header as the token and lets
    the request through whenever that word is non-empty. */
module AuthMiddleware {
  import opened Optional

  /** Position of the first `c` in `s`. */
  function IndexOf(s: string, c: char): (i: nat)
    requires c in s
    ensures i < |s| && s[i] == c && c !in s[..i]
    ensures forall j | 0 <= j < i :: s[j] != c
  {
    if s[0] == c then 0
    else
      assert c in s[1..] by {
        var k :| 0 <= k < |s| && s[k] == c;
        assert s[1..][k - 1] == c;
      }
      var i := 1 + IndexOf(s[1..], c);
      assert s[..i] == [s[0]] + s[1..][..i - 1];
      i
  }

  /** JavaScript's `s.split(sep)` for a one-character separator: the pieces
      between separators, at least one of them, none containing `sep`. */
  function Split(s: string, sep: char): (fields: seq<string>)
    ensures |fields| >= 1
    ensures |fields| == 1 <==> sep !in s
    decreases |s|
  {
    if sep !in s then [s]
    else
      var i := IndexOf(s, sep);
      [s[..i]] + Split(s[i + 1..], sep)
  }

  /** `fields.join(sep)`. */
  function Join(fields: seq<string>, sep: char): string
    requires |fields| >= 1
  {
    if |fields| == 1 then fields[0] else fields[0] + [sep] + Join(fields[1..], sep)
  }

  /** No piece contains the separator. */
  lemma {:induction false} SplitFieldsHaveNoSeparator(s: string, sep: char, k: int)
    requires 0 <= k < |Split(s, sep)|
    ensures sep !in Split(s, sep)[k]
    decreases |s|
  {
    if sep in s && k > 0 {
      var i := IndexOf(s, sep);
      SplitFieldsHaveNoSeparator(s[i + 1..], sep, k - 1);
    }
  }

  /** Joining a list with a head puts the separator after the head. */
  lemma JoinCons(head: string, rest: seq<string>, sep: char)
    requires |rest| >= 1
    ensures Join([head] + rest, sep) == head + [sep] + Join(rest, sep)
  {
    assert ([head] + rest)[1..] == rest;
  }

  /** Splitting loses nothing: joining the pieces gives back the string. */
  lemma {:induction false} JoinSplit(s: string, sep: char)
    ensures Join(Split(s, sep), sep) == s
    decreases |s|
  {
    if sep in s {
      var i := IndexOf(s, sep);
      var tail := s[i + 1..];
      JoinSplit(tail, sep);
      JoinCons(s[..i], Split(tail, sep), sep);
      assert s == s[..i] + [sep] + tail;
    }
  }

  /** The first piece is empty exactly when the string is empty or starts
      with the separator. */
  lemma {:induction false} FirstFieldEmpty(s: string, sep: char)
    ensures Split(s, sep)[0] == [] <==> s == [] || s[0] == sep
  {
    if sep in s {
      var i := IndexOf(s, sep);
      if i > 0 {
        assert s[..i][0] == s[0];
      }
    }
  }

  /** The request's fate: a 401 response with a JSON error, or `next()`. */
  datatype Outcome = Unauthorized(status: int, error: string) | Next

  /** `req.headers.authorization?.split(' ')[1]`. */
  function Token(authorization: Option<string>): Option<string> {
    if authorization.None? then None
    else
      var fields := Split(authorization.value, ' ');
      if |fields| > 1 then Some(fields[1]) else None
  }

  /** `authMiddleware`. */
  function Authenticate(authorization: Option<string>): Outcome {
    var token := Token(authorization);
    if token.None? || token.value == "" then Unauthorized(401, "No token provided") else Next
  }

  /** A request passes exactly when its header holds a space followed, right
      after the first space, by a character other than a space; there is no
      other check. Every refusal is the same 401. */
  lemma AuthenticateSpec(authorization: Option<string>)
    ensures Authenticate(authorization) == Next <==>
              authorization.Some? && ' ' in authorization.value &&
              IndexOf(authorization.value, ' ') + 1 < |authorization.value| &&
              authorization.value[IndexOf(authorization.value, ' ') + 1] != ' '
    ensures Authenticate(authorization) != Next ==> Authenticate(authorization) == Unauthorized(401, "No token provided")
  {
    if authorization.Some? && ' ' in authorization.value {
      var h := authorization.value;
      var i := IndexOf(h, ' ');
      assert Split(h, ' ')[1] == Split(h[i + 1..], ' ')[0];
      FirstFieldEmpty(h[i + 1..], ' ');
    }
  }

  lemma IndexOfAfter(prefix: string, rest: string, c: char)
    requires c !in prefix && rest != [] && rest[0] == c
    ensures IndexOf(prefix + rest, c) == |prefix|
  {
    assert (prefix + rest)[|prefix|] == c;
  }

  /** Any scheme word and any token word pass: "Bearer x", "Basic x" and
      " x" alike, and the token is not verified. */
  lemma AnySchemeAnyToken(scheme: string, token: string)
    requires ' ' !in scheme && ' ' !in token && token != []
    ensures Token(Some(scheme + " " + token)) == Some(token)
    ensures Authenticate(Some(scheme + " " + token)) == Next
  {
    var h := scheme + " " + token;
    IndexOfAfter(scheme, " " + token, ' ');
    assert h == scheme + (" " + token);
    assert h[..|scheme|] == scheme && h[|scheme| + 1..] == token;
    assert Split(h, ' ') == [scheme] + Split(token, ' ');
  }

  /** A missing header, a header without a space, and a header whose
      first space is last ("Bearer ") are all refused. */
  lemma MissingTokenRefused(word: string)
    requires ' ' !in word
    ensures Authenticate(None) == Unauthorized(401, "No token provided")
    ensures Authenticate(Some(word)) == Unauthorized(401, "No token provided")
    ensures Authenticate(Some(word + " ")) == Unauthorized(401, "No token provided")
  {
    AuthenticateSpec(Some(word + " "));
    IndexOfAfter(word, " ", ' ');
  }

  /** Two spaces after the scheme ("Bearer  x") make the token the empty
      field between them, so the request is refused even though a token
      word follows. */
  lemma DoubleSpaceRefused(scheme: string, token: string)
    requires ' ' !in scheme
    ensures Token(Some(scheme + "  " + token)) == Some("")
    ensures Authenticate(Some(scheme + "  " + token)) == Unauthorized(401, "No token provided")
  {
    var h := scheme + "  " + token;
    IndexOfAfter(scheme, "  " + token, ' ');
    assert h == scheme + ("  " + token);
    AuthenticateSpec(Some(h));
    assert h[|scheme| + 1..] == " " + token;
    FirstFieldEmpty(h[|scheme| + 1..], ' ');
    assert Split(h, ' ')[1] == Split(h[|scheme| + 1..], ' ')[0];
  }
}
