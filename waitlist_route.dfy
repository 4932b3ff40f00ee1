/**
 * The web app's `POST /api/waitlist` route: it checks the submitted e-mail
 * address against a regular expression and answers 400, 200 or 500.
 */
module WaitlistRoute {
  import opened Wrappers
  import opened Js

  /** A character the class `[^\s@]` accepts. */
  predicate Plain(c: char) {
    c != '@' && !IsJsWhitespace(c)
  }

  predicate AllPlain(s: string) {
    forall k :: 0 <= k < |s| ==> Plain(s[k])
  }

  /**
   * `/^[^\s@]+@[^\s@]+\.[^\s@]+$/.test(s)`, read position by position: an '@'
   * at i with at least one character before it, a '.' at j with at least one
   * character between the two and one after the '.', and every character
   * except that '@' plain.
   */
  predicate IsValidEmail(s: string) {
    exists i, j :: 0 < i && i + 1 < j < |s| - 1 && s[i] == '@' && s[j] == '.'
                   && forall k :: 0 <= k < |s| && k != i ==> Plain(s[k])
  }

  /** A domain part: plain characters with a '.' that is neither first nor last. */
  predicate DomainOk(d: string) {
    AllPlain(d) && exists k :: 0 < k < |d| - 1 && d[k] == '.'
  }

  /** For every address written as L + "@" + D, the regex accepts it exactly when L and D have the required shape. */
  lemma ValidEmailIff(l: string, d: string)
    ensures IsValidEmail(l + "@" + d) <==> |l| > 0 && AllPlain(l) && DomainOk(d)
  {
    var s := l + "@" + d;
    if IsValidEmail(s) {
      var i, j :| 0 < i && i + 1 < j < |s| - 1 && s[i] == '@' && s[j] == '.'
                 && forall k :: 0 <= k < |s| && k != i ==> Plain(s[k]);
      assert !Plain(s[|l|]);
      assert i == |l|;
      forall k | 0 <= k < |l|
        ensures Plain(l[k])
      {
        assert l[k] == s[k];
      }
      forall m | 0 <= m < |d|
        ensures Plain(d[m])
      {
        assert d[m] == s[|l| + 1 + m];
      }
      assert d[j - |l| - 1] == '.';
    }
    if |l| > 0 && AllPlain(l) && DomainOk(d) {
      var k :| 0 < k < |d| - 1 && d[k] == '.';
      assert s[|l|] == '@' && s[|l| + 1 + k] == '.';
      forall n | 0 <= n < |s| && n != |l|
        ensures Plain(s[n])
      {
        if n < |l| {
          assert s[n] == l[n];
        } else {
          assert s[n] == d[n - |l| - 1];
        }
      }
    }
  }

  /** Every accepted address is some L + "@" + D, so ValidEmailIff covers them all. */
  lemma ValidEmailSplits(s: string) returns (l: string, d: string)
    requires IsValidEmail(s)
    ensures s == l + "@" + d
  {
    var i, j :| 0 < i && i + 1 < j < |s| - 1 && s[i] == '@' && s[j] == '.'
               && forall k :: 0 <= k < |s| && k != i ==> Plain(s[k]);
    l, d := s[..i], s[i + 1..];
    assert s == s[..i] + [s[i]] + s[i + 1..];
  }

  /** A string none of whose characters is '@' holds no '@'. */
  lemma NoAt(t: string)
    requires forall k :: 0 <= k < |t| ==> t[k] != '@'
    ensures multiset(t)['@'] == 0
  {
    assert '@' !in t;
  }

  /** An accepted address holds exactly one '@' and no whitespace. */
  lemma ValidEmailOneAt(s: string)
    requires IsValidEmail(s)
    ensures multiset(s)['@'] == 1
    ensures forall k :: 0 <= k < |s| ==> !IsJsWhitespace(s[k])
  {
    var i, j :| 0 < i && i + 1 < j < |s| - 1 && s[i] == '@' && s[j] == '.'
               && forall k :: 0 <= k < |s| && k != i ==> Plain(s[k]);
    var l, d := s[..i], s[i + 1..];
    assert s == l + [s[i]] + d;
    forall k | 0 <= k < |l|
      ensures l[k] != '@'
    {
      assert Plain(s[k]);
    }
    forall k | 0 <= k < |d|
      ensures d[k] != '@'
    {
      assert Plain(s[i + 1 + k]);
    }
    NoAt(l);
    NoAt(d);
    assert multiset(s) == multiset(l) + multiset{'@'} + multiset(d);
  }

  /** What `NextResponse.json` is given: a status and a JSON body. */
  datatype Reply = Reply(status: int, body: Json)

  const JoinFailed: Reply := Reply(500, JObj(map["error" := JStr("Failed to join waitlist")]))
  const InvalidEmail: Reply := Reply(400, JObj(map["error" := JStr("Valid email is required")]))
  const Joined: Reply :=
    Reply(200, JObj(map["success" := JBool(true), "message" := JStr("Successfully joined waitlist")]))

  /**
   * The route handler. `parsed` is what `request.json()` produced (None when it
   * threw). Destructuring `email` out of `null` throws, which the catch turns
   * into a 500; `isValidEmail` sees the address coerced to a string.
   */
  function Post(parsed: Option<Json>): (r: Reply)
    ensures parsed.None? || parsed == Some(JNull) ==> r == JoinFailed
    ensures parsed.Some? && parsed.value != JNull ==>
              var email := Prop(parsed.value, "email");
              r == (if TruthyOpt(email) && IsValidEmail(ToJsString(email.value)) then Joined else InvalidEmail)
    ensures r.status == 200 ==> r == Joined
  {
    match parsed
    case None => JoinFailed
    case Some(body) =>
      if body == JNull then JoinFailed
      else
        var email := Prop(body, "email");
        if !TruthyOpt(email) || !IsValidEmail(ToJsString(email.value)) then InvalidEmail
        else Joined
  }

  /** A body without an e-mail, or with an empty one, is a 400, never a 500. */
  lemma MissingEmailIsBadRequest(fields: map<string, Json>)
    requires "email" !in fields || fields["email"] == JStr("")
    ensures Post(Some(JObj(fields))) == InvalidEmail
  {
  }

  /** A well-formed address string is accepted and joins the waitlist. */
  lemma ValidEmailJoins(fields: map<string, Json>, l: string, d: string)
    requires |l| > 0 && AllPlain(l) && DomainOk(d)
    requires "email" in fields && fields["email"] == JStr(l + "@" + d)
    ensures Post(Some(JObj(fields))) == Joined
  {
    ValidEmailIff(l, d);
  }
}
