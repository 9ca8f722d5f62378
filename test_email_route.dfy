/** app/api/test-email/route.ts: the `POST` handler that checks the `email`
    field, tests it against `/^[^\s@]+@[^\s@]+\.[^\s@]+$/`, and only then
    sends a test message. */
module TestEmailRoute {
  import opened Common

  /** A character `[^\s@]` matches. */
  predicate Plain(c: char)
  {
    !IsJsSpace(c) && c != '@'
  }

  predicate AllPlain(s: string)
  {
    forall k :: 0 <= k < |s| ==> Plain(s[k])
  }

  /** The regular expression read as written: a non-empty run of plain
      characters, '@', a non-empty run, a '.', and a non-empty run up to the
      end, the '@' at `a` and that '.' at `d`. */
  predicate RegexSplit(s: string, a: int, d: int)
  {
    0 < a && a + 1 < d < |s| - 1 && s[a] == '@' && s[d] == '.' &&
    AllPlain(s[..a]) && AllPlain(s[a + 1..d]) && AllPlain(s[d + 1..])
  }

  predicate RegexAccepts(s: string)
  {
    exists a, d | 0 < a < |s| && 0 < d < |s| :: RegexSplit(s, a, d)
  }

  /** The same language described by what it asks of the address: no white
      space, exactly one '@' and not in front, and a '.' after the '@' that
      is neither the first nor the last character of the part after it. */
  predicate WellFormedEmail(s: string)
  {
    (forall k :: 0 <= k < |s| ==> !IsJsSpace(s[k])) &&
    exists a :: 0 < a < |s| && s[a] == '@' &&
      (forall k :: 0 <= k < |s| && k != a ==> s[k] != '@') &&
      exists d :: a + 1 < d < |s| - 1 && s[d] == '.'
  }

  /** The regular expression accepts exactly the well-formed addresses. */
  lemma RegexCharacterised(s: string)
    ensures RegexAccepts(s) <==> WellFormedEmail(s)
  {
    if RegexAccepts(s) {
      var a, d :| 0 < a < |s| && 0 < d < |s| && RegexSplit(s, a, d);
      assert a + 1 < d < |s| - 1 && s[a] == '@' && s[d] == '.';
      assert AllPlain(s[..a]) && AllPlain(s[a + 1..d]) && AllPlain(s[d + 1..]);
      forall k | 0 <= k < |s| ensures !IsJsSpace(s[k]) && (k != a ==> s[k] != '@') {
        if k < a { assert s[..a][k] == s[k]; assert Plain(s[..a][k]); }
        else if a < k < d { assert s[a + 1..d][k - a - 1] == s[k]; assert Plain(s[a + 1..d][k - a - 1]); }
        else if k > d { assert s[d + 1..][k - d - 1] == s[k]; assert Plain(s[d + 1..][k - d - 1]); }
      }
    }
    if WellFormedEmail(s) {
      var a :| 0 < a < |s| && s[a] == '@' &&
               (forall k :: 0 <= k < |s| && k != a ==> s[k] != '@') &&
               exists d :: a + 1 < d < |s| - 1 && s[d] == '.';
      var d :| a + 1 < d < |s| - 1 && s[d] == '.';
      assert RegexSplit(s, a, d);
    }
  }

  /** Any white space, or a second '@', makes the address fail the test. */
  lemma SpaceOrSecondAtRejected(s: string, i: int, j: int)
    requires 0 <= i < |s| && 0 <= j < |s|
    requires IsJsSpace(s[i]) || (i != j && s[i] == '@' && s[j] == '@')
    ensures !RegexAccepts(s)
  {
    RegexCharacterised(s);
  }

  /** A concrete address passes. */
  lemma SampleAccepted()
    ensures RegexAccepts("a@b.co")
  {
    assert RegexSplit("a@b.co", 1, 3);
  }

  /** What `sendTestEmail` resolves to. */
  datatype SendResult = SendResult(success: bool, id: Option<string>, error: Option<string>)

  /** The answers of `POST`: the message was sent (200), or an error with
      its status. */
  datatype EmailReply = Sent(id: Option<string>) | Refused(status: int, error: string)

  /** `POST`. `body` is the parsed request body's `email` field, or the
      parse error; `send` what `sendTestEmail` would give, or the error it
      would throw. */
  function Post(body: Result<Field>, send: Result<SendResult>): EmailReply
  {
    match body
    case Err(message) => Refused(500, message)
    case Ok(email) =>
      if !email.Str? || email.s == "" then Refused(400, "Missing or invalid email address")
      else if !RegexAccepts(email.s) then Refused(400, "Invalid email format")
      else
        match send
        case Err(message) => Refused(500, message)
        case Ok(result) =>
          if result.success then Sent(result.id)
          else Refused(500, OrElse(result.error, "Failed to send email"))
  }

  /** The guard order: a missing, empty or non-string email is 400 before
      the format is looked at, a badly formed one is 400 next, and in both
      cases the send outcome plays no part, so no message goes out. */
  lemma ChecksPrecedeSending(email: Field, s1: Result<SendResult>, s2: Result<SendResult>)
    ensures !email.Str? || email.s == "" ==>
              Post(Ok(email), s1) == Refused(400, "Missing or invalid email address")
    ensures email.Str? && email.s != "" && !WellFormedEmail(email.s) ==>
              Post(Ok(email), s1) == Refused(400, "Invalid email format")
    ensures Post(Ok(email), s1) != Post(Ok(email), s2) ==> email.Str? && WellFormedEmail(email.s)
  {
    if email.Str? {
      RegexCharacterised(email.s);
    }
  }

  /** For a well-formed address the answer is the send outcome: its id on
      success, otherwise 500 with its error or, lacking one, "Failed to send
      email"; a thrown error gives 500 with its message. */
  lemma SendOutcomeReported(s: string, send: Result<SendResult>)
    requires WellFormedEmail(s)
    ensures send.Ok? && send.value.success ==> Post(Ok(Str(s)), send) == Sent(send.value.id)
    ensures send.Ok? && !send.value.success && Truthy(send.value.error) ==>
              Post(Ok(Str(s)), send) == Refused(500, send.value.error.value)
    ensures send.Ok? && !send.value.success && !Truthy(send.value.error) ==>
              Post(Ok(Str(s)), send) == Refused(500, "Failed to send email")
    ensures send.Err? ==> Post(Ok(Str(s)), send) == Refused(500, send.message)
  {
    RegexCharacterised(s);
  }
}
