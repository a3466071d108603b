/**
 * The login endpoint (POST): it checks the human challenge and then looks for
 * an unused token matching phone and token. A challenge is deleted only once
 * it has been answered correctly in time; the token is only looked at, never
 * written.
 */
module VerifyTokenApi {
  import opened Store

  /** The value `Number(answer)` gives: an integer, or NaN / a fraction, which equals no stored answer. */
  datatype NumberValue = Integral(n: int) | NotIntegral

  /** The body's `answer` field: absent (`undefined`), or present with its numeric conversion. */
  datatype AnswerField = Undefined | Provided(number: NumberValue)

  datatype Request = Request(
    phone: Option<string>,
    token: Option<string>,
    challengeId: Option<string>,
    answer: AnswerField)

  /** `!phone || !token || !challengeId || answer === undefined` fails. */
  predicate Complete(req: Request)
  {
    Truthy(req.phone) && Truthy(req.token) && Truthy(req.challengeId) && req.answer.Provided?
  }

  /** `Number(answer) === challenge.answer`. */
  predicate AnswerMatches(answer: AnswerField, expected: int)
  {
    answer.Provided? && answer.number == Integral(expected)
  }

  /** The challenge passes: it exists, has not expired at `now`, and the answer is right. */
  predicate ChallengePasses(challenges: map<string, ChallengeRow>, req: Request, now: int)
    requires Complete(req)
  {
    var id := req.challengeId.value;
    id in challenges && !(challenges[id].expiresAt < now) && AnswerMatches(req.answer, challenges[id].answer)
  }

  /**
   * The response and the new `human_challenges` table. `deleteApplied` is
   * whether the store carries out the delete, whose result the handler ignores.
   */
  function Outcome(challenges: map<string, ChallengeRow>, tokens: map<string, TokenRow>,
                   httpMethod: string, configured: bool, req: Request, now: int, deleteApplied: bool)
    : (o: (Response, map<string, ChallengeRow>))
    ensures httpMethod != "POST" ==> o == (Fail(405, "Method not allowed"), challenges)
    ensures httpMethod == "POST" && !configured ==> o == (Fail(500, "Server not configured"), challenges)
    ensures httpMethod == "POST" && configured && !Complete(req) ==>
              o == (Fail(400, "Data verifikasi tidak lengkap"), challenges)
    ensures httpMethod == "POST" && configured && Complete(req) && req.challengeId.value in challenges
            && challenges[req.challengeId.value].expiresAt < now ==>
              o == (Fail(400, "Soal verifikasi sudah kedaluwarsa"), challenges)
    ensures httpMethod == "POST" && configured && Complete(req) && ChallengePasses(challenges, req, now)
            && |UnusedTokenMatches(tokens, req.phone.value, req.token.value)| != 1 ==>
              o.0 == Fail(400, "Token tidak valid atau sudah digunakan")
    ensures o.0.status == 200 <==>
              && httpMethod == "POST" && configured && Complete(req)
              && ChallengePasses(challenges, req, now)
              && |UnusedTokenMatches(tokens, req.phone.value, req.token.value)| == 1
    ensures o.0.status == 200 ==> o.0.body == SuccessBody
    ensures o.0.status != 200 ==> o.0.body.ErrorBody?
    ensures o.1 == challenges ||
              (Complete(req) && ChallengePasses(challenges, req, now) && deleteApplied
               && o.1 == challenges - {req.challengeId.value})
  {
    if httpMethod != "POST" then (Fail(405, "Method not allowed"), challenges)
    else if !configured then (Fail(500, "Server not configured"), challenges)
    else if !Complete(req) then (Fail(400, "Data verifikasi tidak lengkap"), challenges)
    else
      var id := req.challengeId.value;
      if id !in challenges then (Fail(400, "Soal verifikasi tidak valid"), challenges)
      else if challenges[id].expiresAt < now then (Fail(400, "Soal verifikasi sudah kedaluwarsa"), challenges)
      else if !AnswerMatches(req.answer, challenges[id].answer) then (Fail(400, "Jawaban verifikasi salah"), challenges)
      else
        var after := if deleteApplied then challenges - {id} else challenges;
        if UniqueKey(UnusedTokenMatches(tokens, req.phone.value, req.token.value)).None? then
          (Fail(400, "Token tidak valid atau sudah digunakan"), after)
        else
          (Response(200, SuccessBody), after)
  }

  /** The endpoint over the shared store: it may delete a challenge and never writes `tokens`. */
  method Handler(db: Database, httpMethod: string, configured: bool, req: Request, now: int, deleteApplied: bool)
    returns (resp: Response)
    modifies db`challenges
    ensures db.tokens == old(db.tokens)
    ensures (resp, db.challenges) ==
            Outcome(old(db.challenges), db.tokens, httpMethod, configured, req, now, deleteApplied)
  {
    if httpMethod != "POST" {
      return Fail(405, "Method not allowed");
    }
    if !configured {
      return Fail(500, "Server not configured");
    }
    if !Truthy(req.phone) || !Truthy(req.token) || !Truthy(req.challengeId) || req.answer.Undefined? {
      return Fail(400, "Data verifikasi tidak lengkap");
    }
    var challengeId := req.challengeId.value;
    if challengeId !in db.challenges {
      return Fail(400, "Soal verifikasi tidak valid");
    }
    var challenge := db.challenges[challengeId];
    if challenge.expiresAt < now {
      return Fail(400, "Soal verifikasi sudah kedaluwarsa");
    }
    if req.answer.number != Integral(challenge.answer) {
      return Fail(400, "Jawaban verifikasi salah");
    }
    if deleteApplied {
      db.challenges := db.challenges - {challengeId};
    }
    var tokenRow := UniqueKey(UnusedTokenMatches(db.tokens, req.phone.value, req.token.value));
    if tokenRow.None? {
      return Fail(400, "Token tidak valid atau sudah digunakan");
    }
    resp := Response(200, SuccessBody);
  }

  /**
   * Only an integral answer equal to the stored one matches: NaN and fractions
   * equal no stored answer, and an absent answer matches nothing.
   */
  lemma AnswerMatchesExactly(n: int, expected: int)
    ensures AnswerMatches(Provided(Integral(n)), expected) <==> n == expected
    ensures !AnswerMatches(Provided(NotIntegral), expected)
    ensures !AnswerMatches(Undefined, expected)
  {
  }

  /**
   * For complete input the challenge passes exactly when the endpoint answers
   * with none of the three challenge errors.
   */
  lemma ChallengeChecks(challenges: map<string, ChallengeRow>, tokens: map<string, TokenRow>,
                        req: Request, now: int, deleteApplied: bool)
    requires Complete(req)
    ensures var body := Outcome(challenges, tokens, "POST", true, req, now, deleteApplied).0.body;
            ChallengePasses(challenges, req, now) <==>
              && body != ErrorBody("Soal verifikasi tidak valid")
              && body != ErrorBody("Soal verifikasi sudah kedaluwarsa")
              && body != ErrorBody("Jawaban verifikasi salah")
  {
  }

  /** An answer of 0 counts as given; only an `undefined` answer or an empty field makes the input incomplete. */
  lemma ZeroAnswerIsPresent(phone: string, token: string, challengeId: string)
    requires phone != "" && token != "" && challengeId != ""
    ensures Complete(Request(Some(phone), Some(token), Some(challengeId), Provided(Integral(0))))
    ensures !Complete(Request(Some(phone), Some(token), Some(challengeId), Undefined))
    ensures !Complete(Request(Some(phone), Some(""), Some(challengeId), Provided(Integral(0))))
  {
  }

  /** A request naming no stored challenge is refused and leaves both tables as they were. */
  lemma UnknownChallenge(challenges: map<string, ChallengeRow>, tokens: map<string, TokenRow>,
                         req: Request, now: int, deleteApplied: bool)
    requires Complete(req) && req.challengeId.value !in challenges
    ensures Outcome(challenges, tokens, "POST", true, req, now, deleteApplied)
            == (Fail(400, "Soal verifikasi tidak valid"), challenges)
  {
  }

  /** Expiry is strict: whatever the answer, a challenge is not expired at the very millisecond it expires, and is one after. */
  lemma ExpiryBoundary(challenges: map<string, ChallengeRow>, tokens: map<string, TokenRow>,
                       req: Request, deleteApplied: bool)
    requires Complete(req) && req.challengeId.value in challenges
    ensures var t := challenges[req.challengeId.value].expiresAt;
            && Outcome(challenges, tokens, "POST", true, req, t, deleteApplied).0.body
               != ErrorBody("Soal verifikasi sudah kedaluwarsa")
            && Outcome(challenges, tokens, "POST", true, req, t + 1, deleteApplied)
               == (Fail(400, "Soal verifikasi sudah kedaluwarsa"), challenges)
  {
  }

  /** A wrong answer is refused and the challenge stays, so it can be answered again. */
  lemma WrongAnswerKeepsChallenge(challenges: map<string, ChallengeRow>, tokens: map<string, TokenRow>,
                                  req: Request, now: int, deleteApplied: bool)
    requires Complete(req) && req.challengeId.value in challenges
    requires !(challenges[req.challengeId.value].expiresAt < now)
    requires !AnswerMatches(req.answer, challenges[req.challengeId.value].answer)
    ensures Outcome(challenges, tokens, "POST", true, req, now, deleteApplied)
            == (Fail(400, "Jawaban verifikasi salah"), challenges)
  {
  }

  /**
   * When the store carries out the delete, a correctly answered challenge is
   * gone afterwards, whatever became of the token check: a second request with
   * the same challenge id is refused as an unknown challenge.
   */
  lemma ChallengeSingleUse(challenges: map<string, ChallengeRow>, tokens: map<string, TokenRow>,
                           req: Request, now: int, req2: Request, now2: int, deleteApplied2: bool)
    requires Complete(req) && ChallengePasses(challenges, req, now)
    requires Complete(req2) && req2.challengeId == req.challengeId
    ensures var after := Outcome(challenges, tokens, "POST", true, req, now, true).1;
            Outcome(after, tokens, "POST", true, req2, now2, deleteApplied2)
            == (Fail(400, "Soal verifikasi tidak valid"), after)
  {
  }

  /**
   * The delete's result is not looked at: when the store drops it, the
   * correctly answered challenge stays and the same request passes the
   * challenge checks again.
   */
  lemma LostDeleteAllowsRetry(challenges: map<string, ChallengeRow>, tokens: map<string, TokenRow>,
                              req: Request, now: int)
    requires Complete(req) && ChallengePasses(challenges, req, now)
    ensures var after := Outcome(challenges, tokens, "POST", true, req, now, false).1;
            after == challenges && ChallengePasses(after, req, now)
  {
  }
}
