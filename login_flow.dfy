/**
 * Properties of the endpoints used one after another: a challenge as issued
 * can be passed by solving its question in time, the login check leaves the
 * token redeemable, and the check-then-burn endpoint closes it for the login.
 */
module LoginFlow {
  import opened Store
  import ChallengeApi
  import VerifyTokenApi
  import ValidateTokenApi

  /** The login request a person sends after reading an issued question and solving it. */
  function SolvedRequest(phone: string, token: string, challengeId: string, question: string): (req: VerifyTokenApi.Request)
    ensures req.challengeId == Some(challengeId)
  {
    var answer := match ChallengeApi.SolveQuestion(question)
                  case Some(n) => VerifyTokenApi.Integral(n)
                  case None => VerifyTokenApi.NotIntegral;
    VerifyTokenApi.Request(Some(phone), Some(token), Some(challengeId), VerifyTokenApi.Provided(answer))
  }

  /**
   * An issued challenge, answered by solving its question, passes the
   * challenge checks up to and including two minutes after issuance, and is
   * refused as expired from the next millisecond on.
   */
  lemma IssuedChallengePasses(challenges: map<string, ChallengeRow>, configured: bool,
                              ra: real, rb: real, rop: real, issuedAt: int,
                              newId: string, phone: string, token: string, at: int)
    requires ChallengeApi.RandomDraw(ra) && ChallengeApi.RandomDraw(rb) && ChallengeApi.RandomDraw(rop)
    requires phone != "" && token != "" && newId != ""
    requires ChallengeApi.IssueOutcome(challenges, "GET", configured, ra, rb, rop, issuedAt, newId, true).0.status == 200
    ensures var issued := ChallengeApi.IssueOutcome(challenges, "GET", configured, ra, rb, rop, issuedAt, newId, true);
            var req := SolvedRequest(phone, token, newId, issued.0.body.question);
            && VerifyTokenApi.Complete(req)
            && (at <= issuedAt + 120000 <==> VerifyTokenApi.ChallengePasses(issued.1, req, at))
  {
  }

  /** A successful login leaves the token unused: the same phone and token pass the login again with a new challenge. */
  lemma LoginDoesNotBurn(challenges: map<string, ChallengeRow>, tokens: map<string, TokenRow>,
                         req: VerifyTokenApi.Request, now: int, deleteApplied: bool,
                         req2: VerifyTokenApi.Request, challenges2: map<string, ChallengeRow>, now2: int,
                         deleteApplied2: bool)
    requires VerifyTokenApi.Outcome(challenges, tokens, "POST", true, req, now, deleteApplied).0.status == 200
    requires req2.phone == req.phone && req2.token == req.token
    requires VerifyTokenApi.Complete(req2) && VerifyTokenApi.ChallengePasses(challenges2, req2, now2)
    ensures VerifyTokenApi.Outcome(challenges2, tokens, "POST", true, req2, now2, deleteApplied2).0.status == 200
  {
  }

  /**
   * After the check-then-burn endpoint has burned a token, the login check
   * refuses that phone and token even with a correctly answered challenge.
   */
  lemma BurnClosesLogin(tokens: map<string, TokenRow>, phone: string, token: string,
                        now: int, challenges: map<string, ChallengeRow>,
                        req: VerifyTokenApi.Request, now2: int, deleteApplied: bool)
    requires phone != "" && token != ""
    requires ValidateTokenApi.Outcome(tokens, "POST", Some(token), Some(phone), now, true).0.status == 200
    requires req.phone == Some(phone) && req.token == Some(token)
    ensures var burned := ValidateTokenApi.Outcome(tokens, "POST", Some(token), Some(phone), now, true).1;
            VerifyTokenApi.Outcome(challenges, burned, "POST", true, req, now2, deleteApplied).0.status != 200
  {
  }
}
