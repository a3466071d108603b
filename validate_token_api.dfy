/**
 * The check-then-burn endpoint (POST): it selects the one unused token row
 * matching token and phone, then marks that row used. The update's result is
 * not looked at, so the response is `{ ok: true }` whether or not the store
 * carried it out.
 */
module ValidateTokenApi {
  import opened Store

  /**
   * The response and the new `tokens` table for a request at time `now`.
   * `updateApplied` is whether the store carries out the update.
   */
  function Outcome(tokens: map<string, TokenRow>, httpMethod: string, token: Option<string>,
                   phone: Option<string>, now: int, updateApplied: bool)
    : (o: (Response, map<string, TokenRow>))
    ensures httpMethod != "POST" ==> o == (Fail(405, "Method not allowed"), tokens)
    ensures httpMethod == "POST" && (!Truthy(token) || !Truthy(phone)) ==>
              o == (Fail(400, "token and phone required"), tokens)
    ensures httpMethod == "POST" && Truthy(token) && Truthy(phone)
            && |UnusedTokenMatches(tokens, phone.value, token.value)| != 1 ==>
              o == (Fail(401, "invalid or used token"), tokens)
    ensures o.0.status == 200 <==>
              httpMethod == "POST" && Truthy(token) && Truthy(phone)
              && |UnusedTokenMatches(tokens, phone.value, token.value)| == 1
    ensures o.0.status == 200 ==> o.0.body == OkBody
    ensures o.0.status != 200 ==> o.1 == tokens && o.0.body.ErrorBody?
    ensures o.0.status == 200 && updateApplied ==>
              var id := UniqueKey(UnusedTokenMatches(tokens, phone.value, token.value)).value;
              o.1 == tokens[id := Burned(tokens[id], now)]
    ensures TokensEvolve(tokens, o.1)
  {
    if httpMethod != "POST" then (Fail(405, "Method not allowed"), tokens)
    else if !Truthy(token) || !Truthy(phone) then (Fail(400, "token and phone required"), tokens)
    else
      match UniqueKey(UnusedTokenMatches(tokens, phone.value, token.value))
      case None => (Fail(401, "invalid or used token"), tokens)
      case Some(id) =>
        var after := if updateApplied then tokens[id := Burned(tokens[id], now)] else tokens;
        (Response(200, OkBody), after)
  }

  method Handler(db: Database, httpMethod: string, token: Option<string>, phone: Option<string>,
                 now: int, updateApplied: bool)
    returns (resp: Response)
    modifies db`tokens
    ensures db.challenges == old(db.challenges)
    ensures (resp, db.tokens) == Outcome(old(db.tokens), httpMethod, token, phone, now, updateApplied)
  {
    if httpMethod != "POST" {
      return Fail(405, "Method not allowed");
    }
    if !Truthy(token) || !Truthy(phone) {
      return Fail(400, "token and phone required");
    }
    var data := UniqueKey(UnusedTokenMatches(db.tokens, phone.value, token.value));
    if data.None? {
      return Fail(401, "invalid or used token");
    }
    var id := data.value;
    if updateApplied {
      db.tokens := db.tokens[id := Burned(db.tokens[id], now)];
    }
    resp := Response(200, OkBody);
  }

  /** Run one after the other, the second of two identical requests is refused once the first burned the token. */
  lemma SecondRequestRefused(tokens: map<string, TokenRow>, token: string, phone: string,
                             now: int, now2: int, updateApplied2: bool)
    requires token != "" && phone != ""
    ensures var first := Outcome(tokens, "POST", Some(token), Some(phone), now, true);
            Outcome(first.1, "POST", Some(token), Some(phone), now2, updateApplied2)
            == (Fail(401, "invalid or used token"), first.1)
  {
  }

  /** When the store drops the update, the token is still unused and the same request succeeds again. */
  lemma LostUpdateAllowsReuse(tokens: map<string, TokenRow>, token: string, phone: string,
                              now: int, now2: int)
    requires token != "" && phone != ""
    requires |UnusedTokenMatches(tokens, phone, token)| == 1
    ensures var first := Outcome(tokens, "POST", Some(token), Some(phone), now, false);
            && first == (Response(200, OkBody), tokens)
            && Outcome(first.1, "POST", Some(token), Some(phone), now2, true).0 == Response(200, OkBody)
  {
  }
}
