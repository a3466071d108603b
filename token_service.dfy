/**
 * The client-side token service: `verifyToken` finds the token by phone and
 * code, refuses a used one, and binds it to the first device that presents it;
 * `burnToken` marks a token used. `verifyToken` never burns.
 */
module TokenService {
  import opened Store

  datatype VerifyResult = Failure(message: string) | Success(tokenId: string)

  /**
   * `verifyToken(phone, code, deviceId)`: the result and the new `tokens`
   * table. `updateApplied` is whether the store accepts the device update.
   */
  function VerifyOutcome(tokens: map<string, TokenRow>, phone: string, code: string, deviceId: string,
                         updateApplied: bool)
    : (o: (VerifyResult, map<string, TokenRow>))
    ensures UniqueKey(CodeMatches(tokens, phone, code)).None? ==> o == (Failure("Token tidak valid"), tokens)
    ensures |CodeMatches(tokens, phone, code)| == 1 && tokens[UniqueKey(CodeMatches(tokens, phone, code)).value].used ==>
              o == (Failure("Token sudah digunakan"), tokens)
    ensures |CodeMatches(tokens, phone, code)| == 1 ==>
              var row := tokens[UniqueKey(CodeMatches(tokens, phone, code)).value];
              !row.used && !Bound(row) && !updateApplied ==> o == (Failure("Gagal memverifikasi perangkat"), tokens)
    ensures o.0.Success? <==>
              && |CodeMatches(tokens, phone, code)| == 1
              && var id := UniqueKey(CodeMatches(tokens, phone, code)).value;
                 && !tokens[id].used
                 && (if Bound(tokens[id]) then tokens[id].deviceId == Some(deviceId) else updateApplied)
    ensures o.0.Success? ==> CodeMatches(tokens, phone, code) == {o.0.tokenId}
    ensures o.0.Success? && !Bound(tokens[o.0.tokenId]) ==>
              o.1 == tokens[o.0.tokenId := tokens[o.0.tokenId].(deviceId := Some(deviceId))]
    ensures TokensEvolve(tokens, o.1)
    ensures forall id :: id in tokens ==> o.1[id].used == tokens[id].used && o.1[id].usedAt == tokens[id].usedAt
    ensures o.1 == tokens ||
              (&& o.0.Success? && !Bound(tokens[o.0.tokenId])
               && o.1 == tokens[o.0.tokenId := tokens[o.0.tokenId].(deviceId := Some(deviceId))])
  {
    match UniqueKey(CodeMatches(tokens, phone, code))
    case None => (Failure("Token tidak valid"), tokens)
    case Some(id) =>
      var row := tokens[id];
      if row.used then (Failure("Token sudah digunakan"), tokens)
      else if !Bound(row) then
        if !updateApplied then (Failure("Gagal memverifikasi perangkat"), tokens)
        else (Success(id), tokens[id := row.(deviceId := Some(deviceId))])
      else if row.deviceId != Some(deviceId) then
        (Failure("Token hanya dapat digunakan pada satu perangkat"), tokens)
      else (Success(id), tokens)
  }

  /** What `burnToken` leaves: a normal return, or the thrown error. */
  datatype BurnResult = Locked | Thrown(message: string)

  /**
   * `burnToken(tokenId)` at time `now`: `used = true, used_at = now` on that
   * row only. An id naming no row updates nothing and is no error.
   */
  function BurnOutcome(tokens: map<string, TokenRow>, tokenId: string, now: int, updateApplied: bool)
    : (o: (BurnResult, map<string, TokenRow>))
    ensures o.0.Thrown? <==> !updateApplied
    ensures !updateApplied ==> o == (Thrown("Gagal mengunci token"), tokens)
    ensures TokensEvolve(tokens, o.1)
    ensures updateApplied && tokenId in tokens ==>
              o.1[tokenId].used && o.1[tokenId].usedAt == Some(now)
              && o.1[tokenId].deviceId == tokens[tokenId].deviceId
    ensures forall id :: id in tokens && id != tokenId ==> o.1[id] == tokens[id]
  {
    if !updateApplied then (Thrown("Gagal mengunci token"), tokens)
    else if tokenId in tokens then (Locked, tokens[tokenId := Burned(tokens[tokenId], now)])
    else (Locked, tokens)
  }

  method VerifyToken(db: Database, phone: string, code: string, deviceId: string, updateApplied: bool)
    returns (result: VerifyResult)
    modifies db`tokens
    ensures db.challenges == old(db.challenges)
    ensures (result, db.tokens) == VerifyOutcome(old(db.tokens), phone, code, deviceId, updateApplied)
  {
    var found := UniqueKey(CodeMatches(db.tokens, phone, code));
    if found.None? {
      return Failure("Token tidak valid");
    }
    var id := found.value;
    var data := db.tokens[id];
    if data.used {
      return Failure("Token sudah digunakan");
    }
    if !Truthy(data.deviceId) {
      if !updateApplied {
        return Failure("Gagal memverifikasi perangkat");
      }
      db.tokens := db.tokens[id := data.(deviceId := Some(deviceId))];
    } else if data.deviceId.value != deviceId {
      return Failure("Token hanya dapat digunakan pada satu perangkat");
    }
    result := Success(id);
  }

  method BurnToken(db: Database, tokenId: string, now: int, updateApplied: bool)
    returns (result: BurnResult)
    modifies db`tokens
    ensures db.challenges == old(db.challenges)
    ensures (result, db.tokens) == BurnOutcome(old(db.tokens), tokenId, now, updateApplied)
  {
    if !updateApplied {
      return Thrown("Gagal mengunci token");
    }
    if tokenId in db.tokens {
      db.tokens := db.tokens[tokenId := Burned(db.tokens[tokenId], now)];
    }
    result := Locked;
  }

  /** A token that is already bound accepts its own device again without any write, and refuses every other. */
  lemma BoundDevice(tokens: map<string, TokenRow>, phone: string, code: string, deviceId: string,
                    updateApplied: bool)
    requires |CodeMatches(tokens, phone, code)| == 1
    requires var id := UniqueKey(CodeMatches(tokens, phone, code)).value;
             !tokens[id].used && Bound(tokens[id])
    ensures var id := UniqueKey(CodeMatches(tokens, phone, code)).value;
            var o := VerifyOutcome(tokens, phone, code, deviceId, updateApplied);
            && o.1 == tokens
            && (o.0 == Success(id) <==> tokens[id].deviceId == Some(deviceId))
            && (tokens[id].deviceId != Some(deviceId) ==>
                  o.0 == Failure("Token hanya dapat digunakan pada satu perangkat"))
  {
  }

  /** Once burned, a token fails every later verification, from any device. */
  lemma BurnedTokenNeverVerifies(tokens: map<string, TokenRow>, tokenId: string, now: int,
                                 deviceId: string, updateApplied: bool)
    requires tokenId in tokens
    ensures var after := BurnOutcome(tokens, tokenId, now, true).1;
            var row := tokens[tokenId];
            VerifyOutcome(after, row.phone, row.code, deviceId, updateApplied).0.Failure?
  {
  }

  /**
   * The first device to verify an unbound, unused token is the one it stays
   * bound to: a second device is refused afterwards.
   */
  lemma FirstDeviceWins(tokens: map<string, TokenRow>, phone: string, code: string,
                        first: string, second: string, updateApplied: bool)
    requires |CodeMatches(tokens, phone, code)| == 1
    requires var id := UniqueKey(CodeMatches(tokens, phone, code)).value;
             !tokens[id].used && !Bound(tokens[id])
    requires first != "" && second != first
    ensures var after := VerifyOutcome(tokens, phone, code, first, true);
            && after.0.Success?
            && VerifyOutcome(after.1, phone, code, second, updateApplied).0
               == Failure("Token hanya dapat digunakan pada satu perangkat")
  {
    var id := UniqueKey(CodeMatches(tokens, phone, code)).value;
    var after := VerifyOutcome(tokens, phone, code, first, true).1;
    assert after == tokens[id := tokens[id].(deviceId := Some(first))];
    assert CodeMatches(after, phone, code) == CodeMatches(tokens, phone, code);
  }

  /**
   * An empty device id is falsy: the service stores it and succeeds, but the
   * token stays unbound, so the next device, whichever it is, binds it.
   */
  lemma EmptyDeviceLeavesUnbound(tokens: map<string, TokenRow>, phone: string, code: string, other: string)
    requires |CodeMatches(tokens, phone, code)| == 1
    requires var id := UniqueKey(CodeMatches(tokens, phone, code)).value;
             !tokens[id].used && !Bound(tokens[id])
    ensures var id := UniqueKey(CodeMatches(tokens, phone, code)).value;
            var first := VerifyOutcome(tokens, phone, code, "", true);
            && first.0 == Success(id)
            && !Bound(first.1[id])
            && VerifyOutcome(first.1, phone, code, other, true).0 == Success(id)
  {
    var first := VerifyOutcome(tokens, phone, code, "", true);
    EvolveKeepsMatches(tokens, first.1, phone, code);
  }
}
