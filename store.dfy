/**
 * The backing store shared by the endpoints: two tables held as maps from a
 * row id to its record, the rows' shapes, the HTTP response shape, and the
 * "exactly one matching row" lookup that `.single()` performs.
 */
module Store {

  datatype Option<+T> = None | Some(value: T)

  /** A row of `human_challenges`: the expected answer and the expiry instant in milliseconds. */
  datatype ChallengeRow = ChallengeRow(answer: int, expiresAt: int)

  /**
   * A row of `tokens`. The login endpoints look the secret up in column `token`,
   * the token service in column `code`; both columns are kept.
   * `deviceId` is None for a null column.
   */
  datatype TokenRow = TokenRow(
    phone: string,
    token: string,
    code: string,
    used: bool,
    usedAt: Option<int>,
    deviceId: Option<string>)

  /** JavaScript truthiness of an optional string field of a request body. */
  predicate Truthy(field: Option<string>)
  {
    field.Some? && field.value != ""
  }

  /** A token is bound when its `device_id` column is truthy. */
  predicate Bound(row: TokenRow)
  {
    Truthy(row.deviceId)
  }

  /** The row after a store update of `used = true, used_at = now`. */
  function Burned(row: TokenRow, now: int): (r: TokenRow)
    ensures r.used && r.usedAt == Some(now)
    ensures r.phone == row.phone && r.token == row.token && r.code == row.code
    ensures r.deviceId == row.deviceId
  {
    row.(used := true, usedAt := Some(now))
  }

  datatype Body =
    | ErrorBody(error: string)
    | SuccessBody                                   // { success: true }
    | OkBody                                        // { ok: true }
    | ChallengeBody(challengeId: string, question: string)

  datatype Response = Response(status: int, body: Body)

  function Fail(status: int, message: string): Response
  {
    Response(status, ErrorBody(message))
  }

  /** Ids of the rows that are unused and whose `token` and `phone` columns equal the given ones. */
  function UnusedTokenMatches(tokens: map<string, TokenRow>, phone: string, token: string): (ids: set<string>)
    ensures ids <= tokens.Keys
    ensures forall id :: id in ids <==>
              id in tokens && tokens[id].phone == phone && tokens[id].token == token && !tokens[id].used
  {
    set id | id in tokens && tokens[id].phone == phone && tokens[id].token == token && !tokens[id].used
  }

  /** Ids of the rows whose `phone` and `code` columns equal the given ones, used or not. */
  function CodeMatches(tokens: map<string, TokenRow>, phone: string, code: string): (ids: set<string>)
    ensures ids <= tokens.Keys
    ensures forall id :: id in ids <==> id in tokens && tokens[id].phone == phone && tokens[id].code == code
  {
    set id | id in tokens && tokens[id].phone == phone && tokens[id].code == code
  }

  /** A set of one element has no two different members. */
  lemma SingletonMembers<T>(s: set<T>, x: T, y: T)
    requires |s| == 1 && x in s && y in s
    ensures x == y
  {
    var rest := s - {x};
    assert |rest| == 0;
    assert y !in rest;
  }

  /**
   * What `.single()` yields: the id of the one matching row, or None (an error)
   * when no row or more than one row matches.
   */
  function UniqueKey(ids: set<string>): (r: Option<string>)
    ensures r.Some? <==> |ids| == 1
    ensures r.Some? ==> ids == {r.value}
  {
    if |ids| == 1 then
      var x :| x in ids;
      assert forall y | y in ids :: y == x by {
        forall y | y in ids ensures y == x { SingletonMembers(ids, x, y); }
      }
      Some(x)
    else
      None
  }

  /**
   * How a token row may change between two states of the store while the
   * endpoints run: it is never deleted, its phone and secrets stay, a used
   * token stays used, and a bound device stays bound to the same id.
   */
  predicate RowEvolves(before: TokenRow, after: TokenRow)
  {
    && after.phone == before.phone
    && after.token == before.token
    && after.code == before.code
    && (before.used ==> after.used)
    && (Bound(before) ==> after.deviceId == before.deviceId)
  }

  predicate TokensEvolve(before: map<string, TokenRow>, after: map<string, TokenRow>)
  {
    && before.Keys == after.Keys
    && forall id :: id in before ==> RowEvolves(before[id], after[id])
  }

  /**
   * Ids, secrets and phones never change as the table evolves, so a phone and
   * code keep matching the same rows; and a row never becomes unused again, so
   * the unused rows matching a phone and token can only shrink.
   */
  lemma EvolveKeepsMatches(before: map<string, TokenRow>, after: map<string, TokenRow>,
                           phone: string, secret: string)
    requires TokensEvolve(before, after)
    ensures CodeMatches(after, phone, secret) == CodeMatches(before, phone, secret)
    ensures UnusedTokenMatches(after, phone, secret) <= UnusedTokenMatches(before, phone, secret)
  {
  }

  /**
   * Burning a row is an allowed evolution of the table, and it removes exactly
   * that row from the unused rows matching any phone and token.
   */
  lemma BurnRemovesMatch(tokens: map<string, TokenRow>, id: string, now: int, phone: string, token: string)
    requires id in tokens
    ensures TokensEvolve(tokens, tokens[id := Burned(tokens[id], now)])
    ensures UnusedTokenMatches(tokens[id := Burned(tokens[id], now)], phone, token)
            == UnusedTokenMatches(tokens, phone, token) - {id}
  {
  }

  /** The two tables; the endpoints and the token service read and write them in place. */
  class Database {
    var challenges: map<string, ChallengeRow>
    var tokens: map<string, TokenRow>

    constructor (challenges: map<string, ChallengeRow>, tokens: map<string, TokenRow>)
      ensures this.challenges == challenges && this.tokens == tokens
    {
      this.challenges := challenges;
      this.tokens := tokens;
    }
  }
}
