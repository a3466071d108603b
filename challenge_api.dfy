/**
 * The challenge-issuing endpoint (GET): it draws a one-digit addition or
 * subtraction whose answer is never negative, stores the answer with an
 * expiry two minutes ahead, and hands out only the row id and the question.
 * The three `Math.random()` draws and the clock are parameters.
 */
module ChallengeApi {
  import opened Store

  datatype Op = Plus | Minus

  /** `Math.random()` promises a value in [0, 1). */
  predicate RandomDraw(r: real)
  {
    0.0 <= r < 1.0
  }

  /** `Math.floor(Math.random() * 9) + 1`. */
  function Operand(r: real): (n: int)
    requires RandomDraw(r)
    ensures 1 <= n <= 9
  {
    (r * 9.0).Floor + 1
  }

  /** `ops[Math.floor(Math.random() * ops.length)]` over `['+', '-']`. */
  function PickOp(r: real): (op: Op)
    requires RandomDraw(r)
    ensures op == Plus <==> r < 0.5
  {
    var i := (r * 2.0).Floor;
    assert i == 0 <==> r < 0.5;
    if i == 0 then Plus else Minus
  }

  datatype Question = Question(text: string, answer: int)

  function DigitText(d: int): (s: string)
    requires 0 <= d <= 9
    ensures |s| == 1 && '0' <= s[0] <= '9'
    ensures DigitValue(s[0]) == d
  {
    [('0' as int + d) as char]
  }

  function DigitValue(c: char): int { c as int - '0' as int }

  function Max(a: int, b: int): int { if a < b then b else a }
  function Min(a: int, b: int): int { if a < b then a else b }

  /** `generateQuestion`, with the operands and the operator already drawn. */
  function MakeQuestion(a: int, b: int, op: Op): (q: Question)
    requires 1 <= a <= 9 && 1 <= b <= 9
    ensures op == Plus ==> q.answer == a + b && 2 <= q.answer <= 18
    ensures op == Minus ==> q.answer == Max(a, b) - Min(a, b) && 0 <= q.answer <= 8
    ensures |q.text| == 9 && q.text[1] == ' ' && q.text[3] == ' ' && q.text[5..] == " = ?"
    ensures op == Plus ==> q.text[2] == '+' && DigitValue(q.text[0]) == a && DigitValue(q.text[4]) == b
    ensures op == Minus ==> q.text[2] == '-' && DigitValue(q.text[0]) == Max(a, b) && DigitValue(q.text[4]) == Min(a, b)
  {
    if op == Plus then
      Question(DigitText(a) + " + " + DigitText(b) + " = ?", a + b)
    else
      var x := Max(a, b);
      var y := Min(a, b);
      Question(DigitText(x) + " - " + DigitText(y) + " = ?", x - y)
  }

  /**
   * What a person reading the question computes: the left digit, the
   * operator, the right digit. None for text that is not such a question.
   */
  function SolveQuestion(text: string): (r: Option<int>)
  {
    if |text| == 9 && '0' <= text[0] <= '9' && '0' <= text[4] <= '9' && text[5..] == " = ?"
       && text[1] == ' ' && text[3] == ' ' then
      if text[2] == '+' then Some(DigitValue(text[0]) + DigitValue(text[4]))
      else if text[2] == '-' then Some(DigitValue(text[0]) - DigitValue(text[4]))
      else None
    else None
  }

  /** The question text determines its stored answer: solving it gives exactly that number. */
  lemma SolveMakeQuestion(a: int, b: int, op: Op)
    requires 1 <= a <= 9 && 1 <= b <= 9
    ensures SolveQuestion(MakeQuestion(a, b, op).text) == Some(MakeQuestion(a, b, op).answer)
  {
  }

  /** The row stored for a question issued at `now` (milliseconds). */
  function NewChallenge(q: Question, now: int): (row: ChallengeRow)
    ensures row.answer == q.answer
    ensures row.expiresAt - now == 2 * 60 * 1000
  {
    ChallengeRow(q.answer, now + 2 * 60 * 1000)
  }

  /** The question the three draws produce. */
  function Drawn(ra: real, rb: real, rop: real): (q: Question)
    requires RandomDraw(ra) && RandomDraw(rb) && RandomDraw(rop)
    ensures 0 <= q.answer <= 18
    ensures SolveQuestion(q.text) == Some(q.answer)
  {
    SolveMakeQuestion(Operand(ra), Operand(rb), PickOp(rop));
    MakeQuestion(Operand(ra), Operand(rb), PickOp(rop))
  }

  /**
   * The handler's response and the new `human_challenges` table.
   * `newId` is the id the store assigns to the new row; `insertApplied` is
   * whether the store accepts the insert. A row whose id is taken is refused
   * as a primary-key conflict.
   */
  function IssueOutcome(challenges: map<string, ChallengeRow>, httpMethod: string, configured: bool,
                        ra: real, rb: real, rop: real, now: int, newId: string, insertApplied: bool)
    : (o: (Response, map<string, ChallengeRow>))
    requires RandomDraw(ra) && RandomDraw(rb) && RandomDraw(rop)
    ensures httpMethod != "GET" ==> o == (Fail(405, "Method not allowed"), challenges)
    ensures httpMethod == "GET" && !configured ==> o == (Fail(500, "Server not configured"), challenges)
    ensures httpMethod == "GET" && configured && (!insertApplied || newId in challenges) ==>
              o == (Fail(500, "Gagal membuat challenge"), challenges)
    ensures o.0.status == 200 <==> httpMethod == "GET" && configured && insertApplied && newId !in challenges
    ensures o.0.status != 200 ==> o.1 == challenges && o.0.body.ErrorBody?
    ensures o.0.status == 200 ==>
              && o.0.body == ChallengeBody(newId, Drawn(ra, rb, rop).text)
              && o.1 == challenges[newId := ChallengeRow(Drawn(ra, rb, rop).answer, now + 120000)]
              && SolveQuestion(o.0.body.question) == Some(o.1[newId].answer)
  {
    if httpMethod != "GET" then (Fail(405, "Method not allowed"), challenges)
    else if !configured then (Fail(500, "Server not configured"), challenges)
    else
      var q := Drawn(ra, rb, rop);
      if !insertApplied || newId in challenges then (Fail(500, "Gagal membuat challenge"), challenges)
      else (Response(200, ChallengeBody(newId, q.text)), challenges[newId := NewChallenge(q, now)])
  }

  /** The endpoint over the shared store. */
  method Handler(db: Database, httpMethod: string, configured: bool,
                 ra: real, rb: real, rop: real, now: int, newId: string, insertApplied: bool)
    returns (resp: Response)
    requires RandomDraw(ra) && RandomDraw(rb) && RandomDraw(rop)
    modifies db`challenges
    ensures (resp, db.challenges) ==
            IssueOutcome(old(db.challenges), httpMethod, configured, ra, rb, rop, now, newId, insertApplied)
  {
    if httpMethod != "GET" {
      return Fail(405, "Method not allowed");
    }
    if !configured {
      return Fail(500, "Server not configured");
    }
    var a := Operand(ra);
    var b := Operand(rb);
    var op := PickOp(rop);
    var question := MakeQuestion(a, b, op);
    if !insertApplied || newId in db.challenges {
      return Fail(500, "Gagal membuat challenge");
    }
    db.challenges := db.challenges[newId := NewChallenge(question, now)];
    resp := Response(200, ChallengeBody(newId, question.text));
  }
}
