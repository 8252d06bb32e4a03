/**
 * The gateway between the bot and the grade service: `printDetalle`, the
 * `/consultar` decisions (status propagation, first-round short-circuit,
 * remedial rule, extra credit, tier) and the message they assemble, and
 * `/final`. The grade service's answers are parameters; only which message
 * is chosen and which values it carries are modelled, not its wording.
 */
module ApiGateway {
  import opened Wrappers
  import opened JsText
  import opened NotionService

  /**
   * A value as the message shows it: `Fixed(v)` stands for the text
   * `v.toFixed(2)` and carries `v` before that formatting; `Zero` is the
   * literal 0 for null or undefined.
   */
  datatype Shown = Fixed(value: real) | Zero

  function Show(v: Option<real>): Shown
  {
    if v.Some? then Fixed(v.value) else Zero
  }

  /** `data[key]` on a JSON object: undefined when the key is absent. */
  function Get(data: map<string, Option<real>>, key: string): Option<real>
  {
    if key in data then data[key] else None
  }

  datatype Section = WeeklySection | HomeworkSection | MidtermSection | ProblemSection

  /** The emoji that heads the final grade. */
  datatype Badge = Star | ThumbsUp | Grimace | LyingFace

  /** The pieces of the `/consultar` message, in the order they are appended. */
  datatype Part =
    | Intro(account: string)
    | SectionAverage(section: Section, shown: Shown)
    | Item(key: string, shown: Shown)
    | PracticalPending
    | PracticalGrade(value: real)  // shown as `value.toFixed(2)`, like `Fixed`
    | RemedialNotice
    // The extras and the average are rounded once by the code itself, into
    // strings that also enter the final sum; these carry that rounded value.
    | ExtraCredit(extra1: real, extra2: real)
    | CourseAverage(value: real)
    | FinalGrade(badge: Badge, score: real)
    | FirstRoundFinal(score: real)

  /** The lines "ev 1".."ev n" of a detail object, each with its value or 0. */
  function Items(ev: string, data: map<string, Option<real>>, n: nat): seq<Part>
  {
    seq(n, i requires 0 <= i < n => Item(Label(ev, i + 1), Show(Get(data, Label(ev, i + 1)))))
  }

  /** `printDetalle(evaluacion, data, n)`: one line per item 1..n, in increasing order. */
  method PrintDetalle(ev: string, data: map<string, Option<real>>, n: nat) returns (parts: seq<Part>)
    ensures |parts| == n
    ensures forall k | 0 <= k < n ::
      parts[k] == Item(Label(ev, k + 1), Show(Get(data, Label(ev, k + 1))))
    ensures forall k | 0 <= k < n :: Get(data, Label(ev, k + 1)).None? ==> parts[k].shown == Zero
  {
    parts := [];
    for i := 1 to n + 1
      invariant |parts| == i - 1
      invariant forall k | 0 <= k < i - 1 ::
        parts[k] == Item(Label(ev, k + 1), Show(Get(data, Label(ev, k + 1))))
    {
      var key := Label(ev, i);
      var valor := Get(data, key);
      parts := parts + [Item(key, Show(valor))];
    }
  }

  /** The labels `printDetalle` emits are pairwise distinct. */
  lemma ItemLabelsDistinct(ev: string, data: map<string, Option<real>>, n: nat, j: nat, k: nat)
    requires j < k < n
    ensures Items(ev, data, n)[j].key != Items(ev, data, n)[k].key
  {
    if Label(ev, j + 1) == Label(ev, k + 1) {
      LabelInjective(ev, j + 1, k + 1);
    }
  }

  /** `r` is a whole number of cents. */
  predicate IsCents(r: real)
  {
    (r * 100.0).Floor as real == r * 100.0
  }

  /** Rounding to cents, halves up. */
  function HalfUp(y: real): (r: real)
    ensures -0.005 < r - y <= 0.005
    ensures IsCents(r)
  {
    var f := (y * 100.0 + 0.5).Floor;
    assert (f as real / 100.0) * 100.0 == f as real;
    f as real / 100.0
  }

  /** The opposite of a number of cents is a number of cents. */
  lemma CentsNegate(r: real)
    requires IsCents(r)
    ensures IsCents(-r)
  {
    var k := (r * 100.0).Floor;
    assert -r * 100.0 == (-k) as real;
  }

  /** `x.toFixed(2)` read back as a number: `x` rounded to cents, halves away from zero. */
  function Round2(x: real): (r: real)
    ensures -0.005 <= r - x <= 0.005
    ensures IsCents(r)
  {
    if x < 0.0 then
      CentsNegate(HalfUp(-x));
      -HalfUp(-x)
    else HalfUp(x)
  }

  /** Rounding a number that is already in cents changes nothing. */
  lemma Round2OfCents(x: real)
    requires IsCents(x)
    ensures Round2(x) == x
  {
    var k := (x * 100.0).Floor;
    if x < 0.0 {
      assert (-x * 100.0 + 0.5).Floor == -k;
    } else {
      assert (x * 100.0 + 0.5).Floor == k;
    }
  }

  /** Sums of cents are cents. */
  lemma CentsSum(a: real, b: real)
    requires IsCents(a) && IsCents(b)
    ensures IsCents(a + b)
  {
    var i, j := (a * 100.0).Floor, (b * 100.0).Floor;
    assert (a + b) * 100.0 == (i + j) as real;
  }

  /** An extra-credit amount: `((v != null ? v.toFixed(2) : 0) / 1).toFixed(2)` as a number. */
  function Extra(v: Option<real>): (e: real)
    ensures IsCents(e)
    ensures v.None? ==> e == 0.0
    ensures v.Some? ==> -0.005 <= e - v.value <= 0.005
  {
    var c := if v.Some? then Round2(v.value) else 0.0;
    Round2OfCents(c);
    Round2(c)
  }

  /** The final score: rounded average plus both extra-credit amounts, rounded again. */
  function FinalScore(promedio: Option<real>, extra1: real, extra2: real): (f: real)
    ensures IsCents(f)
    ensures IsCents(extra1) && IsCents(extra2) ==> f == Round2(AsNumber(promedio)) + extra1 + extra2
  {
    var p := Round2(GetOr(promedio, 0.0));
    if IsCents(extra1) && IsCents(extra2) then
      CentsSum(p, extra1);
      CentsSum(p + extra1, extra2);
      Round2OfCents(p + extra1 + extra2);
      Round2(p + extra1 + extra2)
    else
      Round2(p + extra1 + extra2)
  }

  /** The score of a report: absent average or extra-credit exams count as 0. */
  function Score(d: Report): (f: real)
    ensures IsCents(f)
    ensures var exact := AsNumber(d.promedio) + AsNumber(Get(d.extra, "Parcial 4")) + AsNumber(Get(d.extra, "Parcial 5"));
      -0.015 <= f - exact <= 0.015
  {
    FinalScore(d.promedio, Extra(Get(d.extra, "Parcial 4")), Extra(Get(d.extra, "Parcial 5")))
  }

  /**
   * The final score is the sum of the average and the two extra-credit exams,
   * each rounded to cents and counted as 0 when absent: the roundings do not
   * compound.
   */
  lemma ScoreIsSum(d: Report)
    ensures Score(d) == Round2(AsNumber(d.promedio))
      + Round2(AsNumber(Get(d.extra, "Parcial 4"))) + Round2(AsNumber(Get(d.extra, "Parcial 5")))
  {
    var p4, p5 := Get(d.extra, "Parcial 4"), Get(d.extra, "Parcial 5");
    var e1, e2 := Round2(AsNumber(p4)), Round2(AsNumber(p5));
    Round2OfCents(e1);
    Round2OfCents(e2);
    if p4.None? { Round2OfCents(0.0); }
    if p5.None? { Round2OfCents(0.0); }
    assert Extra(p4) == e1 && Extra(p5) == e2;
    var p := Round2(AsNumber(d.promedio));
    CentsSum(p, e1);
    CentsSum(p + e1, e2);
    Round2OfCents(p + e1 + e2);
  }

  /** The intended tiers: descending bands at 9, 8 and 7, each including its lower bound. */
  function Tier(score: real): (b: Badge)
    ensures b == Star <==> 9.0 <= score
    ensures b == ThumbsUp <==> 8.0 <= score < 9.0
    ensures b == Grimace <==> 7.0 <= score < 8.0
    ensures b == LyingFace <==> score < 7.0
  {
    if 9.00 <= score then Star
    else if 8.00 <= score then ThumbsUp
    else if 7.00 <= score then Grimace
    else LyingFace
  }

  /** Position of a badge, best first. */
  function Rank(b: Badge): nat
  {
    match b
    case Star => 0
    case ThumbsUp => 1
    case Grimace => 2
    case LyingFace => 3
  }

  /** A higher score never earns a worse badge. */
  lemma TierMonotone(x: real, y: real)
    requires x <= y
    ensures Rank(Tier(y)) <= Rank(Tier(x))
  {
  }

  /** A boolean operand of `<` in JavaScript: true and false compare as 1 and 0. */
  function BoolAsNumber(b: bool): real
  {
    if b then 1.0 else 0.0
  }

  /**
   * The tier chain as written: `8.00 <= final < 9.00` is `(8.00 <= final) < 9.00`,
   * so every score below 9 gets the thumbs-up and the last two badges are unreachable.
   */
  function LiteralTier(score: real): (b: Badge)
    ensures b == Star <==> 9.0 <= score
    ensures b == ThumbsUp <==> score < 9.0
    ensures b != Grimace && b != LyingFace
  {
    if 9.00 <= score then Star
    else if BoolAsNumber(8.00 <= score) < 9.00 then ThumbsUp
    else if BoolAsNumber(7.00 <= score) < 8.00 then Grimace
    else LyingFace
  }

  /** The code as written agrees with the intended tiers exactly from 8 up; 7.5 shows the difference. */
  lemma LiteralTierDiverges(score: real)
    ensures LiteralTier(score) == Tier(score) <==> 8.0 <= score
    ensures LiteralTier(7.5) == ThumbsUp && Tier(7.5) == Grimace
  {
  }

  /** The weekly average sends the student to the final exam: present and below 6. */
  predicate IsRemedial(semanales: Option<real>)
  {
    semanales.Some? && semanales.value < 6.0
  }

  /** The gateway's error answers: its own, or the grade service's body passed on. */
  datatype ErrorBody = MissingAccountNumber | Passed(failure: Failure) | InternalError

  /** An answer of `/consultar`: a message, or an error status with its body. */
  datatype Reply = Answer(parts: seq<Part>) | Error(status: int, body: ErrorBody)

  /** Which answer `/consultar` gives. */
  datatype Outcome =
    | Rejected(status: int, body: ErrorBody)
    | FirstRoundOnly(score: real)
    | Remedial
    | Graded(score: real, badge: Badge)

  /** The roster check ends the request: its 404 or 400 is passed on as it is. */
  predicate RosterStops(roster: Response<string>)
  {
    Status(roster) == 404 || Status(roster) == 400
  }

  /**
   * The decisions of `/consultar`: a missing account number, a roster 404/400
   * and a grades 404 are answered with that status; any other failure of the
   * grades fetch leaves an error body that the message assembly trips over
   * (500); a first-round final score is all that is shown; then the remedial
   * rule, and otherwise the final score and its tier.
   */
  function Decide(accountNumber: Option<string>, roster: Response<string>, grades: Response<Report>): (o: Outcome)
    ensures o.Rejected? ==> o.status in {400, 404, 500}
    ensures o.Graded? ==> o.badge == Tier(o.score)
  {
    if Falsy(accountNumber) then Rejected(400, MissingAccountNumber)
    else if RosterStops(roster) then Rejected(Status(roster), Passed(roster.error))
    else if grades.Fail? && Status(grades) == 404 then Rejected(404, Passed(grades.error))
    else if grades.Fail? then Rejected(500, InternalError)
    else if grades.body.finalPrimera.Some? then FirstRoundOnly(grades.body.finalPrimera.value)
    else if IsRemedial(grades.body.semanales) then Remedial
    else Graded(Score(grades.body), Tier(Score(grades.body)))
  }

  /** Without an account number nothing downstream matters. */
  lemma MissingAccountIgnoresDownstream(accountNumber: Option<string>, r1: Response<string>, r2: Response<string>,
                                        g1: Response<Report>, g2: Response<Report>)
    requires Falsy(accountNumber)
    ensures Decide(accountNumber, r1, g1) == Decide(accountNumber, r2, g2) == Rejected(400, MissingAccountNumber)
  {
  }

  /** A roster 404 or 400 is passed on with its status and body, and the grades are never looked at. */
  lemma RosterRejectionPassedOn(accountNumber: Option<string>, roster: Response<string>,
                                g1: Response<Report>, g2: Response<Report>)
    requires !Falsy(accountNumber) && RosterStops(roster)
    ensures Decide(accountNumber, roster, g1) == Decide(accountNumber, roster, g2)
    ensures Decide(accountNumber, roster, g1) == Rejected(Status(roster), Passed(roster.error))
  {
  }

  /** Any other roster answer, a 500 included, lets the request go on as a success would. */
  lemma OtherRosterAnswersContinue(accountNumber: Option<string>, roster: Response<string>, grades: Response<Report>)
    requires !RosterStops(roster)
    ensures Decide(accountNumber, roster, grades) == Decide(accountNumber, Ok(""), grades)
  {
  }

  /** With a first-round final score nothing else in the report matters. */
  lemma FirstRoundShortCircuit(accountNumber: Option<string>, roster: Response<string>, d1: Report, d2: Report)
    requires !Falsy(accountNumber) && !RosterStops(roster)
    requires d1.finalPrimera.Some? && d1.finalPrimera == d2.finalPrimera
    ensures Decide(accountNumber, roster, Ok(d1)) == Decide(accountNumber, roster, Ok(d2))
              == FirstRoundOnly(d1.finalPrimera.value)
  {
  }

  /**
   * Past the earlier checks and without a first-round score, the remedial
   * notice is given exactly when the weekly average is present and below 6;
   * otherwise the final score is graded.
   */
  lemma RemedialExactly(accountNumber: Option<string>, roster: Response<string>, d: Report)
    requires !Falsy(accountNumber) && !RosterStops(roster) && d.finalPrimera.None?
    ensures Decide(accountNumber, roster, Ok(d)) == Remedial <==> IsRemedial(d.semanales)
    ensures !IsRemedial(d.semanales) ==> Decide(accountNumber, roster, Ok(d)) == Graded(Score(d), Tier(Score(d)))
  {
  }

  /**
   * The badge the gateway shows as written: the chained comparison gives the
   * thumbs-up below 9, so it agrees with the graded outcome's intended badge
   * exactly when the score is at least 8.
   */
  lemma GradedBadgeAsWritten(accountNumber: Option<string>, roster: Response<string>, grades: Response<Report>)
    requires Decide(accountNumber, roster, grades).Graded?
    ensures var o := Decide(accountNumber, roster, grades);
      LiteralTier(o.score) == o.badge <==> 8.0 <= o.score
  {
    var o := Decide(accountNumber, roster, grades);
    LiteralTierDiverges(o.score);
  }

  /** The remedial boundary: 5.9 is remedial, 6.0 is not, and an absent weekly average is not. */
  lemma RemedialBoundary()
    ensures IsRemedial(Some(5.9)) && !IsRemedial(Some(6.0)) && !IsRemedial(None)
  {
  }

  /** One category of the message: its average, then its detail lines. */
  function Block(section: Section, average: Option<real>, ev: string, data: map<string, Option<real>>, n: nat): seq<Part>
  {
    [SectionAverage(section, Show(average))] + Items(ev, data, n)
  }

  /** The message before the closing decision: averages, details and the practical grade. */
  function Breakdown(account: string, d: Report): seq<Part>
  {
    [Intro(account)]
      + Block(WeeklySection, d.semanales, "Semanal", d.detalleSemanales, 10)
      + Block(HomeworkSection, d.tareas, "Tarea", d.detalleTareas, 4)
      + Block(MidtermSection, d.parciales, "Parcial", d.detalleParciales, 3)
      + Block(ProblemSection, d.problemas, "Set", d.detalleProblemas, 4)
      + [if d.practica.None? then PracticalPending else PracticalGrade(d.practica.value)]
  }

  /**
   * Shape of the breakdown: the introduction, the weekly block (1 + 10 lines),
   * the homework block (1 + 4), the midterm block (1 + 3), the problem-set
   * block (1 + 4), then the practical grade, which is pending iff it is null.
   */
  lemma BreakdownShape(account: string, d: Report)
    ensures var b := Breakdown(account, d);
      && |b| == 27
      && b[0] == Intro(account)
      && b[1..12] == Block(WeeklySection, d.semanales, "Semanal", d.detalleSemanales, 10)
      && b[12..17] == Block(HomeworkSection, d.tareas, "Tarea", d.detalleTareas, 4)
      && b[17..21] == Block(MidtermSection, d.parciales, "Parcial", d.detalleParciales, 3)
      && b[21..26] == Block(ProblemSection, d.problemas, "Set", d.detalleProblemas, 4)
      && (b[26] == PracticalPending <==> d.practica.None?)
  {
    var w := Block(WeeklySection, d.semanales, "Semanal", d.detalleSemanales, 10);
    var h := Block(HomeworkSection, d.tareas, "Tarea", d.detalleTareas, 4);
    var m := Block(MidtermSection, d.parciales, "Parcial", d.detalleParciales, 3);
    var p := Block(ProblemSection, d.problemas, "Set", d.detalleProblemas, 4);
    var last := [if d.practica.None? then PracticalPending else PracticalGrade(d.practica.value)];
    assert |w| == 11 && |h| == 5 && |m| == 4 && |p| == 5;
    Slices([Intro(account)], w, h, m, p, last);
  }

  /** Slicing a concatenation of six parts of lengths 1, 11, 5, 4, 5 and 1 gives back its parts. */
  lemma Slices<T>(a: seq<T>, w: seq<T>, h: seq<T>, m: seq<T>, p: seq<T>, l: seq<T>)
    requires |a| == 1 && |w| == 11 && |h| == 5 && |m| == 4 && |p| == 5 && |l| == 1
    ensures var b := a + w + h + m + p + l;
      && |b| == 27 && b[0] == a[0] && b[26] == l[0]
      && b[1..12] == w && b[12..17] == h && b[17..21] == m && b[21..26] == p
  {
    var b := a + w + h + m + p + l;
    assert b == a + w + (h + m + p + l);
    Middle(a, w, h + m + p + l);
    assert b == (a + w) + h + (m + p + l);
    Middle(a + w, h, m + p + l);
    assert b == (a + w + h) + m + (p + l);
    Middle(a + w + h, m, p + l);
    Middle(a + w + h + m, p, l);
  }

  /** The middle part of a concatenation of three, recovered by slicing. */
  lemma Middle<T>(a: seq<T>, x: seq<T>, c: seq<T>)
    ensures (a + x + c)[|a|..|a| + |x|] == x
  {
  }

  /** `mensaje += <average line>; mensaje += printDetalle(...)` for one category. */
  method AppendBlock(mensaje: seq<Part>, section: Section, average: Option<real>, ev: string,
                     data: map<string, Option<real>>, n: nat) returns (extended: seq<Part>)
    ensures extended == mensaje + Block(section, average, ev, data, n)
  {
    extended := mensaje + [SectionAverage(section, Show(average))];
    var lines := PrintDetalle(ev, data, n);
    assert lines == Items(ev, data, n);
    extended := extended + lines;
  }

  /** The `mensaje += ...` steps of `/consultar` that list the averages, the details and the practical grade. */
  method AppendBreakdown(account: string, d: Report) returns (mensaje: seq<Part>)
    ensures mensaje == Breakdown(account, d)
  {
    mensaje := [Intro(account)];
    mensaje := AppendBlock(mensaje, WeeklySection, d.semanales, "Semanal", d.detalleSemanales, 10);
    mensaje := AppendBlock(mensaje, HomeworkSection, d.tareas, "Tarea", d.detalleTareas, 4);
    mensaje := AppendBlock(mensaje, MidtermSection, d.parciales, "Parcial", d.detalleParciales, 3);
    mensaje := AppendBlock(mensaje, ProblemSection, d.problemas, "Set", d.detalleProblemas, 4);
    if d.practica.None? {
      mensaje := mensaje + [PracticalPending];
    } else {
      mensaje := mensaje + [PracticalGrade(d.practica.value)];
    }
  }

  /** `/consultar`: the decisions of `Decide`, with the message assembled part by part. */
  method Consultar(accountNumber: Option<string>, roster: Response<string>, grades: Response<Report>)
    returns (reply: Reply)
    ensures var o := Decide(accountNumber, roster, grades);
      && (o.Rejected? ==> reply == Error(o.status, o.body))
      && (o.FirstRoundOnly? ==> reply == Answer([FirstRoundFinal(o.score)]))
      && (o.Remedial? ==> reply == Answer(Breakdown(accountNumber.value, grades.body) + [RemedialNotice]))
      && (o.Graded? ==>
            var d := grades.body;
            reply == Answer(Breakdown(accountNumber.value, d)
              + [ExtraCredit(Extra(Get(d.extra, "Parcial 4")), Extra(Get(d.extra, "Parcial 5"))),
                 CourseAverage(Round2(GetOr(d.promedio, 0.0))),
                 FinalGrade(o.badge, o.score)]))
  {
    if Falsy(accountNumber) {
      return Error(400, MissingAccountNumber);
    }
    var status := Status(roster);
    if status == 404 || status == 400 {
      return Error(status, Passed(roster.error));
    }
    if grades.Fail? {
      if Status(grades) == 404 {
        return Error(404, Passed(grades.error));
      }
      return Error(500, InternalError);
    }
    var d := grades.body;
    if d.finalPrimera.Some? {
      return Answer([FirstRoundFinal(d.finalPrimera.value)]);
    }
    var mensaje := AppendBreakdown(accountNumber.value, d);
    if d.semanales.Some? && d.semanales.value < 6.0 {
      mensaje := mensaje + [RemedialNotice];
    } else {
      var extra1 := Extra(Get(d.extra, "Parcial 4"));
      var extra2 := Extra(Get(d.extra, "Parcial 5"));
      var promedio := Round2(GetOr(d.promedio, 0.0));
      mensaje := mensaje + [ExtraCredit(extra1, extra2), CourseAverage(promedio)];
      var final := Round2(promedio + extra1 + extra2);
      mensaje := mensaje + [FinalGrade(Tier(final), final)];
    }
    reply := Answer(mensaje);
  }

  /** An answer of `/final`: an error, or the message embedding the grade text (`undefined` when absent). */
  datatype FinalReply = FinalError(status: int, body: ErrorBody) | FinalMessage(grade: Option<string>)

  /**
   * `/final`: 400 without an account number, the grade service's 404 or 400
   * passed on; any other answer becomes the message, which embeds the grade
   * text verbatim, or `undefined` when the answer carries none.
   */
  function Final(accountNumber: Option<string>, grade: Response<string>): (r: FinalReply)
    ensures r.FinalError? <==> Falsy(accountNumber) || Status(grade) == 404 || Status(grade) == 400
    ensures r.FinalError? ==> r.status == 400 || r.status == 404
    ensures Falsy(accountNumber) ==> r == FinalError(400, MissingAccountNumber)
    ensures !Falsy(accountNumber) && (Status(grade) == 404 || Status(grade) == 400) ==>
      r == FinalError(Status(grade), Passed(grade.error))
    ensures r.FinalMessage? ==> (r.grade.Some? <==> grade.Ok?)
    ensures r.FinalMessage? && grade.Ok? ==> r.grade == Some(grade.body)
  {
    if Falsy(accountNumber) then FinalError(400, MissingAccountNumber)
    else if Status(grade) == 404 || Status(grade) == 400 then FinalError(Status(grade), Passed(grade.error))
    else if grade.Ok? then FinalMessage(Some(grade.body))
    else FinalMessage(None)
  }

  /** A grades lookup that found no records ends the query with the service's 404, after a roster pass. */
  lemma GradesNotFoundPassedOn(accountNumber: Option<string>, roster: Response<string>, grades: Response<Report>)
    requires !Falsy(accountNumber) && !RosterStops(roster) && grades == Fail(NoRecords)
    ensures Decide(accountNumber, roster, grades) == Rejected(404, Passed(NoRecords))
  {
  }

  /**
   * Any other failure of the grade service ends as a 500 "Error interno":
   * its error body is read as grades, and `printDetalle` throws on it.
   */
  lemma GradesFailureIsInternal(accountNumber: Option<string>, roster: Response<string>, grades: Response<Report>)
    requires !Falsy(accountNumber) && !RosterStops(roster) && grades.Fail? && Status(grades) != 404
    ensures Decide(accountNumber, roster, grades) == Rejected(500, InternalError)
  {
  }

  /**
   * End to end: for an account the roster knows, a category without a page
   * for it makes `/consultar` answer 404, even when a first-round final score
   * exists; no partial breakdown is ever sent.
   */
  lemma NoPartialReport(store: Store, account: string, c: Category)
    requires !NotANumber(Some(account))
    requires exists i | 0 <= i < |store.roster| :: store.roster[i].cuenta == Some(ParseInt(account).value as real)
    requires c in LookupOrder && Hits(store, account, c) == []
    ensures Decide(Some(account), ValidaEnLista(store, Some(account)), Calificaciones(store, account))
              == Rejected(404, Passed(NoRecords))
  {
    MissingCategory(store, account, c);
    RosterPasses(store, account);
    GradesNotFoundPassedOn(Some(account), ValidaEnLista(store, Some(account)), Calificaciones(store, account));
  }

  /** An account the roster knows is never stopped at the roster check. */
  lemma RosterPasses(store: Store, account: string)
    requires !NotANumber(Some(account))
    requires exists i | 0 <= i < |store.roster| :: store.roster[i].cuenta == Some(ParseInt(account).value as real)
    ensures !RosterStops(ValidaEnLista(store, Some(account)))
  {
    var r := RosterEmail(store.roster, ParseInt(account).value);
    assert ValidaEnLista(store, Some(account)) == r;
    assert r != Fail(AccountNotFound);
  }
}
