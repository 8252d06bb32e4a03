/**
 * The grade service in front of the Notion databases: the roster check
 * (`/valida_en_lista`), the six-category report with its weighted average and
 * item details (`/calificaciones`) and the final-grade lookup
 * (`/calificacionfinal`). Each database is a sequence of pages in the order a
 * query returns them; a filtered query keeps that order.
 */
module NotionService {
  import opened Wrappers
  import opened JsText

  /** `${name} ${i}`: the column holding the i-th item of a category. */
  function Label(name: string, i: nat): string
  {
    name + " " + DecimalString(i)
  }

  /** Items of one category have distinct labels. */
  lemma LabelInjective(name: string, i: nat, j: nat)
    requires Label(name, i) == Label(name, j)
    ensures i == j
  {
    var k := |name| + 1;
    assert Label(name, i)[k..] == DecimalString(i);
    assert Label(name, j)[k..] == DecimalString(j);
    DecimalStringInjective(i, j);
  }

  /** Name of the average column of every grade database. */
  const Average := "Promedio"
  /** Name of the first-round final exam column of the finals database. */
  const FirstRound := "Primera vuelta"

  /** A page of a grade database: its `Cuenta` text and its number columns (null allowed). */
  datatype GradePage = GradePage(cuenta: string, columns: map<string, Option<real>>)

  /** The roster's `Calificacion` property: missing, or present with its rich-text segments (if rich text). */
  datatype GradeCell = NoGradeColumn | GradeColumn(richText: Option<seq<string>>)

  /** A roster page: its numeric `Cuenta`, its `Correo.email` and its `Calificacion`. */
  datatype RosterPage = RosterPage(cuenta: Option<real>, correo: Option<string>, calificacion: GradeCell)

  datatype Category = Weekly | Homework | Midterms | Problems | Practical | Finals

  /** The seven Notion databases the service reads. */
  datatype Store = Store(
    roster: seq<RosterPage>,
    weekly: seq<GradePage>,
    homework: seq<GradePage>,
    midterms: seq<GradePage>,
    problems: seq<GradePage>,
    practical: seq<GradePage>,
    finals: seq<GradePage>)
  {
    function Table(c: Category): seq<GradePage>
    {
      match c
      case Weekly => weekly
      case Homework => homework
      case Midterms => midterms
      case Problems => problems
      case Practical => practical
      case Finals => finals
    }
  }

  /** The order in which `/calificaciones` queries the grade databases. */
  const LookupOrder: seq<Category> := [Weekly, Homework, Midterms, Problems, Practical, Finals]

  /** A filtered database query: the pages that pass, in database order. */
  function Filter<T>(pages: seq<T>, keep: T -> bool): (r: seq<T>)
    ensures |r| <= |pages|
  {
    if pages == [] then []
    else if keep(pages[0]) then [pages[0]] + Filter(pages[1..], keep)
    else Filter(pages[1..], keep)
  }

  /** A query returns exactly the pages that pass its filter. */
  lemma {:induction false} FilterMembers<T>(pages: seq<T>, keep: T -> bool, p: T)
    ensures p in Filter(pages, keep) <==> p in pages && keep(p)
  {
    if pages != [] {
      FilterMembers(pages[1..], keep, p);
      assert p in pages <==> p == pages[0] || p in pages[1..];
    }
  }

  /** A query comes back empty exactly when no page passes its filter. */
  lemma {:induction false} FilterEmpty<T>(pages: seq<T>, keep: T -> bool)
    ensures Filter(pages, keep) == [] <==> forall i | 0 <= i < |pages| :: !keep(pages[i])
  {
    if pages != [] {
      FilterEmpty(pages[1..], keep);
      assert forall i | 1 <= i < |pages| :: pages[i] == pages[1..][i - 1];
    }
  }

  /** `results[0]` of a non-empty query is the earliest page in database order that passes the filter. */
  lemma {:induction false} FilterHead<T>(pages: seq<T>, keep: T -> bool) returns (i: nat)
    requires Filter(pages, keep) != []
    ensures i < |pages| && keep(pages[i]) && pages[i] == Filter(pages, keep)[0]
    ensures forall j | 0 <= j < i :: !keep(pages[j])
  {
    if keep(pages[0]) {
      i := 0;
    } else {
      var k := FilterHead(pages[1..], keep);
      i := k + 1;
      assert forall j | 1 <= j < i :: pages[j] == pages[1..][j - 1];
    }
  }

  /** The category query: rich-text equality of `Cuenta` with the account number as given. */
  function Query(table: seq<GradePage>, account: string): seq<GradePage>
  {
    Filter(table, (p: GradePage) => p.cuenta == account)
  }

  /** The category query returns exactly the pages whose `Cuenta` text equals the account as given. */
  lemma QueryMembers(table: seq<GradePage>, account: string, p: GradePage)
    ensures p in Query(table, account) <==> p in table && p.cuenta == account
  {
    FilterMembers(table, (p: GradePage) => p.cuenta == account, p);
  }

  /** The roster query: numeric equality of `Cuenta` with the parsed account number. */
  function RosterQuery(roster: seq<RosterPage>, n: int): seq<RosterPage>
  {
    Filter(roster, (p: RosterPage) => p.cuenta == Some(n as real))
  }

  /** The roster query returns exactly the pages whose numeric `Cuenta` equals the parsed number. */
  lemma RosterQueryMembers(roster: seq<RosterPage>, n: int, p: RosterPage)
    ensures p in RosterQuery(roster, n) <==> p in roster && p.cuenta == Some(n as real)
  {
    FilterMembers(roster, (p: RosterPage) => p.cuenta == Some(n as real), p);
  }

  /** Outcome of the six category lookups: the first page of each, or the first category with none. */
  datatype Lookup = Found(pages: seq<GradePage>) | Missing(category: Category)

  /** The pages of category `c` whose `Cuenta` is `account`. */
  function Hits(store: Store, account: string, c: Category): seq<GradePage>
  {
    Query(store.Table(c), account)
  }

  /** Index in `order` of the first category without a matching page; `|order|` when there is none. */
  function FirstMissing(store: Store, account: string, order: seq<Category>): (k: nat)
    ensures k <= |order|
    ensures forall j | 0 <= j < k :: Hits(store, account, order[j]) != []
    ensures k < |order| ==> Hits(store, account, order[k]) == []
  {
    if order == [] || Hits(store, account, order[0]) == [] then 0
    else
      var k := FirstMissing(store, account, order[1..]);
      assert forall j | 1 <= j <= k :: order[j] == order[1..][j - 1];
      1 + k
  }

  /**
   * The chain of lookups with early return: each category in turn, stopping
   * at the first without a matching page; only the first match is kept.
   */
  function LookupAll(store: Store, account: string, order: seq<Category>): (r: Lookup)
    ensures r.Found? <==> FirstMissing(store, account, order) == |order|
    ensures r.Found? ==> |r.pages| == |order| && forall i | 0 <= i < |order| ::
      r.pages[i] == Hits(store, account, order[i])[0]
    ensures r.Missing? ==> r.category == order[FirstMissing(store, account, order)]
  {
    if order == [] then Found([])
    else if Hits(store, account, order[0]) == [] then Missing(order[0])
    else
      var tail := LookupAll(store, account, order[1..]);
      if tail.Missing? then tail
      else
        var r := [Hits(store, account, order[0])[0]] + tail.pages;
        assert forall i | 1 <= i < |order| :: r[i] == Hits(store, account, order[i])[0] by {
          forall i | 1 <= i < |order| ensures r[i] == Hits(store, account, order[i])[0] {
            assert order[1..][i - 1] == order[i];
          }
        }
        Found(r)
  }

  /** Every item label 1..n of a category is a column of the page. */
  predicate HasItems(p: GradePage, name: string, n: nat)
  {
    forall i | 1 <= i <= n :: Label(name, i) in p.columns
  }

  /** `d` maps exactly the labels "name 1".."name n", each to that column of `p`. */
  ghost predicate IsDetail(d: map<string, Option<real>>, p: GradePage, name: string, n: nat)
    requires HasItems(p, name, n)
  {
    && (forall k :: k in d <==> exists i | 1 <= i <= n :: k == Label(name, i))
    && (forall i | 1 <= i <= n :: d[Label(name, i)] == p.columns[Label(name, i)])
  }

  /** The `Array.from({length: n}, ...).reduce(...)` fold building a category's detail object. */
  function Detail(p: GradePage, name: string, n: nat): (d: map<string, Option<real>>)
    requires HasItems(p, name, n)
    ensures IsDetail(d, p, name, n)
  {
    if n == 0 then map[]
    else
      var d0 := Detail(p, name, n - 1);
      var d := d0[Label(name, n) := p.columns[Label(name, n)]];
      DetailStep(d0, d, p, name, n);
      d
  }

  /** One step of the fold: adding "name n" to the detail of the first n - 1 items gives the detail of n. */
  lemma DetailStep(d0: map<string, Option<real>>, d: map<string, Option<real>>, p: GradePage, name: string, n: nat)
    requires 0 < n && HasItems(p, name, n) && IsDetail(d0, p, name, n - 1)
    requires d == d0[Label(name, n) := p.columns[Label(name, n)]]
    ensures IsDetail(d, p, name, n)
  {
    forall k
      ensures k in d <==> exists i | 1 <= i <= n :: k == Label(name, i)
    {
      if k == Label(name, n) {
        assert k in d;
      } else if k in d0 {
        var i :| 1 <= i <= n - 1 && k == Label(name, i);
        assert 1 <= i <= n;
      } else {
        assert k !in d;
        assert forall i | 1 <= i <= n - 1 :: k != Label(name, i);
      }
    }
  }

  /** A detail object has exactly n entries: the labels never collide. */
  lemma {:induction false} DetailSize(p: GradePage, name: string, n: nat)
    requires HasItems(p, name, n)
    ensures |Detail(p, name, n)| == n
  {
    if n > 0 {
      DetailSize(p, name, n - 1);
      var d := Detail(p, name, n - 1);
      if Label(name, n) in d {
        var i :| 1 <= i <= n - 1 && Label(name, n) == Label(name, i);
        LabelInjective(name, n, i);
      }
    }
  }

  /** The number JavaScript arithmetic makes of a property value: null counts as 0. */
  function AsNumber(v: Option<real>): real
  {
    GetOr(v, 0.0)
  }

  /** The course average: 30% midterms, 30% homework, 20% weekly exams, 10% practical, 10% problem sets. */
  function WeightedAverage(midterms: Option<real>, homework: Option<real>, weekly: Option<real>,
                           practical: Option<real>, problems: Option<real>): (r: real)
    ensures (forall v | v in [midterms, homework, weekly, practical, problems] :: 0.0 <= AsNumber(v) <= 10.0)
            ==> 0.0 <= r <= 10.0
  {
    0.3 * AsNumber(midterms) + 0.3 * AsNumber(homework) + 0.2 * AsNumber(weekly)
      + 0.1 * AsNumber(practical) + 0.1 * AsNumber(problems)
  }

  /** The numbers all categories' averages are scaled to. */
  lemma WeightedAverageOfEqualGrades(x: real)
    ensures WeightedAverage(Some(x), Some(x), Some(x), Some(x), Some(x)) == x
  {
  }

  /** A worked case: midterms 8, homework 7, weekly 9, practical 6, problem sets 10. */
  lemma WeightedAverageExample()
    ensures WeightedAverage(Some(8.0), Some(7.0), Some(9.0), Some(6.0), Some(10.0)) == 7.9
  {
  }

  /** A null average weighs like a zero one, in any of the five places: `0.3 * null` is `0` in JavaScript. */
  lemma NullAverageCountsAsZero(midterms: Option<real>, homework: Option<real>, weekly: Option<real>,
                                practical: Option<real>, problems: Option<real>)
    ensures WeightedAverage(midterms, homework, weekly, practical, problems)
         == WeightedAverage(Some(AsNumber(midterms)), Some(AsNumber(homework)), Some(AsNumber(weekly)),
                            Some(AsNumber(practical)), Some(AsNumber(problems)))
    ensures midterms.None? ==>
      WeightedAverage(midterms, homework, weekly, practical, problems)
        == WeightedAverage(Some(0.0), homework, weekly, practical, problems)
  {
  }

  /** The JSON `/calificaciones` answers with. */
  datatype Report = Report(
    semanales: Option<real>,
    detalleSemanales: map<string, Option<real>>,
    tareas: Option<real>,
    detalleTareas: map<string, Option<real>>,
    parciales: Option<real>,
    detalleParciales: map<string, Option<real>>,
    problemas: Option<real>,
    detalleProblemas: map<string, Option<real>>,
    practica: Option<real>,
    extra: map<string, Option<real>>,
    promedio: Option<real>,
    finalPrimera: Option<real>)

  /** Every column the report reads exists in the page it reads it from (a missing one throws). */
  predicate HasReadColumns(weekly: GradePage, homework: GradePage, midterms: GradePage,
                           problems: GradePage, practical: GradePage, finals: GradePage)
  {
    && Average in weekly.columns && HasItems(weekly, "Semanal", 10)
    && Average in homework.columns && HasItems(homework, "Tarea", 4)
    && Average in midterms.columns && HasItems(midterms, "Parcial", 5)
    && Average in problems.columns && HasItems(problems, "Set", 4)
    && Average in practical.columns
    && FirstRound in finals.columns
  }

  /** The report built from the first matching page of each category. */
  function BuildReport(weekly: GradePage, homework: GradePage, midterms: GradePage,
                       problems: GradePage, practical: GradePage, finals: GradePage): (r: Report)
    requires HasReadColumns(weekly, homework, midterms, problems, practical, finals)
    ensures r.promedio == Some(WeightedAverage(midterms.columns[Average], homework.columns[Average],
      weekly.columns[Average], practical.columns[Average], problems.columns[Average]))
    ensures r.semanales == weekly.columns[Average] && IsDetail(r.detalleSemanales, weekly, "Semanal", 10)
    ensures r.tareas == homework.columns[Average] && IsDetail(r.detalleTareas, homework, "Tarea", 4)
    ensures r.parciales == midterms.columns[Average] && IsDetail(r.detalleParciales, midterms, "Parcial", 3)
    ensures r.problemas == problems.columns[Average] && IsDetail(r.detalleProblemas, problems, "Set", 4)
    ensures r.practica == practical.columns[Average]
    ensures r.extra.Keys == {Label("Parcial", 4), Label("Parcial", 5)}
    ensures forall k | k in r.extra :: r.extra[k] == midterms.columns[k]
    ensures r.extra.Keys !! r.detalleParciales.Keys
    ensures r.finalPrimera == finals.columns[FirstRound]
  {
    var extra := map[Label("Parcial", 4) := midterms.columns[Label("Parcial", 4)],
                     Label("Parcial", 5) := midterms.columns[Label("Parcial", 5)]];
    var detalleParciales := Detail(midterms, "Parcial", 3);
    ExtraApart(midterms, extra.Keys, detalleParciales);
    Report(
      weekly.columns[Average], Detail(weekly, "Semanal", 10),
      homework.columns[Average], Detail(homework, "Tarea", 4),
      midterms.columns[Average], detalleParciales,
      problems.columns[Average], Detail(problems, "Set", 4),
      practical.columns[Average],
      extra,
      Some(WeightedAverage(midterms.columns[Average], homework.columns[Average],
        weekly.columns[Average], practical.columns[Average], problems.columns[Average])),
      finals.columns[FirstRound])
  }

  /** The two extra midterms are not among the keys of the midterm detail. */
  lemma ExtraApart(midterms: GradePage, keys: set<string>, detail: map<string, Option<real>>)
    requires keys == {Label("Parcial", 4), Label("Parcial", 5)}
    requires HasItems(midterms, "Parcial", 3) && IsDetail(detail, midterms, "Parcial", 3)
    ensures keys !! detail.Keys
  {
    forall k | k in keys && k in detail
      ensures false
    {
      var i :| 1 <= i <= 3 && k == Label("Parcial", i);
      if k == Label("Parcial", 4) {
        LabelInjective("Parcial", 4, i);
      } else {
        LabelInjective("Parcial", 5, i);
      }
    }
  }

  /** A category with no page for the account makes `/calificaciones` answer 404. */
  lemma MissingCategory(store: Store, account: string, c: Category)
    requires c in LookupOrder && Hits(store, account, c) == []
    ensures Calificaciones(store, account) == Fail(NoRecords)
  {
  }

  /** Why the service answers with an error, and the status it uses. */
  datatype Failure = AccountRequired | AccountNotFound | NoRecords | EmailMalformed | NotionError

  function StatusOf(f: Failure): int
  {
    match f
    case AccountRequired => 400
    case AccountNotFound => 404
    case NoRecords => 404
    case EmailMalformed => 500
    case NotionError => 500
  }

  /** An answer of the service: a JSON body with status 200, or an error. */
  datatype Response<T> = Ok(body: T) | Fail(error: Failure)

  function Status<T>(r: Response<T>): int
  {
    if r.Ok? then 200 else StatusOf(r.error)
  }

  /** The first page of category `c` matching `account`. */
  function First(store: Store, account: string, c: Category): GradePage
    requires Hits(store, account, c) != []
  {
    Hits(store, account, c)[0]
  }

  /**
   * `/calificaciones?accountNumber=account`: 404 as soon as one category has
   * no page for the account, so no partial report is ever produced; 500 when
   * a column the report reads is missing; otherwise the report built from the
   * first page of each category.
   */
  function Calificaciones(store: Store, account: string): (r: Response<Report>)
    ensures r == Fail(NoRecords) <==> exists c | c in LookupOrder :: Hits(store, account, c) == []
    ensures r.Fail? ==> r.error == NoRecords || r.error == NotionError
    ensures (forall c | c in LookupOrder :: Hits(store, account, c) != []) ==>
      (r.Ok? <==> HasReadColumns(First(store, account, Weekly), First(store, account, Homework),
                    First(store, account, Midterms), First(store, account, Problems),
                    First(store, account, Practical), First(store, account, Finals)))
    ensures r.Ok? ==>
      && (forall c | c in LookupOrder :: Hits(store, account, c) != [])
      && HasReadColumns(First(store, account, Weekly), First(store, account, Homework),
           First(store, account, Midterms), First(store, account, Problems),
           First(store, account, Practical), First(store, account, Finals))
      && r.body == BuildReport(First(store, account, Weekly), First(store, account, Homework),
           First(store, account, Midterms), First(store, account, Problems),
           First(store, account, Practical), First(store, account, Finals))
  {
    var lookup := LookupAll(store, account, LookupOrder);
    assert lookup.Missing? ==> Hits(store, account, lookup.category) == [];
    assert lookup.Found? ==> forall c | c in LookupOrder :: Hits(store, account, c) != [] by {
      if lookup.Found? {
        forall c | c in LookupOrder ensures Hits(store, account, c) != [] {
          var i :| 0 <= i < |LookupOrder| && LookupOrder[i] == c;
        }
      }
    }
    if lookup.Missing? then Fail(NoRecords)
    else
      var p := lookup.pages;
      if !HasReadColumns(p[0], p[1], p[2], p[3], p[4], p[5]) then Fail(NotionError)
      else Ok(BuildReport(p[0], p[1], p[2], p[3], p[4], p[5]))
  }

  /** The query parameter is missing or empty, or `parseInt` makes `NaN` of it. */
  predicate NotANumber(accountNumber: Option<string>)
  {
    Falsy(accountNumber) || ParseInt(accountNumber.value).None?
  }

  /** Roster page `i` is the first, in database order, whose `Cuenta` is the number `n`. */
  ghost predicate FirstRosterMatch(roster: seq<RosterPage>, n: int, i: int)
  {
    && 0 <= i < |roster|
    && roster[i].cuenta == Some(n as real)
    && forall j | 0 <= j < i :: roster[j].cuenta != Some(n as real)
  }

  /** Finds the first roster page whose `Cuenta` is `n`, when the roster query is not empty. */
  lemma RosterHead(roster: seq<RosterPage>, n: int)
    requires RosterQuery(roster, n) != []
    ensures exists i :: FirstRosterMatch(roster, n, i) && RosterQuery(roster, n)[0] == roster[i]
  {
    var i := FilterHead(roster, (p: RosterPage) => p.cuenta == Some(n as real));
    assert FirstRosterMatch(roster, n, i);
  }

  /** The roster query is empty exactly when no page has `Cuenta` equal to `n`. */
  lemma RosterEmpty(roster: seq<RosterPage>, n: int)
    ensures RosterQuery(roster, n) == [] <==> forall i | 0 <= i < |roster| :: roster[i].cuenta != Some(n as real)
  {
    FilterEmpty(roster, (p: RosterPage) => p.cuenta == Some(n as real));
  }

  /**
   * `/valida_en_lista`: 400 for a missing or non-numeric account number, 404
   * when no roster page carries that number, 500 when the first one has no
   * e-mail, otherwise that e-mail.
   */
  function ValidaEnLista(store: Store, accountNumber: Option<string>): (r: Response<string>)
    ensures r == Fail(AccountRequired) <==> NotANumber(accountNumber)
    ensures r.Fail? ==> r.error == AccountRequired || r.error == AccountNotFound || r.error == EmailMalformed
    ensures !NotANumber(accountNumber) ==>
      var n := ParseInt(accountNumber.value).value;
      && (r == Fail(AccountNotFound) <==>
            forall i | 0 <= i < |store.roster| :: store.roster[i].cuenta != Some(n as real))
      && (r.Ok? ==> exists i :: FirstRosterMatch(store.roster, n, i))
      && forall i | FirstRosterMatch(store.roster, n, i) ::
           && (r == Fail(EmailMalformed) <==> Falsy(store.roster[i].correo))
           && (r.Ok? ==> store.roster[i].correo == Some(r.body) && r.body != "")
  {
    if NotANumber(accountNumber) then Fail(AccountRequired)
    else RosterEmail(store.roster, ParseInt(accountNumber.value).value)
  }

  /** The part of `/valida_en_lista` after the number check: the roster query for `n` and its first page's email. */
  function RosterEmail(roster: seq<RosterPage>, n: int): (r: Response<string>)
    ensures r.Fail? ==> r.error == AccountNotFound || r.error == EmailMalformed
    ensures r == Fail(AccountNotFound) <==> forall i | 0 <= i < |roster| :: roster[i].cuenta != Some(n as real)
    ensures r.Ok? ==> exists i :: FirstRosterMatch(roster, n, i)
    ensures forall i | FirstRosterMatch(roster, n, i) ::
      && (r == Fail(EmailMalformed) <==> Falsy(roster[i].correo))
      && (r.Ok? ==> roster[i].correo == Some(r.body) && r.body != "")
  {
    var hits := RosterQuery(roster, n);
    RosterEmpty(roster, n);
    if hits == [] then Fail(AccountNotFound)
    else
      assert forall k | FirstRosterMatch(roster, n, k) :: hits[0] == roster[k] by {
        RosterHead(roster, n);
        var i :| FirstRosterMatch(roster, n, i) && hits[0] == roster[i];
        forall k | FirstRosterMatch(roster, n, k) ensures k == i {}
      }
      RosterHead(roster, n);
      if Falsy(hits[0].correo) then Fail(EmailMalformed)
      else Ok(hits[0].correo.value)
  }

  /** An account whose number is on the roster passes the roster check, unless its email is missing. */
  lemma RosterKnown(store: Store, accountNumber: string)
    requires !NotANumber(Some(accountNumber))
    requires exists i | 0 <= i < |store.roster| ::
      store.roster[i].cuenta == Some(ParseInt(accountNumber).value as real)
    ensures ValidaEnLista(store, Some(accountNumber)).Ok?
         || ValidaEnLista(store, Some(accountNumber)) == Fail(EmailMalformed)
  {
    var r := ValidaEnLista(store, Some(accountNumber));
    assert r != Fail(AccountRequired);
    assert r != Fail(AccountNotFound);
  }

  /** The text `/calificacionfinal` takes from `Calificacion`: its first rich-text segment, else "". */
  function GradeText(richText: Option<seq<string>>): string
  {
    if richText.Some? && |richText.value| > 0 then richText.value[0] else ""
  }

  /**
   * `/calificacionfinal`: the same 400 and 404 as `/valida_en_lista`; 500 when
   * the first matching roster page has no `Calificacion` property; otherwise
   * its first rich-text segment, or "" when it has none.
   */
  function CalificacionFinal(store: Store, accountNumber: Option<string>): (r: Response<string>)
    ensures r == Fail(AccountRequired) <==> NotANumber(accountNumber)
    ensures r.Fail? ==> r.error == AccountRequired || r.error == AccountNotFound || r.error == NotionError
    ensures !NotANumber(accountNumber) ==>
      var n := ParseInt(accountNumber.value).value;
      && (r == Fail(AccountNotFound) <==>
            forall i | 0 <= i < |store.roster| :: store.roster[i].cuenta != Some(n as real))
      && forall i | FirstRosterMatch(store.roster, n, i) ::
           && (r == Fail(NotionError) <==> store.roster[i].calificacion.NoGradeColumn?)
           && (r.Ok? ==> r.body == GradeText(store.roster[i].calificacion.richText))
  {
    if NotANumber(accountNumber) then Fail(AccountRequired)
    else RosterGrade(store.roster, ParseInt(accountNumber.value).value)
  }

  /** The part of `/calificacionfinal` after the number check: the roster query for `n` and its first page's grade. */
  function RosterGrade(roster: seq<RosterPage>, n: int): (r: Response<string>)
    ensures r.Fail? ==> r.error == AccountNotFound || r.error == NotionError
    ensures r == Fail(AccountNotFound) <==> forall i | 0 <= i < |roster| :: roster[i].cuenta != Some(n as real)
    ensures forall i | FirstRosterMatch(roster, n, i) ::
      && (r == Fail(NotionError) <==> roster[i].calificacion.NoGradeColumn?)
      && (r.Ok? ==> r.body == GradeText(roster[i].calificacion.richText))
  {
    var hits := RosterQuery(roster, n);
    RosterEmpty(roster, n);
    if hits == [] then Fail(AccountNotFound)
    else
      assert forall k | FirstRosterMatch(roster, n, k) :: hits[0] == roster[k] by {
        RosterHead(roster, n);
        var i :| FirstRosterMatch(roster, n, i) && hits[0] == roster[i];
        forall k | FirstRosterMatch(roster, n, k) ensures k == i {}
      }
      match hits[0].calificacion
      case NoGradeColumn => Fail(NotionError)
      case GradeColumn(richText) => Ok(GradeText(richText))
  }

  /**
   * The roster handlers see only what `parseInt` makes of the account number:
   * two non-empty account strings that parse alike get the same answers.
   */
  lemma SameNumberSameAnswer(store: Store, a: string, b: string)
    requires a != "" && b != "" && ParseInt(a) == ParseInt(b)
    ensures ValidaEnLista(store, Some(a)) == ValidaEnLista(store, Some(b))
    ensures CalificacionFinal(store, Some(a)) == CalificacionFinal(store, Some(b))
  {
  }

  /**
   * The roster matches numbers, the grade databases match text: "012345678"
   * and "12345678" find the same roster page, yet a grade page filed under
   * "12345678" is not found for "012345678".
   */
  lemma RosterNumericCategoriesTextual(store: Store)
    ensures ParseInt("012345678") == ParseInt("12345678")
    ensures ValidaEnLista(store, Some("012345678")) == ValidaEnLista(store, Some("12345678"))
    ensures CalificacionFinal(store, Some("012345678")) == CalificacionFinal(store, Some("12345678"))
    ensures Query([GradePage("12345678", map[])], "012345678") == []
    ensures Query([GradePage("12345678", map[])], "12345678") != []
  {
    LeadingZeroParsesAlike();
    SameNumberSameAnswer(store, "012345678", "12345678");
    TextQueryMissesLeadingZero();
  }

  /** "012345678" and "12345678" are the same number for `parseInt`. */
  lemma LeadingZeroParsesAlike()
    ensures ParseInt("012345678") == ParseInt("12345678")
  {
    assert "012345678" == ['0'] + "12345678";
    ParseIntLeadingZero("12345678");
  }

  /** They are different texts for a grade query. */
  lemma TextQueryMissesLeadingZero()
    ensures Query([GradePage("12345678", map[])], "012345678") == []
    ensures Query([GradePage("12345678", map[])], "12345678") != []
  {
  }
}
