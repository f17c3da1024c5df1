/** The exported numeric record schema: `activo` a non-empty string,
    `inicio` and `fin` integer years between 1900 and the current year,
    both bounds inclusive. The current year is read once, when the schema
    is built, and is a parameter here. */
module NewRecordFormSchema {
  import opened Wrappers
  import opened Js
  import opened Zod

  const MinYear := 1900

  datatype Input = Input(activo: JsValue, inicio: JsValue, fin: JsValue)

  /** The parsed form: the schema adds and drops nothing. */
  datatype Output = Output(activo: string, inicio: int, fin: int)

  predicate IsInteger(x: real) {
    x.Floor as real == x
  }

  /** A year field as the schema accepts it. */
  predicate ValidYear(v: JsValue, currentYear: int) {
    v.Number? && IsInteger(v.x) && MinYear as real <= v.x <= currentYear as real
  }

  /** "inicio" / "fin", as the year messages name them. */
  function YearName(f: Field): string
    requires f != Activo
  {
    if f == Inicio then "inicio" else "fin"
  }

  function Message(f: Field, code: Code, currentYear: int): Option<string>
    requires f != Activo
  {
    match code
    case InvalidType => Some("El año de " + YearName(f) + " debe ser un número")
    case NotInteger => Some("El año de " + YearName(f) + " debe ser un número entero")
    case BelowMinimum => Some("El año de " + YearName(f) + " debe ser mayor o igual a 1900")
    case AboveMaximum =>
      Some("El año de " + YearName(f) + " no puede ser mayor al año actual (" + IntToString(currentYear) + ")")
    case TooSmall => None
  }

  function YearIssue(f: Field, code: Code, currentYear: int): Issue
    requires f != Activo
  {
    Issue(f, code, Message(f, code, currentYear))
  }

  /** The type error for a value that is not a number. A missing value
      (`undefined`) takes zod's own "Required" message, since the schema
      sets no `required_error`; any other value (`null`, NaN, a string)
      takes the schema's `invalid_type_error`. */
  function TypeIssue(f: Field, v: JsValue, currentYear: int): Issue
    requires f != Activo
  {
    if v.Undefined? then Issue(f, InvalidType, None) else YearIssue(f, InvalidType, currentYear)
  }

  /** `z.number().int().gte(1900).lte(currentYear)` on field `f`: a value
      that is not a number (NaN included) gets the type error alone; a
      number gets one issue per failed check, in check order. */
  function YearIssues(f: Field, v: JsValue, currentYear: int): (issues: seq<Issue>)
    requires f != Activo
    ensures issues == [] <==> ValidYear(v, currentYear)
    ensures v.Undefined? ==> issues == [Issue(f, InvalidType, None)]
    ensures !v.Number? && !v.Undefined? ==>
              issues == [Issue(f, InvalidType, Some("El año de " + YearName(f) + " debe ser un número"))]
    ensures v.Number? ==>
              (YearIssue(f, NotInteger, currentYear) in issues <==> !IsInteger(v.x)) &&
              (YearIssue(f, BelowMinimum, currentYear) in issues <==> v.x < MinYear as real) &&
              (YearIssue(f, AboveMaximum, currentYear) in issues <==> v.x > currentYear as real)
    ensures AllOn(issues, f)
  {
    if !v.Number? then [TypeIssue(f, v, currentYear)]
    else
      (if IsInteger(v.x) then [] else [YearIssue(f, NotInteger, currentYear)]) +
      (if v.x < MinYear as real then [YearIssue(f, BelowMinimum, currentYear)] else []) +
      (if v.x > currentYear as real then [YearIssue(f, AboveMaximum, currentYear)] else [])
  }

  function Issues(input: Input, currentYear: int): seq<Issue> {
    StringMin(Activo, input.activo, 1, "Activo es requerido") +
    YearIssues(Inicio, input.inicio, currentYear) +
    YearIssues(Fin, input.fin, currentYear)
  }

  /** `formSchema.safeParse`. */
  function SafeParse(input: Input, currentYear: int): (r: Result<Output, seq<Issue>>)
    ensures r.Success? <==>
              input.activo.Str? && input.activo.s != "" &&
              ValidYear(input.inicio, currentYear) && ValidYear(input.fin, currentYear)
    ensures r.Success? ==>
              r.value.activo == input.activo.s &&
              r.value.inicio as real == input.inicio.x && r.value.fin as real == input.fin.x
    ensures r.Failure? ==> r.error == Issues(input, currentYear) && r.error != []
  {
    var issues := Issues(input, currentYear);
    if issues == [] then
      Success(Output(input.activo.s, input.inicio.x.Floor, input.fin.x.Floor))
    else Failure(issues)
  }

  /** Errors are field-scoped: the issues on each field are exactly that
      field's own check, whatever the other fields hold. */
  lemma FieldScoped(input: Input, currentYear: int)
    ensures IssuesAt(Issues(input, currentYear), Activo) == StringMin(Activo, input.activo, 1, "Activo es requerido")
    ensures IssuesAt(Issues(input, currentYear), Inicio) == YearIssues(Inicio, input.inicio, currentYear)
    ensures IssuesAt(Issues(input, currentYear), Fin) == YearIssues(Fin, input.fin, currentYear)
  {
    IssuesAtThree(StringMin(Activo, input.activo, 1, "Activo es requerido"),
                  YearIssues(Inicio, input.inicio, currentYear),
                  YearIssues(Fin, input.fin, currentYear));
  }

  /** There is no rule between the two years: an end year before the start
      year is accepted when both are in range. */
  lemma EndBeforeStartAccepted(activo: string, inicio: int, fin: int, currentYear: int)
    requires activo != ""
    requires MinYear <= fin < inicio <= currentYear
    ensures SafeParse(Input(Str(activo), Number(inicio as real), Number(fin as real)), currentYear)
            == Success(Output(activo, inicio, fin))
  {
  }

  /** Both bounds are inclusive: 1900 and the current year pass, 1899 and
      the next year fail, for either field. */
  lemma BoundsInclusive(currentYear: int)
    requires currentYear >= MinYear
    ensures ValidYear(Number(MinYear as real), currentYear)
    ensures ValidYear(Number(currentYear as real), currentYear)
    ensures !ValidYear(Number((MinYear - 1) as real), currentYear)
    ensures !ValidYear(Number((currentYear + 1) as real), currentYear)
  {
  }

  /** A start year of 1800 is refused with the minimum-year message on
      `inicio`, before any request could be made. */
  lemma StartBelow1900Rejected(activo: JsValue, fin: JsValue, currentYear: int)
    ensures var r := SafeParse(Input(activo, Number(1800.0), fin), currentYear);
            r.Failure? && YearIssue(Inicio, BelowMinimum, currentYear) in r.error
  {
  }
}
