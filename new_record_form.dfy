/** The schema the new-record form actually validates with: three text
    fields checked only for length (`activo` at least 1 code unit,
    `inicio` and `fin` at least 4), and the submit handler that passes the
    validated values on unchanged. */
module NewRecordForm {
  import opened Wrappers
  import opened Js
  import opened Zod

  /** The form's values; its inputs are text fields, so all three are strings. */
  datatype Values = Values(activo: string, inicio: string, fin: string)

  const DefaultValues := Values("", "", "")

  const ActivoMessage := "Activo is required"
  const InicioMessage := "Inicio must be a valid year"
  const FinMessage := "Fin must be a valid year"

  function Issues(v: Values): seq<Issue> {
    StringMin(Activo, Str(v.activo), 1, ActivoMessage) +
    StringMin(Inicio, Str(v.inicio), 4, InicioMessage) +
    StringMin(Fin, Str(v.fin), 4, FinMessage)
  }

  /** `formSchema.safeParse` on the form values. */
  function Validate(v: Values): (r: Result<Values, seq<Issue>>)
    ensures r.Success? <==> v.activo != "" && Utf16Length(v.inicio) >= 4 && Utf16Length(v.fin) >= 4
    ensures r.Success? ==> r.value == v
    ensures r.Failure? ==> r.error == Issues(v) && r.error != []
  {
    var issues := Issues(v);
    if issues == [] then Success(v) else Failure(issues)
  }

  /** What `onSubmit` receives when the form is submitted with `v`:
      the values themselves when they validate, otherwise no call. */
  function Submitted(v: Values): (r: Option<Values>)
    ensures r.Some? <==> Validate(v).Success?
    ensures r.Some? ==> r.value == v
  {
    match Validate(v)
    case Success(values) => Some(values)
    case Failure(_) => None
  }

  /** Each field is checked on its own: the issues on a field are exactly its
      own length check, and there is no rule between `inicio` and `fin`. */
  lemma FieldScoped(v: Values)
    ensures IssuesAt(Issues(v), Activo) == StringMin(Activo, Str(v.activo), 1, ActivoMessage)
    ensures IssuesAt(Issues(v), Inicio) == StringMin(Inicio, Str(v.inicio), 4, InicioMessage)
    ensures IssuesAt(Issues(v), Fin) == StringMin(Fin, Str(v.fin), 4, FinMessage)
  {
    IssuesAtThree(StringMin(Activo, Str(v.activo), 1, ActivoMessage),
                  StringMin(Inicio, Str(v.inicio), 4, InicioMessage),
                  StringMin(Fin, Str(v.fin), 4, FinMessage));
  }

  /** An untouched form fails on all three fields, with the schema's messages. */
  lemma UntouchedFormFails()
    ensures Validate(DefaultValues) == Failure([
              Issue(Activo, TooSmall, Some(ActivoMessage)),
              Issue(Inicio, TooSmall, Some(InicioMessage)),
              Issue(Fin, TooSmall, Some(FinMessage))])
  {
    assert Issues(DefaultValues) == [
      Issue(Activo, TooSmall, Some(ActivoMessage)),
      Issue(Inicio, TooSmall, Some(InicioMessage)),
      Issue(Fin, TooSmall, Some(FinMessage))];
  }

  /** Length is the only check on the years: any four characters pass,
      digits or not, and in any order of the two years. */
  lemma AnyFourCharactersPass(activo: string, inicio: string, fin: string)
    requires activo != "" && |inicio| >= 4 && |fin| >= 4
    ensures Submitted(Values(activo, inicio, fin)) == Some(Values(activo, inicio, fin))
  {
  }

  /** "abcd" is accepted as a year. */
  lemma LettersPassAsYear()
    ensures Validate(Values("AAPL", "abcd", "wxyz")).Success?
  {
    assert Utf16Length("abcd") >= 4 && Utf16Length("wxyz") >= 4;
  }

  /** Lengths are counted in UTF-16 code units: two characters outside the
      Basic Multilingual Plane already make a year long enough, and no
      single character does. */
  lemma CodeUnitLength(c: char, d: char)
    requires c as int >= 0x1_0000 && d as int >= 0x1_0000
    ensures Validate(Values("A", [c, d], [c, d])).Success?
    ensures Validate(Values("A", [c], [c, d])).Failure?
  {
    assert Utf16Length([c, d]) == 4 by {
      assert [c, d][1..] == [d];
      assert [d][1..] == [];
    }
    assert Utf16Length([c]) == 2 by {
      assert [c][1..] == [];
    }
  }
}
