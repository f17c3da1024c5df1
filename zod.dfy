/** The part of the zod schema library the two record forms use: issues
    reported per field, and the `z.string().min(n)` check. */
module Zod {
  import opened Wrappers
  import opened Js

  /** The three fields of a new-record form. */
  datatype Field = Activo | Inicio | Fin

  datatype Code = InvalidType | TooSmall | NotInteger | BelowMinimum | AboveMaximum

  /** One validation issue: the field it is reported on, its kind, and the
      schema's own message (`None` where zod's default text applies). */
  datatype Issue = Issue(path: Field, code: Code, message: Option<string>)

  predicate AllOn(issues: seq<Issue>, f: Field) {
    forall i :: 0 <= i < |issues| ==> issues[i].path == f
  }

  /** `z.string().min(n, { message })` on field `f`: a non-string is a type
      error; a string shorter than `n` UTF-16 code units is too small. */
  function StringMin(f: Field, v: JsValue, n: nat, message: string): (issues: seq<Issue>)
    ensures issues == [] <==> v.Str? && Utf16Length(v.s) >= n
    ensures !v.Str? ==> issues == [Issue(f, InvalidType, None)]
    ensures v.Str? && Utf16Length(v.s) < n ==> issues == [Issue(f, TooSmall, Some(message))]
    ensures AllOn(issues, f)
  {
    if !v.Str? then [Issue(f, InvalidType, None)]
    else if Utf16Length(v.s) < n then [Issue(f, TooSmall, Some(message))]
    else []
  }

  /** The issues reported on field `f`, in order. */
  function IssuesAt(issues: seq<Issue>, f: Field): (r: seq<Issue>)
    ensures AllOn(r, f) && |r| <= |issues|
  {
    if issues == [] then []
    else (if issues[0].path == f then [issues[0]] else []) + IssuesAt(issues[1..], f)
  }

  lemma {:induction false} IssuesAtConcat(a: seq<Issue>, b: seq<Issue>, f: Field)
    ensures IssuesAt(a + b, f) == IssuesAt(a, f) + IssuesAt(b, f)
  {
    if a != [] {
      assert (a + b)[1..] == a[1..] + b;
      IssuesAtConcat(a[1..], b, f);
    } else {
      assert a + b == b;
    }
  }

  /** Issues all reported on `g` contribute exactly themselves to `g` and
      nothing to any other field. */
  lemma {:induction false} IssuesAtSingleField(a: seq<Issue>, g: Field, f: Field)
    requires AllOn(a, g)
    ensures IssuesAt(a, f) == if f == g then a else []
  {
    if a != [] {
      IssuesAtSingleField(a[1..], g, f);
      if f == g {
        assert [a[0]] + a[1..] == a;
      }
    }
  }

  /** In issues built field by field, each field sees only its own part. */
  lemma IssuesAtThree(a: seq<Issue>, b: seq<Issue>, c: seq<Issue>)
    requires AllOn(a, Activo) && AllOn(b, Inicio) && AllOn(c, Fin)
    ensures IssuesAt(a + b + c, Activo) == a
    ensures IssuesAt(a + b + c, Inicio) == b
    ensures IssuesAt(a + b + c, Fin) == c
  {
    forall f | f in {Activo, Inicio, Fin}
      ensures IssuesAt(a + b + c, f) == IssuesAt(a, f) + IssuesAt(b, f) + IssuesAt(c, f)
    {
      IssuesAtConcat(a + b, c, f);
      IssuesAtConcat(a, b, f);
    }
    forall f | f in {Activo, Inicio, Fin}
      ensures IssuesAt(a, f) == (if f == Activo then a else [])
      ensures IssuesAt(b, f) == (if f == Inicio then b else [])
      ensures IssuesAt(c, f) == (if f == Fin then c else [])
    {
      IssuesAtSingleField(a, Activo, f);
      IssuesAtSingleField(b, Inicio, f);
      IssuesAtSingleField(c, Fin, f);
    }
  }
}
