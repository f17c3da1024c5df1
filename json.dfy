/** The analysis records kept by the dashboard and the text they are stored
    as. `JSON.stringify` / `JSON.parse` are modelled by a canonical compact
    JSON encoding of exactly the record fields kept here, and a parser for
    that encoding; the round trip `Parse(Stringify(rs)) == Some(rs)` is
    proved rather than taken on trust. */
module Json {
  import opened Wrappers
  import opened Js

  /** An analysis record, identified by `id`. The nested `resultado` metrics
      and the timestamps are not part of this model. */
  datatype Record = Record(id: int, documentId: string, activo: string, inicio: string, fin: string)

  /** What follows a prefix. Stated over plain variables, so that the
      proofs below never reason about the contents of a concatenation of
      encoder outputs. */
  lemma DropPrefix(p: string, s: string)
    ensures (p + s)[|p|..] == s
  {
  }

  lemma Regroup(a: string, b: string, c: string)
    ensures a + b + c == a + (b + c)
  {
  }

  lemma Single<T>(s: seq<T>)
    requires |s| == 1
    ensures [s[0]] == s
  {
  }

  lemma HeadTail<T>(s: seq<T>)
    requires s != []
    ensures [s[0]] + s[1..] == s
  {
  }

  /* ---------- strings ---------- */

  /** Characters of `s` with `"` and `\` escaped, followed by `k`. */
  function EscapeOnto(s: string, k: string): string {
    if s == [] then k
    else if s[0] == '"' || s[0] == '\\' then ['\\', s[0]] + EscapeOnto(s[1..], k)
    else [s[0]] + EscapeOnto(s[1..], k)
  }

  /** The string literal for `s`, followed by `k`. */
  function StringOnto(s: string, k: string): string {
    "\"" + EscapeOnto(s, "\"" + k)
  }

  /** Reads string contents up to the closing quote; returns the decoded
      string and what follows the quote. */
  function ParseChars(t: string): (r: Option<(string, string)>)
    ensures r.Some? ==> |r.value.1| < |t|
  {
    if t == [] then None
    else if t[0] == '"' then Some(([], t[1..]))
    else if t[0] == '\\' then
      if |t| < 2 || (t[1] != '"' && t[1] != '\\') then None
      else
        var p :- ParseChars(t[2..]);
        Some(([t[1]] + p.0, p.1))
    else
      var p :- ParseChars(t[1..]);
      Some(([t[0]] + p.0, p.1))
  }

  function ParseString(t: string): (r: Option<(string, string)>)
    ensures r.Some? ==> |r.value.1| < |t|
  {
    if t != [] && t[0] == '"' then ParseChars(t[1..]) else None
  }

  lemma {:induction false} ParseCharsEscape(s: string, k: string)
    ensures ParseChars(EscapeOnto(s, "\"" + k)) == Some((s, k))
  {
    if s != [] {
      var t := EscapeOnto(s, "\"" + k);
      ParseCharsEscape(s[1..], k);
      if s[0] == '"' || s[0] == '\\' {
        assert t == ['\\', s[0]] + EscapeOnto(s[1..], "\"" + k);
        DropPrefix(['\\', s[0]], EscapeOnto(s[1..], "\"" + k));
      } else {
        assert t == [s[0]] + EscapeOnto(s[1..], "\"" + k);
        DropPrefix([s[0]], EscapeOnto(s[1..], "\"" + k));
      }
      assert [s[0]] + s[1..] == s;
    }
  }

  /** A string literal reads back as the string it encodes, whatever follows it. */
  lemma ParseStringOnto(s: string, k: string)
    ensures ParseString(StringOnto(s, k)) == Some((s, k))
  {
    DropPrefix("\"", EscapeOnto(s, "\"" + k));
    ParseCharsEscape(s, k);
  }

  /* ---------- integers ---------- */

  /** Splits off the longest leading run of digits. */
  function TakeDigits(t: string): (r: (string, string))
    ensures AllDigits(r.0) && |r.0| + |r.1| == |t|
  {
    if t != [] && IsDigit(t[0]) then
      var p := TakeDigits(t[1..]);
      ([t[0]] + p.0, p.1)
    else ([], t)
  }

  function ParseNat(t: string): (r: Option<(nat, string)>)
    ensures r.Some? ==> |r.value.1| < |t|
  {
    var p := TakeDigits(t);
    if p.0 == [] then None else Some((DigitsValue(p.0), p.1))
  }

  function ParseInt(t: string): (r: Option<(int, string)>)
    ensures r.Some? ==> |r.value.1| < |t|
  {
    if t != [] && t[0] == '-' then
      var p :- ParseNat(t[1..]);
      var n: int := p.0;
      Some((-n, p.1))
    else
      var p :- ParseNat(t);
      Some((p.0 as int, p.1))
  }

  lemma {:induction false} TakeDigitsOnto(d: string, k: string)
    requires AllDigits(d)
    requires k == [] || !IsDigit(k[0])
    ensures TakeDigits(d + k) == (d, k)
  {
    if d != [] {
      assert (d + k)[1..] == d[1..] + k;
      TakeDigitsOnto(d[1..], k);
      assert [d[0]] + d[1..] == d;
    } else {
      assert d + k == k;
    }
  }

  lemma ParseNatOnto(n: nat, k: string)
    requires k == [] || !IsDigit(k[0])
    ensures ParseNat(Digits(n) + k) == Some((n, k))
  {
    TakeDigitsOnto(Digits(n), k);
    DigitsValueOfDigits(n);
  }

  lemma ParseNegativeOnto(i: int, k: string)
    requires i < 0
    requires k == [] || !IsDigit(k[0])
    ensures ParseInt(IntToString(i) + k) == Some((i, k))
  {
    var n: nat := -i;
    var d := Digits(n);
    assert IntToString(i) == "-" + d;
    Regroup("-", d, k);
    DropPrefix("-", d + k);
    ParseNatOnto(n, k);
  }

  lemma ParseNonNegativeOnto(i: int, k: string)
    requires i >= 0
    requires k == [] || !IsDigit(k[0])
    ensures ParseInt(IntToString(i) + k) == Some((i, k))
  {
    var t := IntToString(i) + k;
    assert t == Digits(i) + k;
    assert IsDigit(t[0]);
    ParseNatOnto(i, k);
  }

  /** A rendered integer reads back as itself when no digit follows it. */
  lemma ParseIntOnto(i: int, k: string)
    requires k == [] || !IsDigit(k[0])
    ensures ParseInt(IntToString(i) + k) == Some((i, k))
  {
    if i < 0 {
      ParseNegativeOnto(i, k);
    } else {
      ParseNonNegativeOnto(i, k);
    }
  }

  /* ---------- object members ---------- */

  /** Drops the literal `lit` from the front of `t`. */
  function Expect(lit: string, t: string): (r: Option<string>)
    ensures r.Some? ==> |r.value| == |t| - |lit|
  {
    if lit <= t then Some(t[|lit|..]) else None
  }

  lemma ExpectOnto(lit: string, k: string)
    ensures Expect(lit, lit + k) == Some(k)
  {
  }

  datatype Kind = IntKind | StrKind

  /** A member value: a JSON number holding an integer, or a JSON string. */
  datatype Value = IntValue(n: int) | StrValue(s: string)

  function KindOf(v: Value): Kind {
    if v.IntValue? then IntKind else StrKind
  }

  /** The kind of each value, in order. */
  function Kinds(vs: seq<Value>): (ks: seq<Kind>)
    ensures |ks| == |vs|
  {
    seq(|vs|, i requires 0 <= i < |vs| => KindOf(vs[i]))
  }

  lemma KindsSplit(vs: seq<Value>)
    requires vs != []
    ensures Kinds(vs)[0] == KindOf(vs[0]) && Kinds(vs)[1..] == Kinds(vs[1..])
  {
  }

  function ValueOnto(v: Value, k: string): string {
    match v
    case IntValue(n) => IntToString(n) + k
    case StrValue(s) => StringOnto(s, k)
  }

  function ParseValue(kind: Kind, t: string): (r: Option<(Value, string)>)
    ensures r.Some? ==> |r.value.1| < |t| && KindOf(r.value.0) == kind
  {
    match kind
    case IntKind =>
      var p :- ParseInt(t);
      Some((IntValue(p.0), p.1))
    case StrKind =>
      var p :- ParseString(t);
      Some((StrValue(p.0), p.1))
  }

  lemma ParseValueOnto(v: Value, k: string)
    requires k == [] || !IsDigit(k[0])
    ensures ParseValue(KindOf(v), ValueOnto(v, k)) == Some((v, k))
  {
    match v
    case IntValue(n) => ParseIntOnto(n, k);
    case StrValue(s) => ParseStringOnto(s, k);
  }

  /** One member `"key":value`, followed by `k`. */
  function MemberOnto(key: string, v: Value, k: string): string {
    StringOnto(key, ":" + ValueOnto(v, k))
  }

  /** Reads one member named `key` with a value of kind `kind`. */
  function ParseMember(key: string, kind: Kind, t: string): (r: Option<(Value, string)>)
    ensures r.Some? ==> |r.value.1| < |t| && KindOf(r.value.0) == kind
  {
    var name :- ParseString(t);
    if name.0 != key then None
    else
      var t1 :- Expect(":", name.1);
      ParseValue(kind, t1)
  }

  lemma ParseMemberOnto(key: string, v: Value, k: string)
    requires k == [] || !IsDigit(k[0])
    ensures ParseMember(key, KindOf(v), MemberOnto(key, v, k)) == Some((v, k))
  {
    ParseStringOnto(key, ":" + ValueOnto(v, k));
    ExpectOnto(":", ValueOnto(v, k));
    ParseValueOnto(v, k);
  }

  /** The members of an object, comma-separated, then the closing brace
      and `k`. */
  function MembersOnto(keys: seq<string>, vs: seq<Value>, k: string): string
    requires |keys| == |vs| >= 1
    decreases |keys|
  {
    if |keys| == 1 then MemberOnto(keys[0], vs[0], "}" + k)
    else MemberOnto(keys[0], vs[0], "," + MembersOnto(keys[1..], vs[1..], k))
  }

  /** Reads the members named `keys`, in that order, with values of the
      given kinds, through the closing brace. */
  function ParseMembers(keys: seq<string>, kinds: seq<Kind>, t: string): (r: Option<(seq<Value>, string)>)
    requires |keys| == |kinds| >= 1
    ensures r.Some? ==> |r.value.1| < |t| && |r.value.0| == |keys|
    decreases |keys|
  {
    var m :- ParseMember(keys[0], kinds[0], t);
    if |keys| == 1 then
      var t2 :- Expect("}", m.1);
      Some(([m.0], t2))
    else
      var t2 :- Expect(",", m.1);
      var more :- ParseMembers(keys[1..], kinds[1..], t2);
      Some(([m.0] + more.0, more.1))
  }

  /** A single member followed by the closing brace. */
  lemma ParseMembersLast(keys: seq<string>, vs: seq<Value>, t: string, k: string)
    requires |keys| == |vs| == 1
    requires ParseMember(keys[0], KindOf(vs[0]), t) == Some((vs[0], "}" + k))
    ensures ParseMembers(keys, Kinds(vs), t) == Some((vs, k))
  {
    ExpectOnto("}", k);
    KindsSplit(vs);
    Single(vs);
  }

  /** A member followed by a comma and the remaining members. */
  lemma ParseMembersNext(keys: seq<string>, vs: seq<Value>, t: string, rest: string, k: string)
    requires |keys| == |vs| >= 2
    requires ParseMember(keys[0], KindOf(vs[0]), t) == Some((vs[0], "," + rest))
    requires ParseMembers(keys[1..], Kinds(vs[1..]), rest) == Some((vs[1..], k))
    ensures ParseMembers(keys, Kinds(vs), t) == Some((vs, k))
  {
    ExpectOnto(",", rest);
    KindsSplit(vs);
    HeadTail(vs);
  }

  lemma ParseLastMemberOnto(keys: seq<string>, vs: seq<Value>, k: string)
    requires |keys| == |vs| == 1
    ensures ParseMembers(keys, Kinds(vs), MembersOnto(keys, vs, k)) == Some((vs, k))
  {
    ParseMemberOnto(keys[0], vs[0], "}" + k);
    ParseMembersLast(keys, vs, MembersOnto(keys, vs, k), k);
  }

  lemma {:induction false} ParseMembersOnto(keys: seq<string>, vs: seq<Value>, k: string)
    requires |keys| == |vs| >= 1
    ensures ParseMembers(keys, Kinds(vs), MembersOnto(keys, vs, k)) == Some((vs, k))
    decreases |keys|, 1
  {
    if |keys| == 1 {
      ParseLastMemberOnto(keys, vs, k);
    } else {
      ParseNextMemberOnto(keys, vs, k);
    }
  }

  lemma {:induction false} ParseNextMemberOnto(keys: seq<string>, vs: seq<Value>, k: string)
    requires |keys| == |vs| >= 2
    ensures ParseMembers(keys, Kinds(vs), MembersOnto(keys, vs, k)) == Some((vs, k))
    decreases |keys|, 0
  {
    var rest := MembersOnto(keys[1..], vs[1..], k);
    ParseMemberOnto(keys[0], vs[0], "," + rest);
    ParseMembersOnto(keys[1..], vs[1..], k);
    ParseMembersNext(keys, vs, MembersOnto(keys, vs, k), rest, k);
  }

  /* ---------- records ---------- */

  const RecordKeys: seq<string> := ["id", "documentId", "activo", "inicio", "fin"]
  const RecordKinds: seq<Kind> := [IntKind, StrKind, StrKind, StrKind, StrKind]

  function Fields(r: Record): (vs: seq<Value>)
    ensures Kinds(vs) == RecordKinds
  {
    [IntValue(r.id), StrValue(r.documentId), StrValue(r.activo), StrValue(r.inicio), StrValue(r.fin)]
  }

  /** The object literal for `r`, followed by `k`. */
  function RecordOnto(r: Record, k: string): string {
    "{" + MembersOnto(RecordKeys, Fields(r), k)
  }

  function ParseRecord(t: string): (r: Option<(Record, string)>)
    ensures r.Some? ==> |r.value.1| < |t|
  {
    var t1 :- Expect("{", t);
    var p :- ParseMembers(RecordKeys, RecordKinds, t1);
    var vs := p.0;
    if vs[0].IntValue? && vs[1].StrValue? && vs[2].StrValue? && vs[3].StrValue? && vs[4].StrValue? then
      Some((Record(vs[0].n, vs[1].s, vs[2].s, vs[3].s, vs[4].s), p.1))
    else None
  }

  lemma ParseRecordOnto(r: Record, k: string)
    ensures ParseRecord(RecordOnto(r, k)) == Some((r, k))
  {
    ExpectOnto("{", MembersOnto(RecordKeys, Fields(r), k));
    ParseMembersOnto(RecordKeys, Fields(r), k);
  }

  /* ---------- record lists ---------- */

  /** The comma-separated object literals of `rs`, followed by `k`. */
  function ItemsOnto(rs: seq<Record>, k: string): string
    decreases |rs|
  {
    if rs == [] then k
    else if |rs| == 1 then RecordOnto(rs[0], k)
    else RecordOnto(rs[0], "," + ItemsOnto(rs[1..], k))
  }

  /** `JSON.stringify` of a record list. */
  function Stringify(rs: seq<Record>): (t: string)
    ensures t != ""
  {
    "[" + ItemsOnto(rs, "]")
  }

  function ParseItems(t: string): (r: Option<seq<Record>>)
    ensures r.Some? ==> r.value != []
    decreases |t|
  {
    var p :- ParseRecord(t);
    if p.1 == "]" then Some([p.0])
    else if p.1 != [] && p.1[0] == ',' then
      var more :- ParseItems(p.1[1..]);
      Some([p.0] + more)
    else None
  }

  /** `JSON.parse` of a stored record list; `None` where it would throw.
      Only an array is accepted, and only `[]` reads as the empty list. */
  function Parse(t: string): (r: Option<seq<Record>>)
    ensures r.Some? ==> |t| >= 2 && t[0] == '['
    ensures r == Some([]) <==> t == "[]"
  {
    if t == "[]" then Some([])
    else if t != [] && t[0] == '[' then ParseItems(t[1..])
    else None
  }

  /** The last object of a list: it is followed by the closing bracket. */
  lemma ParseItemsLast(t: string, r: Record)
    requires ParseRecord(t) == Some((r, "]"))
    ensures ParseItems(t) == Some([r])
  {
  }

  /** An object followed by a comma and the rest of the list. */
  lemma ParseItemsCons(t: string, r: Record, rest: string, more: seq<Record>)
    requires ParseRecord(t) == Some((r, "," + rest))
    requires ParseItems(rest) == Some(more)
    ensures ParseItems(t) == Some([r] + more)
  {
    DropPrefix(",", rest);
  }

  lemma ParseLastItemOnto(rs: seq<Record>)
    requires |rs| == 1
    ensures ParseItems(ItemsOnto(rs, "]")) == Some(rs)
  {
    ParseRecordOnto(rs[0], "]");
    ParseItemsLast(ItemsOnto(rs, "]"), rs[0]);
    Single(rs);
  }

  /** The first of several objects reads back, up to the comma. */
  lemma ParseFirstItemOnto(rs: seq<Record>)
    requires |rs| >= 2
    ensures ParseRecord(ItemsOnto(rs, "]")) == Some((rs[0], "," + ItemsOnto(rs[1..], "]")))
  {
    ParseRecordOnto(rs[0], "," + ItemsOnto(rs[1..], "]"));
  }

  lemma {:induction false} ParseItemsOnto(rs: seq<Record>)
    requires rs != []
    ensures ParseItems(ItemsOnto(rs, "]")) == Some(rs)
    decreases |rs|, 1
  {
    if |rs| == 1 {
      ParseLastItemOnto(rs);
    } else {
      ParseNextItemOnto(rs);
    }
  }

  lemma {:induction false} ParseNextItemOnto(rs: seq<Record>)
    requires |rs| >= 2
    ensures ParseItems(ItemsOnto(rs, "]")) == Some(rs)
    decreases |rs|, 0
  {
    ParseFirstItemOnto(rs);
    ParseItemsOnto(rs[1..]);
    ParseItemsCons(ItemsOnto(rs, "]"), rs[0], ItemsOnto(rs[1..], "]"), rs[1..]);
    HeadTail(rs);
  }

  /** Round trip: parsing a stored snapshot gives back the list, in order. */
  lemma RoundTrip(rs: seq<Record>)
    ensures Parse(Stringify(rs)) == Some(rs)
  {
    if rs != [] {
      var t := Stringify(rs);
      ParseItemsOnto(rs);
      DropPrefix("[", ItemsOnto(rs, "]"));
      assert t[1] == '{';
    }
  }

  /** Distinct lists are stored as distinct text. */
  lemma StringifyInjective(rs: seq<Record>, ss: seq<Record>)
    requires Stringify(rs) == Stringify(ss)
    ensures rs == ss
  {
    RoundTrip(rs);
    RoundTrip(ss);
  }
}
