/**
 * The part of Python's `str.format(**params)` that endpoint templates use:
 * named replacement fields `{name}` and the escapes `{{` and `}}`.
 *
 * A template is parsed into a sequence of segments, one literal character or
 * one field each. `Parse` fails (None) on every template this subset does not
 * describe: a lone `{` or `}`, an empty field or one made of ASCII digits
 * only (positional arguments), a field with a format spec, conversion,
 * attribute or index. A field made only of other Unicode decimal digits
 * (such as `{٣}`) is positional in Python but is read here as a keyword field.
 */
module Template {
  import opened Wrappers
  import Strings

  datatype Segment = Lit(c: char) | Field(name: string)

  /** A character allowed in a keyword field name of this subset. */
  predicate IsNameChar(c: char) {
    c != '{' && c != '}' && c != '[' && c != '.' && c != ':' && c != '!'
  }

  /** A field read as a keyword argument: not empty and not all ASCII digits. */
  predicate IsFieldName(n: string) {
    && |n| > 0
    && (forall i :: 0 <= i < |n| ==> IsNameChar(n[i]))
    && exists i :: 0 <= i < |n| && !Strings.IsDigit(n[i])
  }

  predicate ValidSegments(segs: seq<Segment>) {
    forall i :: 0 <= i < |segs| && segs[i].Field? ==> IsFieldName(segs[i].name)
  }

  /** Index of the first `}` in `t` at or after `from`, or `|t|` when there is none. */
  function CloseIndex(t: string, from: nat): (k: nat)
    requires from <= |t|
    ensures from <= k <= |t|
    ensures k < |t| ==> t[k] == '}'
    ensures forall i :: from <= i < k ==> t[i] != '}'
    decreases |t| - from
  {
    if from == |t| || t[from] == '}' then from else CloseIndex(t, from + 1)
  }

  function Cons(s: Segment, rest: Option<seq<Segment>>): Option<seq<Segment>> {
    match rest
    case None => None
    case Some(segs) => Some([s] + segs)
  }

  /** Splits a format string into segments, left to right, as Python's format-string scanner does. */
  function Parse(t: string): Option<seq<Segment>>
    decreases |t|
  {
    if t == [] then Some([])
    else if t[0] == '{' && |t| >= 2 && t[1] == '{' then Cons(Lit('{'), Parse(t[2..]))
    else if t[0] == '}' && |t| >= 2 && t[1] == '}' then Cons(Lit('}'), Parse(t[2..]))
    else if t[0] == '}' then None
    else if t[0] == '{' then
      var k := CloseIndex(t, 1);
      if k < |t| && IsFieldName(t[1..k]) then Cons(Field(t[1..k]), Parse(t[k + 1..])) else None
    else Cons(Lit(t[0]), Parse(t[1..]))
  }

  /** A template whose every field is a plain keyword field. */
  predicate WellFormed(t: string) {
    Parse(t).Some?
  }

  /** The text of one segment inside a format string. */
  function Render(s: Segment): string {
    match s
    case Lit(c) => if c == '{' || c == '}' then [c, c] else [c]
    case Field(n) => "{" + n + "}"
  }

  /** The format string that denotes a sequence of segments. */
  function Unparse(segs: seq<Segment>): string {
    if segs == [] then "" else Render(segs[0]) + Unparse(segs[1..])
  }

  lemma {:induction false} UnparseAppend(a: seq<Segment>, b: seq<Segment>)
    ensures Unparse(a + b) == Unparse(a) + Unparse(b)
  {
    if a == [] {
      assert a + b == b;
    } else {
      assert (a + b)[0] == a[0] && (a + b)[1..] == a[1..] + b;
      UnparseAppend(a[1..], b);
    }
  }

  /** Every valid segment sequence is parsed back from its format string. */
  lemma {:induction false} ParseUnparse(segs: seq<Segment>)
    requires ValidSegments(segs)
    ensures Parse(Unparse(segs)) == Some(segs)
  {
    if segs != [] {
      var rest := Unparse(segs[1..]);
      var t := Unparse(segs);
      assert t == Render(segs[0]) + rest;
      ParseUnparse(segs[1..]);
      match segs[0]
      case Lit(c) =>
        if c == '{' {
          assert t[0] == '{' && t[1] == '{' && t[2..] == rest;
          assert Parse(t) == Cons(Lit('{'), Parse(rest));
          assert segs == [segs[0]] + segs[1..];
        } else if c == '}' {
          assert t[0] == '}' && t[1] == '}' && t[2..] == rest;
          assert Parse(t) == Cons(Lit('}'), Parse(rest));
          assert segs == [segs[0]] + segs[1..];
        } else {
          assert t[0] == c && t[1..] == rest;
          assert Parse(t) == Cons(Lit(c), Parse(rest));
          assert segs == [segs[0]] + segs[1..];
        }
      case Field(n) =>
        assert IsFieldName(n);
        assert t[1] == n[0] && IsNameChar(n[0]);
        var k := CloseIndex(t, 1);
        assert t[|n| + 1] == '}';
        assert forall i :: 1 <= i < |n| + 1 ==> t[i] == n[i - 1];
        assert k == |n| + 1;
        assert t[1..k] == n;
        assert t[k + 1..] == rest;
        assert t[0] == '{' && !(t[1] == '{');
        assert Parse(t) == Cons(Field(n), Parse(rest));
        assert segs == [segs[0]] + segs[1..];
    }
  }

  /** Every well-formed template is the format string of its own segments. */
  lemma {:induction false} UnparseParse(t: string)
    requires WellFormed(t)
    ensures ValidSegments(Parse(t).value)
    ensures Unparse(Parse(t).value) == t
    decreases |t|
  {
    if t != [] {
      var segs := Parse(t).value;
      if t[0] == '{' && |t| >= 2 && t[1] == '{' {
        UnparseParse(t[2..]);
        assert segs[1..] == Parse(t[2..]).value;
        assert t == "{{" + t[2..];
      } else if t[0] == '}' && |t| >= 2 && t[1] == '}' {
        UnparseParse(t[2..]);
        assert segs[1..] == Parse(t[2..]).value;
        assert t == "}}" + t[2..];
      } else if t[0] == '{' {
        var k := CloseIndex(t, 1);
        UnparseParse(t[k + 1..]);
        assert segs[1..] == Parse(t[k + 1..]).value;
        assert t == "{" + t[1..k] + "}" + t[k + 1..];
      } else {
        UnparseParse(t[1..]);
        assert segs[1..] == Parse(t[1..]).value;
        assert t == [t[0]] + t[1..];
      }
    }
  }

  /** Two well-formed templates side by side parse as their segments side by side. */
  lemma ParseConcat(a: string, b: string)
    requires WellFormed(a) && WellFormed(b)
    ensures WellFormed(a + b) && Parse(a + b).value == Parse(a).value + Parse(b).value
  {
    var sa, sb := Parse(a).value, Parse(b).value;
    UnparseParse(a);
    UnparseParse(b);
    UnparseAppend(sa, sb);
    ParseUnparse(sa + sb);
  }

  /** The outcome of `format`: the text, or the KeyError for a field with no argument. */
  datatype Formatted = Text(text: string) | KeyMissing(key: string)

  /** Every field of `segs` has an entry in `params`. */
  predicate Supplied(segs: seq<Segment>, params: map<string, string>) {
    forall i :: 0 <= i < |segs| && segs[i].Field? ==> segs[i].name in params
  }

  /** `key` is the first field of `segs`, left to right, that has no entry in `params`. */
  predicate FirstMissing(segs: seq<Segment>, params: map<string, string>, key: string) {
    exists i :: 0 <= i < |segs| && segs[i] == Field(key) && key !in params && Supplied(segs[..i], params)
  }

  /**
   * Fills the fields left to right. The first field without an argument raises
   * KeyError naming it; otherwise each field becomes its argument and each
   * literal stays.
   */
  function Substitute(segs: seq<Segment>, params: map<string, string>): (r: Formatted)
    ensures r.Text? <==> Supplied(segs, params)
    ensures r.KeyMissing? ==> FirstMissing(segs, params, r.key)
  {
    if segs == [] then Text("")
    else if segs[0].Field? && segs[0].name !in params then
      assert Supplied(segs[..0], params);
      KeyMissing(segs[0].name)
    else
      var piece := if segs[0].Lit? then [segs[0].c] else params[segs[0].name];
      match Substitute(segs[1..], params)
      case Text(rest) => Text(piece + rest)
      case KeyMissing(k) =>
        assert exists i :: 1 <= i < |segs| && segs[i] == Field(k) && k !in params && Supplied(segs[..i], params) by {
          var j :| 0 <= j < |segs[1..]| && segs[1..][j] == Field(k) && k !in params && Supplied(segs[1..][..j], params);
          assert segs[..j + 1] == [segs[0]] + segs[1..][..j];
        }
        KeyMissing(k)
  }

  /** Filling is done segment by segment: the first missing key of `a + b` is looked for in `a` first. */
  lemma {:induction false} SubstituteAppend(a: seq<Segment>, b: seq<Segment>, params: map<string, string>)
    ensures Substitute(a + b, params) ==
      match Substitute(a, params)
      case KeyMissing(k) => KeyMissing(k)
      case Text(x) =>
        match Substitute(b, params)
        case KeyMissing(k) => KeyMissing(k)
        case Text(y) => Text(x + y)
  {
    if a != [] {
      assert (a + b)[0] == a[0] && (a + b)[1..] == a[1..] + b;
      SubstituteAppend(a[1..], b, params);
      if !(a[0].Field? && a[0].name !in params) {
        var piece := if a[0].Lit? then [a[0].c] else params[a[0].name];
        match Substitute(a[1..], params)
        case KeyMissing(k) =>
        case Text(x) =>
          match Substitute(b, params)
          case KeyMissing(k) =>
          case Text(y) => assert piece + (x + y) == (piece + x) + y;
      }
    } else {
      assert a + b == b;
    }
  }

  /** The template `t` has a field named `n`. */
  predicate References(t: string, n: string)
    requires WellFormed(t)
  {
    Field(n) in Parse(t).value
  }

  /** `t.format(**params)` for a well-formed template. */
  function Format(t: string, params: map<string, string>): (r: Formatted)
    requires WellFormed(t)
    ensures r.Text? <==> forall n :: References(t, n) ==> n in params
    ensures r.KeyMissing? ==> References(t, r.key) && r.key !in params
    ensures r.KeyMissing? ==> FirstMissing(Parse(t).value, params, r.key)
  {
    var segs := Parse(t).value;
    var r := Substitute(segs, params);
    assert (forall n :: References(t, n) ==> n in params) ==> Supplied(segs, params) by {
      if forall n :: References(t, n) ==> n in params {
        forall i | 0 <= i < |segs| && segs[i].Field?
          ensures segs[i].name in params
        {
          assert References(t, segs[i].name);
        }
      }
    }
    r
  }

  /** The literal segments that spell `s`. */
  function Literals(s: string): seq<Segment> {
    if s == [] then [] else [Lit(s[0])] + Literals(s[1..])
  }

  /** `s` with every brace doubled, so that formatting gives back `s`. */
  function Escape(s: string): string {
    Unparse(Literals(s))
  }

  predicate NoBraces(s: string) {
    forall i :: 0 <= i < |s| ==> s[i] != '{' && s[i] != '}'
  }

  lemma {:induction false} LiteralsValid(s: string)
    ensures ValidSegments(Literals(s))
  {
    if s != [] {
      LiteralsValid(s[1..]);
    }
  }

  lemma {:induction false} SubstituteLiterals(s: string, params: map<string, string>)
    ensures Substitute(Literals(s), params) == Text(s)
  {
    if s != [] {
      SubstituteLiterals(s[1..], params);
      assert [s[0]] + s[1..] == s;
    }
  }

  /** A template without fields gives its text with `{{` and `}}` read as single braces, whatever the arguments. */
  lemma FormatEscape(s: string, params: map<string, string>)
    ensures WellFormed(Escape(s)) && Format(Escape(s), params) == Text(s)
  {
    LiteralsValid(s);
    ParseUnparse(Literals(s));
    SubstituteLiterals(s, params);
  }

  lemma {:induction false} EscapeNoBraces(s: string)
    requires NoBraces(s)
    ensures Escape(s) == s
  {
    if s != [] {
      EscapeNoBraces(s[1..]);
      assert Escape(s) == [s[0]] + Escape(s[1..]);
      assert [s[0]] + s[1..] == s;
    }
  }

  /** A template without braces is returned unchanged. */
  lemma FormatNoBraces(t: string, params: map<string, string>)
    requires NoBraces(t)
    ensures WellFormed(t) && Format(t, params) == Text(t)
  {
    EscapeNoBraces(t);
    FormatEscape(t, params);
  }

  lemma {:induction false} SubstituteAgreeing(segs: seq<Segment>, p: map<string, string>, q: map<string, string>)
    requires forall i :: 0 <= i < |segs| && segs[i].Field? ==>
      (segs[i].name in p <==> segs[i].name in q) && (segs[i].name in p ==> p[segs[i].name] == q[segs[i].name])
    ensures Substitute(segs, p) == Substitute(segs, q)
  {
    if segs != [] {
      SubstituteAgreeing(segs[1..], p, q);
    }
  }

  /** Arguments that no field names do not affect the result. */
  lemma FormatIgnoresUnused(t: string, p: map<string, string>, q: map<string, string>)
    requires WellFormed(t)
    requires forall n :: References(t, n) ==> (n in p <==> n in q) && (n in p ==> p[n] == q[n])
    ensures Format(t, p) == Format(t, q)
  {
    var segs := Parse(t).value;
    forall i | 0 <= i < |segs| && segs[i].Field?
      ensures (segs[i].name in p <==> segs[i].name in q) && (segs[i].name in p ==> p[segs[i].name] == q[segs[i].name])
    {
      assert References(t, segs[i].name);
    }
    SubstituteAgreeing(segs, p, q);
  }

  /** A field that occurs twice, anywhere in the template, receives the same argument at both places. */
  lemma FormatRepeatedField(n: string, pre: string, mid: string, post: string, params: map<string, string>)
    requires IsFieldName(n) && n in params
    requires WellFormed(pre) && Format(pre, params).Text?
    requires WellFormed(mid) && Format(mid, params).Text?
    requires WellFormed(post) && Format(post, params).Text?
    ensures var f := "{" + n + "}";
      var t := pre + f + mid + f + post;
      WellFormed(t) &&
      Format(t, params) ==
        Text(Format(pre, params).text + params[n] + Format(mid, params).text + params[n] + Format(post, params).text)
  {
    var f := "{" + n + "}";
    var hole := [Field(n)];
    assert Unparse(hole) == f;
    ParseUnparse(hole);
    ParseConcat(pre, f);
    ParseConcat(pre + f, mid);
    ParseConcat(pre + f + mid, f);
    ParseConcat(pre + f + mid + f, post);
    var p, m, q := Parse(pre).value, Parse(mid).value, Parse(post).value;
    assert Substitute(hole, params) == Text(params[n] + "");
    assert params[n] + "" == params[n];
    SubstituteAppend(p, hole, params);
    SubstituteAppend(p + hole, m, params);
    SubstituteAppend(p + hole + m, hole, params);
    SubstituteAppend(p + hole + m + hole, q, params);
  }

  lemma UnparseOneField(prefix: string, field: string)
    requires NoBraces(prefix)
    ensures Unparse(Literals(prefix) + [Field(field)]) == prefix + "{" + field + "}"
  {
    var lit := Literals(prefix);
    var hole := [Field(field)];
    EscapeNoBraces(prefix);
    UnparseAppend(lit, hole);
    assert Unparse(hole) == Render(Field(field)) + Unparse([]);
    assert prefix + ("{" + field + "}") == prefix + "{" + field + "}";
  }

  lemma ParseOneField(prefix: string, field: string)
    requires NoBraces(prefix) && IsFieldName(field)
    ensures WellFormed(prefix + "{" + field + "}")
    ensures Parse(prefix + "{" + field + "}").value == Literals(prefix) + [Field(field)]
  {
    UnparseOneField(prefix, field);
    LiteralsValid(prefix);
    assert ValidSegments(Literals(prefix) + [Field(field)]);
    ParseUnparse(Literals(prefix) + [Field(field)]);
  }

  /** A brace-free prefix followed by one field: the prefix and the field's argument, or the KeyError naming the field. */
  lemma FormatOneField(prefix: string, field: string, params: map<string, string>)
    requires NoBraces(prefix) && IsFieldName(field)
    ensures WellFormed(prefix + "{" + field + "}")
    ensures Format(prefix + "{" + field + "}", params) ==
      if field in params then Text(prefix + params[field]) else KeyMissing(field)
  {
    ParseOneField(prefix, field);
    var lit := Literals(prefix);
    var hole := [Field(field)];
    SubstituteLiterals(prefix, params);
    SubstituteAppend(lit, hole, params);
    if field in params {
      assert Substitute(hole, params) == Text(params[field] + "");
      assert params[field] + "" == params[field];
    }
  }
}
