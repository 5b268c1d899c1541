/** `str.format(**values)` as the dialogue and message templates use it: `{name}` is
    replaced by the named value, `{{` and `}}` stand for single braces, and the first
    problem met while reading left to right decides the exception. Values are given
    already rendered by `str()`; a format spec or conversion after `:` or `!` is read
    past and not applied. */
module TemplateFormat {
  import opened Common

  datatype FormatOutcome =
    | Formatted(text: string)
    | KeyError(key: string)
    | IndexError
    | ValueError

  /** The outcome with `prefix` put in front of a formatted text. */
  function Prepend(prefix: string, o: FormatOutcome): (r: FormatOutcome)
    ensures r.Formatted? <==> o.Formatted?
    ensures r.Formatted? ==> r.text == prefix + o.text
    ensures !o.Formatted? ==> r == o
  {
    if o.Formatted? then Formatted(prefix + o.text) else o
  }

  /** Where the replacement field that starts just before `s` closes: the index of the first
      `}`, provided no `{` comes before it. */
  function FieldEnd(s: string): (r: Option<nat>)
    ensures r.Some? ==> r.value < |s| && s[r.value] == '}'
    ensures r.Some? ==> forall i :: 0 <= i < r.value ==> s[i] != '}' && s[i] != '{'
    ensures r.None? ==> forall i :: 0 <= i < |s| && s[i] == '}' ==> exists j :: 0 <= j < i && s[j] == '{'
    decreases |s|
  {
    if s == [] then None
    else if s[0] == '}' then Some(0)
    else if s[0] == '{' then None
    else
      match FieldEnd(s[1..])
      case None =>
        assert forall i :: 1 <= i < |s| && s[i] == '}' ==> exists j :: 0 <= j < i - 1 && s[1..][j] == '{';
        None
      case Some(n) => Some(n + 1)
  }

  /** The argument name of a field: the text before its first `:` or `!`. */
  function KeyOf(field: string): (key: string)
    ensures |key| <= |field| && key == field[..|key|]
    ensures ':' !in key && '!' !in key
    ensures |key| < |field| ==> field[|key|] == ':' || field[|key|] == '!'
    decreases |field|
  {
    if field == [] || field[0] == ':' || field[0] == '!' then []
    else [field[0]] + KeyOf(field[1..])
  }

  /** An argument name that `format(**values)` looks up by keyword; an empty or numeric
      name asks for a positional argument, of which there are none. */
  predicate IsKeywordName(key: string) {
    key != [] && !AllDigits(key)
  }

  /** `t.format(**values)`. */
  function Format(t: string, values: map<string, string>): (r: FormatOutcome)
    ensures r.KeyError? ==> r.key !in values && IsKeywordName(r.key)
    decreases |t|
  {
    if t == [] then Formatted("")
    else if t[0] == '{' && |t| >= 2 && t[1] == '{' then Prepend("{", Format(t[2..], values))
    else if t[0] == '}' && |t| >= 2 && t[1] == '}' then Prepend("}", Format(t[2..], values))
    else if t[0] == '}' then ValueError
    else if t[0] == '{' then
      match FieldEnd(t[1..])
      case None => ValueError
      case Some(n) =>
        var key := KeyOf(t[1..n + 1]);
        if !IsKeywordName(key) then IndexError
        else if key !in values then KeyError(key)
        else Prepend(values[key], Format(t[n + 2..], values))
    else Prepend([t[0]], Format(t[1..], values))
  }

  predicate NoBraces(s: string) {
    '{' !in s && '}' !in s
  }

  /** Text without braces formats to itself, whatever the values. */
  lemma {:induction false} FormatPlain(t: string, values: map<string, string>)
    requires NoBraces(t)
    ensures Format(t, values) == Formatted(t)
    decreases |t|
  {
    if t != [] {
      FormatPlain(t[1..], values);
      assert [t[0]] + t[1..] == t;
    }
  }

  /** The literal text `s` written with its braces doubled, as a template. */
  function Escape(s: string): (t: string)
    ensures |t| >= |s|
    decreases |s|
  {
    if s == [] then []
    else (if s[0] == '{' || s[0] == '}' then [s[0], s[0]] else [s[0]]) + Escape(s[1..])
  }

  /** Formatting an escaped text gives the text back. */
  lemma {:induction false} FormatEscape(s: string, values: map<string, string>)
    ensures Format(Escape(s), values) == Formatted(s)
    decreases |s|
  {
    if s != [] {
      var t := Escape(s);
      FormatEscape(s[1..], values);
      if s[0] == '{' || s[0] == '}' {
        assert t[2..] == Escape(s[1..]);
      } else {
        assert t[1..] == Escape(s[1..]);
      }
      assert [s[0]] + s[1..] == s;
    }
  }

  /** A valid field name for a keyword argument inside a template. */
  predicate FieldName(k: string) {
    IsKeywordName(k) && NoBraces(k) && ':' !in k && '!' !in k
  }

  lemma KeyOfPlain(k: string)
    requires ':' !in k && '!' !in k
    ensures KeyOf(k) == k
  {
    if k != [] {
      KeyOfPlain(k[1..]);
      assert [k[0]] + k[1..] == k;
    }
  }

  lemma FieldEndPlain(k: string, post: string)
    requires NoBraces(k)
    ensures FieldEnd(k + "}" + post) == Some(|k|)
  {
    if k != [] {
      assert (k + "}" + post)[1..] == k[1..] + "}" + post;
      FieldEndPlain(k[1..], post);
    }
  }

  /** A field that names a present value is replaced by it, and formatting goes on after it. */
  lemma FormatField(k: string, post: string, values: map<string, string>)
    requires FieldName(k)
    ensures k in values ==> Format("{" + k + "}" + post, values) == Prepend(values[k], Format(post, values))
    ensures k !in values ==> Format("{" + k + "}" + post, values) == KeyError(k)
  {
    var t := "{" + k + "}" + post;
    assert t[0] == '{' && t[1] == k[0] && k[0] in k;
    assert t[1..] == k + "}" + post;
    FieldEndPlain(k, post);
    assert t[1..|k| + 1] == k;
    KeyOfPlain(k);
    assert t[|k| + 2..] == post;
    assert Format(t, values) == if k in values then Prepend(values[k], Format(post, values)) else KeyError(k);
  }

  /** Literal text without braces in front of a template is copied through. */
  lemma {:induction false} FormatPrefix(pre: string, post: string, values: map<string, string>)
    requires NoBraces(pre)
    ensures Format(pre + post, values) == Prepend(pre, Format(post, values))
    decreases |pre|
  {
    if pre == [] {
      assert pre + post == post;
    } else {
      var t := pre + post;
      assert t[0] == pre[0] && t[1..] == pre[1..] + post;
      assert Format(t, values) == Prepend([pre[0]], Format(t[1..], values));
      FormatPrefix(pre[1..], post, values);
      assert [pre[0]] + pre[1..] == pre;
      PrependTwice([pre[0]], pre[1..], Format(post, values));
    }
  }

  lemma PrependTwice(a: string, b: string, o: FormatOutcome)
    ensures Prepend(a, Prepend(b, o)) == Prepend(a + b, o)
  {
    if o.Formatted? {
      assert a + (b + o.text) == (a + b) + o.text;
    }
  }
}
