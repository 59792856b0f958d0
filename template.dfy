/** The part of Python's `str.format(**inputs)` that task descriptions use:
    literal text, `{{` and `}}` escapes, and `{name}` replacement fields looked
    up by keyword. The text of a field up to its first `}` is its name. */
module Template {
  import opened Wrappers
  import opened Text

  type Inputs = map<string, string>

  /** The exceptions `template.format(**inputs)` raises. */
  datatype FormatError =
    | MissingKey(key: string)         // KeyError: a named field is not among the inputs
    | PositionalField(field: string)  // IndexError: `{}` or `{0}`, and no positional arguments are given
    | Malformed                       // ValueError: a single `{` or `}`, or a field never closed

  /** A field name read as an index into the positional arguments: the empty
      name, or a run of ASCII digits. */
  predicate IsPositional(name: string) {
    name == [] || AllDigits(name)
  }

  predicate BraceFree(s: string) {
    '{' !in s && '}' !in s
  }

  /** `r` with `p` put in front of its value, errors passing through. */
  function Prepend(p: string, r: Result<string, FormatError>): Result<string, FormatError> {
    match r
    case Success(s) => Success(p + s)
    case Failure(e) => Failure(e)
  }

  /** `template.format(**inputs)`: scans left to right and raises at the first
      field it cannot fill or the first stray brace, whichever comes first. */
  function Format(template: string, inputs: Inputs): (r: Result<string, FormatError>)
    ensures r.Failure? && r.error.MissingKey? ==> r.error.key !in inputs
    ensures r.Failure? && r.error.PositionalField? ==> IsPositional(r.error.field)
    decreases |template|
  {
    var t := template;
    if t == [] then Success([])
    else if |t| >= 2 && t[0] == '{' && t[1] == '{' then Prepend("{", Format(t[2..], inputs))
    else if |t| >= 2 && t[0] == '}' && t[1] == '}' then Prepend("}", Format(t[2..], inputs))
    else if t[0] == '}' then Failure(Malformed)
    else if t[0] == '{' then
      match FindFrom(t, "}", 1)
      case None => Failure(Malformed)
      case Some(k) =>
        var name := t[1..k];
        if IsPositional(name) then Failure(PositionalField(name))
        else if name !in inputs then Failure(MissingKey(name))
        else Prepend(inputs[name], Format(t[k + 1..], inputs))
    else Prepend([t[0]], Format(t[1..], inputs))
  }

  /** The names of the replacement fields of a well-formed template, in order;
      None when the template has a stray brace or an unclosed field. */
  function FieldNames(template: string): Option<seq<string>>
    decreases |template|
  {
    var t := template;
    if t == [] then Some([])
    else if |t| >= 2 && t[0] == '{' && t[1] == '{' then FieldNames(t[2..])
    else if |t| >= 2 && t[0] == '}' && t[1] == '}' then FieldNames(t[2..])
    else if t[0] == '}' then None
    else if t[0] == '{' then
      match FindFrom(t, "}", 1)
      case None => None
      case Some(k) =>
        match FieldNames(t[k + 1..])
        case None => None
        case Some(rest) => Some([t[1..k]] + rest)
    else FieldNames(t[1..])
  }

  /** Every name in `names` is a keyword field present in `inputs`. */
  predicate Fillable(names: seq<string>, inputs: Inputs) {
    forall i :: 0 <= i < |names| ==> !IsPositional(names[i]) && names[i] in inputs
  }

  /** Formatting succeeds exactly when the template is well formed and every
      field it names is a keyword present in the inputs. */
  lemma {:induction false} FormatSucceedsIff(template: string, inputs: Inputs)
    ensures Format(template, inputs).Success? <==>
            FieldNames(template).Some? && Fillable(FieldNames(template).value, inputs)
    decreases |template|
  {
    var t := template;
    if t == [] {
    } else if |t| >= 2 && t[0] == '{' && t[1] == '{' {
      FormatSucceedsIff(t[2..], inputs);
    } else if |t| >= 2 && t[0] == '}' && t[1] == '}' {
      FormatSucceedsIff(t[2..], inputs);
    } else if t[0] == '}' {
    } else if t[0] == '{' {
      match FindFrom(t, "}", 1)
      case None =>
      case Some(k) =>
        FormatSucceedsIff(t[k + 1..], inputs);
        var name := t[1..k];
        match FieldNames(t[k + 1..])
        case None =>
        case Some(rest) => FillableCons(name, rest, inputs);
    } else {
      FormatSucceedsIff(t[1..], inputs);
    }
  }

  /** A list of names is fillable when its first name and the rest are. */
  lemma FillableCons(name: string, rest: seq<string>, inputs: Inputs)
    ensures Fillable([name] + rest, inputs) <==> !IsPositional(name) && name in inputs && Fillable(rest, inputs)
  {
    var names := [name] + rest;
    assert names[0] == name;
    if Fillable(rest, inputs) && !IsPositional(name) && name in inputs {
      forall i | 0 <= i < |names| ensures !IsPositional(names[i]) && names[i] in inputs {
        if i > 0 { assert names[i] == rest[i - 1]; }
      }
    }
    if Fillable(names, inputs) {
      forall i | 0 <= i < |rest| ensures !IsPositional(rest[i]) && rest[i] in inputs {
        assert rest[i] == names[i + 1];
      }
    }
  }

  /** A KeyError names a keyword field of the template, written `{key}` in it,
      that the inputs lack. */
  lemma {:induction false} MissingKeyIsField(template: string, inputs: Inputs, key: string)
    requires Format(template, inputs) == Failure(MissingKey(key))
    ensures key !in inputs && !IsPositional(key)
    ensures exists i: nat :: OccursAt(template, "{" + key + "}", i)
    decreases |template|
  {
    var t := template;
    var field := "{" + key + "}";
    var skip: nat;
    if |t| >= 2 && t[0] == '{' && t[1] == '{' {
      skip := 2;
    } else if |t| >= 2 && t[0] == '}' && t[1] == '}' {
      skip := 2;
    } else if t[0] == '{' {
      var k := FindFrom(t, "}", 1).value;
      if t[1..k] !in inputs {
        assert t[0..k + 1] == field;
        assert OccursAt(t, field, 0);
        return;
      }
      skip := k + 1;
    } else {
      skip := 1;
    }
    MissingKeyIsField(t[skip..], inputs, key);
    var i: nat :| OccursAt(t[skip..], field, i);
    OccursAfter(t, skip, field, i);
  }

  lemma OccursAfter(s: string, skip: nat, pat: string, i: nat)
    requires skip <= |s| && OccursAt(s[skip..], pat, i)
    ensures OccursAt(s, pat, skip + i)
  {
    assert s[skip + i..skip + i + |pat|] == s[skip..][i..i + |pat|];
  }

  /** Inputs the template does not name make no difference: a format that
      succeeds gives the same text with any larger set of inputs. */
  lemma {:induction false} FormatIgnoresExtraInputs(template: string, inputs: Inputs, more: Inputs)
    requires forall k :: k in inputs ==> k in more && more[k] == inputs[k]
    requires Format(template, inputs).Success?
    ensures Format(template, more) == Format(template, inputs)
    decreases |template|
  {
    var t := template;
    if t == [] {
    } else if |t| >= 2 && t[0] == '{' && t[1] == '{' {
      FormatIgnoresExtraInputs(t[2..], inputs, more);
    } else if |t| >= 2 && t[0] == '}' && t[1] == '}' {
      FormatIgnoresExtraInputs(t[2..], inputs, more);
    } else if t[0] == '{' {
      var k := FindFrom(t, "}", 1).value;
      FormatIgnoresExtraInputs(t[k + 1..], inputs, more);
    } else {
      FormatIgnoresExtraInputs(t[1..], inputs, more);
    }
  }

  /** A template without braces is its own result. */
  lemma {:induction false} FormatBraceFree(template: string, inputs: Inputs)
    requires BraceFree(template)
    ensures Format(template, inputs) == Success(template)
    decreases |template|
  {
    if template != [] {
      FormatBraceFree(template[1..], inputs);
      assert [template[0]] + template[1..] == template;
    }
  }

  /** A template with one keyword field between brace-free text: the field is
      replaced by its input, or the format raises KeyError for it. */
  lemma FormatOneField(before: string, key: string, after: string, inputs: Inputs)
    requires BraceFree(before) && BraceFree(key) && BraceFree(after) && !IsPositional(key)
    ensures key in inputs ==> Format(before + "{" + key + "}" + after, inputs) == Success(before + inputs[key] + after)
    ensures key !in inputs ==> Format(before + "{" + key + "}" + after, inputs) == Failure(MissingKey(key))
  {
    FormatWithBraceFreePrefix(before, "{" + key + "}" + after, inputs);
    var t := "{" + key + "}" + after;
    assert before + "{" + key + "}" + after == before + t;
    FieldEnd(key, after, t);
    FormatBraceFree(after, inputs);
    if key in inputs {
      assert before + (inputs[key] + after) == before + inputs[key] + after;
    }
  }

  /** A keyword field at the front of any template is replaced by its input
      in front of the rest's result, or raises KeyError for it. */
  lemma FormatField(key: string, after: string, inputs: Inputs)
    requires BraceFree(key) && !IsPositional(key)
    ensures Format("{" + key + "}" + after, inputs)
      == if key in inputs then Prepend(inputs[key], Format(after, inputs)) else Failure(MissingKey(key))
  {
    FieldEnd(key, after, "{" + key + "}" + after);
  }

  /** `texts[0] fills[0] texts[1] ... fills[n-1] texts[n]`. */
  function Weave(texts: seq<string>, fills: seq<string>): string
    requires |texts| == |fills| + 1
    decreases |fills|
  {
    if fills == [] then texts[0]
    else texts[0] + fills[0] + Weave(texts[1..], fills[1..])
  }

  /** The replacement fields `{key}` for the given keys. */
  function Fields(keys: seq<string>): seq<string> {
    seq(|keys|, i requires 0 <= i < |keys| => "{" + keys[i] + "}")
  }

  /** The inputs the given keys name. */
  function Values(keys: seq<string>, inputs: Inputs): seq<string>
    requires forall i :: 0 <= i < |keys| ==> keys[i] in inputs
  {
    seq(|keys|, i requires 0 <= i < |keys| => inputs[keys[i]])
  }

  /** A template of brace-free text and any number of keyword fields, all of
      them present in the inputs, formats to the text with every field
      replaced by its input, in place. */
  lemma {:induction false} FormatFills(texts: seq<string>, keys: seq<string>, inputs: Inputs)
    requires |texts| == |keys| + 1
    requires forall i :: 0 <= i < |texts| ==> BraceFree(texts[i])
    requires forall i :: 0 <= i < |keys| ==> BraceFree(keys[i]) && !IsPositional(keys[i]) && keys[i] in inputs
    ensures Format(Weave(texts, Fields(keys)), inputs) == Success(Weave(texts, Values(keys, inputs)))
    decreases |keys|
  {
    if keys == [] {
      FormatBraceFree(texts[0], inputs);
    } else {
      var fields, values := Fields(keys), Values(keys, inputs);
      assert fields[1..] == Fields(keys[1..]);
      assert values[1..] == Values(keys[1..], inputs);
      var rest := Weave(texts[1..], fields[1..]);
      FormatFills(texts[1..], keys[1..], inputs);
      assert Weave(texts, fields) == texts[0] + (fields[0] + rest);
      FormatWithBraceFreePrefix(texts[0], fields[0] + rest, inputs);
      FormatField(keys[0], rest, inputs);
      var w := Weave(texts[1..], values[1..]);
      assert texts[0] + (values[0] + w) == Weave(texts, values);
    }
  }

  /** A field whose name is brace-free closes at the first `}`. */
  lemma FieldEnd(key: string, after: string, t: string)
    requires BraceFree(key) && t == "{" + key + "}" + after
    ensures FindFrom(t, "}", 1) == Some(|key| + 1)
    ensures t[1..|key| + 1] == key && t[|key| + 2..] == after
  {
    assert OccursAt(t, "}", |key| + 1);
    forall j | 1 <= j < |key| + 1 ensures !OccursAt(t, "}", j) {
      assert t[j] == key[j - 1];
    }
    FindFromFirst(t, "}", 1, |key| + 1);
  }

  /** Brace-free text in front of a template is copied through. */
  lemma {:induction false} FormatWithBraceFreePrefix(before: string, rest: string, inputs: Inputs)
    requires BraceFree(before)
    ensures Format(before + rest, inputs) == Prepend(before, Format(rest, inputs))
    decreases |before|
  {
    if before == [] {
      assert before + rest == rest;
      match Format(rest, inputs)
      case Success(s) => assert before + s == s;
      case Failure(_) =>
    } else {
      var c := before[0];
      ConsAppend(before, rest);
      FormatPlainChar(c, before[1..] + rest, inputs);
      FormatWithBraceFreePrefix(before[1..], rest, inputs);
      match Format(rest, inputs)
      case Success(s) => ConsAppend(before, s);
      case Failure(_) =>
    }
  }

  /** A character other than a brace is copied through. */
  lemma FormatPlainChar(c: char, rest: string, inputs: Inputs)
    requires c != '{' && c != '}'
    ensures Format([c] + rest, inputs) == Prepend([c], Format(rest, inputs))
  {
    var t := [c] + rest;
    assert t[0] == c && t[1..] == rest;
  }

  /** `s` with every brace doubled, so that formatting reproduces `s` literally. */
  function Escape(s: string): string
    decreases |s|
  {
    if s == [] then []
    else if s[0] == '{' || s[0] == '}' then [s[0], s[0]] + Escape(s[1..])
    else [s[0]] + Escape(s[1..])
  }

  /** Formatting an escaped text gives the text back, whatever the inputs. */
  lemma {:induction false} FormatOfEscape(s: string, inputs: Inputs)
    ensures Format(Escape(s), inputs) == Success(s)
    decreases |s|
  {
    if s != [] {
      FormatOfEscape(s[1..], inputs);
      var e := Escape(s);
      if s[0] == '{' || s[0] == '}' {
        assert e[2..] == Escape(s[1..]);
      } else {
        assert e[1..] == Escape(s[1..]);
      }
      assert [s[0]] + s[1..] == s;
    }
  }
}
