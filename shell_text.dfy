/**
 * Text helpers of the Jenkins provider: shell quoting and escaping, the
 * catalog template path parser and the first-line trimmer for step logs.
 */
module ShellText {
  import opened Wrappers
  import opened Strings

  // ---- reading a double-quoted shell word back ----

  /** Characters a backslash escapes inside double quotes. */
  predicate Escapable(c: char) {
    c == '\\' || c == '"' || c == '$' || c == '`'
  }

  /**
   * The text a POSIX shell reads from the body of a double-quoted word (what
   * follows the opening quote): `\c` stands for `c` when `c` is escapable, a
   * backslash before a newline joins the lines (both are removed), the first
   * unescaped `"` closes the word and must be the last character.
   * `None` when the word is not closed exactly at the end.
   */
  function ReadQuotedBody(t: string): Option<string>
    decreases |t|
  {
    if t == [] then None
    else if t[0] == '"' then (if |t| == 1 then Some([]) else None)
    else if t[0] == '\\' && |t| >= 2 then
      var rest := ReadQuotedBody(t[2..]);
      if rest.None? then None
      else if t[1] == '\n' then rest
      else if Escapable(t[1]) then Some([t[1]] + rest.value)
      else Some(['\\', t[1]] + rest.value)
    else
      var rest := ReadQuotedBody(t[1..]);
      if rest.None? then None else Some([t[0]] + rest.value)
  }

  /** The text a shell reads from a double-quoted word. */
  function ReadQuoted(q: string): Option<string> {
    if q != [] && q[0] == '"' then ReadQuotedBody(q[1..]) else None
  }

  /**
   * `QuoteShell` as written: the result of doubling backslashes is discarded,
   * because the second replacement starts again from the original script; only
   * double quotes are escaped.
   */
  function QuoteShell(script: string): string {
    var escaped := ReplaceAll(script, "\\", "\\\\");
    var escaped' := ReplaceAll(script, "\"", "\\\"");
    "\"" + escaped' + "\""
  }

  /** `QuoteShell` as evidently intended: the quote escaping applies to the backslash-escaped text. */
  function QuoteShellIntended(script: string): string {
    var escaped := ReplaceAll(script, "\\", "\\\\");
    var escaped' := ReplaceAll(escaped, "\"", "\\\"");
    "\"" + escaped' + "\""
  }

  /** A single backslash: the written quoting escapes the closing quote, so the word never ends. */
  lemma QuoteShellLosesBackslash()
    ensures QuoteShell("\\") == "\"\\\""
    ensures ReadQuoted(QuoteShell("\\")) == None
  {
    var s := "\\";
    assert s[..1] == "\\";
    assert ReplaceAll(s, "\"", "\\\"") == [s[0]] + ReplaceAll([], "\"", "\\\"");
    assert QuoteShell(s) == "\"\\\"";
    var q := "\"\\\"";
    assert q[1..] == "\\\"";
    assert "\\\""[2..] == [];
  }

  /** Escape `\` and `"` one character at a time. */
  function EscapeQuoted(s: string): string {
    if s == [] then []
    else (if s[0] == '\\' then "\\\\" else if s[0] == '"' then "\\\"" else [s[0]]) + EscapeQuoted(s[1..])
  }

  lemma {:induction false} MapCharsAreEscapeQuoted(s: string)
    ensures MapChar(MapChar(s, '\\', "\\\\"), '"', "\\\"") == EscapeQuoted(s)
  {
    if s != [] {
      var head := if s[0] == '\\' then "\\\\" else [s[0]];
      assert MapChar(s, '\\', "\\\\") == head + MapChar(s[1..], '\\', "\\\\");
      MapCharAppend(head, MapChar(s[1..], '\\', "\\\\"), '"', "\\\"");
      if s[0] == '\\' {
        assert MapChar(head, '"', "\\\"") == "\\\\" by {
          assert head[1..] == "\\";
          assert head[1..][1..] == [];
        }
      } else {
        assert MapChar(head, '"', "\\\"") == (if s[0] == '"' then "\\\"" else [s[0]]) by {
          assert head[1..] == [];
        }
      }
      MapCharsAreEscapeQuoted(s[1..]);
    }
  }

  lemma {:induction false} ReadEscapeQuoted(s: string)
    ensures ReadQuotedBody(EscapeQuoted(s) + "\"") == Some(s)
  {
    if s == [] {
      assert EscapeQuoted(s) + "\"" == "\"";
    } else {
      var head := if s[0] == '\\' then "\\\\" else if s[0] == '"' then "\\\"" else [s[0]];
      var t := EscapeQuoted(s) + "\"";
      assert t == head + (EscapeQuoted(s[1..]) + "\"");
      ReadEscapeQuoted(s[1..]);
      if |head| == 2 {
        assert t[2..] == EscapeQuoted(s[1..]) + "\"";
      } else {
        assert t[1..] == EscapeQuoted(s[1..]) + "\"";
      }
      assert [s[0]] + s[1..] == s;
    }
  }

  /** The intended quoting round-trips: a shell reads back exactly the script. */
  lemma QuoteShellIntendedRoundTrip(script: string)
    ensures ReadQuoted(QuoteShellIntended(script)) == Some(script)
  {
    ReplaceCharIsMap(script, '\\', "\\\\");
    ReplaceCharIsMap(ReplaceAll(script, "\\", "\\\\"), '"', "\\\"");
    MapCharsAreEscapeQuoted(script);
    ReadEscapeQuoted(script);
    var q := QuoteShellIntended(script);
    assert q[1..] == EscapeQuoted(script) + "\"";
  }

  // ---- EscapeShell ----

  /** Give back the three reference forms of variable `k` their unescaped `$`. */
  function RestoreKey(text: string, k: string): string {
    var t1 := ReplaceAll(text, "\\$" + k + " ", "$" + k + " ");
    var t2 := ReplaceAll(t1, "\\$" + k + "\n", "$" + k + "\n");
    ReplaceAll(t2, "\\${" + k + "}", "${" + k + "}")
  }

  function RestoreKeys(text: string, keys: seq<string>): string
    decreases keys
  {
    if keys == [] then text else RestoreKeys(RestoreKey(text, keys[0]), keys[1..])
  }

  /**
   * `EscapeShell`: double every backslash, escape every `$`, then give the
   * references to the activity's variables (in `keys`, the iteration order of
   * the Go map) their `$` back.
   */
  function EscapeShell(keys: seq<string>, script: string): string {
    var escaped := ReplaceAll(script, "\\", "\\\\");
    var escaped' := ReplaceAll(escaped, "$", "\\$");
    RestoreKeys(escaped', keys)
  }

  /** The body of `EscapeShell`: the two escapes, then the loop over the variables. */
  method ComputeEscapeShell(keys: seq<string>, script: string) returns (r: string)
    ensures r == EscapeShell(keys, script)
  {
    r := ReplaceAll(script, "\\", "\\\\");
    r := ReplaceAll(r, "$", "\\$");
    var i := 0;
    while i < |keys|
      invariant 0 <= i <= |keys|
      invariant RestoreKeys(r, keys[i..]) == EscapeShell(keys, script)
    {
      assert keys[i..][1..] == keys[i + 1..];
      r := RestoreKey(r, keys[i]);
      i := i + 1;
    }
  }

  /** Escape `\` and `$` one character at a time. */
  function EscapeDollars(s: string): string {
    if s == [] then []
    else (if s[0] == '\\' then "\\\\" else if s[0] == '$' then "\\$" else [s[0]]) + EscapeDollars(s[1..])
  }

  lemma {:induction false} MapCharsAreEscapeDollars(s: string)
    ensures MapChar(MapChar(s, '\\', "\\\\"), '$', "\\$") == EscapeDollars(s)
  {
    if s != [] {
      var head := if s[0] == '\\' then "\\\\" else [s[0]];
      assert MapChar(s, '\\', "\\\\") == head + MapChar(s[1..], '\\', "\\\\");
      MapCharAppend(head, MapChar(s[1..], '\\', "\\\\"), '$', "\\$");
      if s[0] == '\\' {
        assert MapChar(head, '$', "\\$") == "\\\\" by {
          assert head[1..] == "\\";
          assert head[1..][1..] == [];
        }
      } else {
        assert MapChar(head, '$', "\\$") == (if s[0] == '$' then "\\$" else [s[0]]) by {
          assert head[1..] == [];
        }
      }
      MapCharsAreEscapeDollars(s[1..]);
    }
  }

  /**
   * With no variables, `EscapeShell` escapes every backslash and every `$`, so
   * a double-quoted shell word reads back the script with no substitution.
   */
  lemma EscapeShellNoVariables(script: string)
    requires '"' !in script && '`' !in script
    ensures ReadQuoted("\"" + EscapeShell([], script) + "\"") == Some(script)
  {
    EscapeShellWithoutKeys(script);
    ReadEscapeDollars(script);
    var q := "\"" + EscapeDollars(script) + "\"";
    assert q[1..] == EscapeDollars(script) + "\"";
  }

  /** With no variables, `EscapeShell` is the character-wise escape of `\\` and `$`. */
  lemma EscapeShellWithoutKeys(script: string)
    ensures EscapeShell([], script) == EscapeDollars(script)
  {
    ReplaceCharIsMap(script, '\\', "\\\\");
    ReplaceCharIsMap(ReplaceAll(script, "\\", "\\\\"), '$', "\\$");
    MapCharsAreEscapeDollars(script);
  }

  lemma {:induction false} ReadEscapeDollars(s: string)
    requires '"' !in s && '`' !in s
    ensures ReadQuotedBody(EscapeDollars(s) + "\"") == Some(s)
  {
    if s == [] {
      assert EscapeDollars(s) + "\"" == "\"";
    } else {
      var head := if s[0] == '\\' then "\\\\" else if s[0] == '$' then "\\$" else [s[0]];
      var t := EscapeDollars(s) + "\"";
      assert t == head + (EscapeDollars(s[1..]) + "\"");
      ReadEscapeDollars(s[1..]);
      if |head| == 2 {
        assert t[2..] == EscapeDollars(s[1..]) + "\"";
      } else {
        assert t[1..] == EscapeDollars(s[1..]) + "\"";
      }
      assert [s[0]] + s[1..] == s;
    }
  }

  /** Escaping `${k}` only escapes its `$`. */
  lemma EscapeBracedReference(k: string)
    requires '\\' !in k && '$' !in k
    ensures ReplaceAll(ReplaceAll("${" + k + "}", "\\", "\\\\"), "$", "\\$") == "\\${" + k + "}"
  {
    BracedReferenceHasNoBackslash(k);
    BracedReferenceDollarEscaped(k);
  }

  lemma BracedReferenceHasNoBackslash(k: string)
    requires '\\' !in k
    ensures ReplaceAll("${" + k + "}", "\\", "\\\\") == "${" + k + "}"
  {
    var s := "${" + k + "}";
    assert '\\' !in s;
    ReplaceCharIsMap(s, '\\', "\\\\");
    MapCharNoOp(s, '\\', "\\\\");
  }

  lemma BracedReferenceDollarEscaped(k: string)
    requires '$' !in k
    ensures ReplaceAll("${" + k + "}", "$", "\\$") == "\\${" + k + "}"
  {
    var rest := "{" + k + "}";
    assert "${" + k + "}" == ['$'] + rest;
    ReplaceCharIsMap(['$'] + rest, '$', "\\$");
    MapCharLeading('$', rest, "\\$");
    assert "\\$" + rest == "\\${" + k + "}";
  }

  /** Restoring variable `k` turns `\${k}` back into `${k}`. */
  lemma RestoreBracedReference(k: string)
    requires |k| > 0 && '{' !in k
    ensures RestoreKey("\\${" + k + "}", k) == "${" + k + "}"
  {
    var e := "\\${" + k + "}";
    var p1, p2, p3 := "\\$" + k + " ", "\\$" + k + "\n", "${" + k + "}";
    assert |e| == |p1| + 1 == |p2| + 1;
    assert e[2] == '{' && p1[2] == k[0] && p2[2] == k[0];
    assert e[..|p1|] != p1 by { assert e[..|p1|][2] != p1[2]; }
    assert e[1..] != p1 by { assert e[1..][0] != p1[0]; }
    assert e[..|p2|] != p2 by { assert e[..|p2|][2] != p2[2]; }
    assert e[1..] != p2 by { assert e[1..][0] != p2[0]; }
    ReplaceAllTwoMisses(e, p1, "$" + k + " ");
    ReplaceAllTwoMisses(e, p2, "$" + k + "\n");
    assert e[..|e|] == e && e[|e|..] == [];
    assert ReplaceAll(e, e, p3) == p3 + ReplaceAll([], e, p3) == p3;
  }

  /** A braced reference `${k}` to a variable of the activity comes out of `EscapeShell` unescaped. */
  lemma EscapeShellKeepsBracedReference(k: string)
    requires |k| > 0 && '{' !in k && '\\' !in k && '$' !in k
    ensures EscapeShell([k], "${" + k + "}") == "${" + k + "}"
  {
    EscapeBracedReference(k);
    RestoreBracedReference(k);
    var e := "\\${" + k + "}";
    assert RestoreKeys(e, [k]) == RestoreKeys(RestoreKey(e, k), []);
  }

  /** A leading `c` followed by text free of `c` maps to `repl` and that text. */
  lemma MapCharLeading(c: char, rest: string, repl: string)
    requires c !in rest
    ensures MapChar([c] + rest, c, repl) == repl + rest
  {
    assert ([c] + rest)[1..] == rest;
    MapCharNoOp(rest, c, repl);
  }

  lemma {:induction false} MapCharNoOp(s: string, c: char, repl: string)
    requires c !in s
    ensures MapChar(s, c, repl) == s
  {
    if s != [] { MapCharNoOp(s[1..], c, repl); assert [s[0]] + s[1..] == s; }
  }

  // ---- catalog template paths ----

  /** The parts of a `catalog:[base*]template[:revision]` path. */
  datatype TemplateRef = TemplateRef(catalog: string, template: string, templateBase: string, revision: string)

  /** No part holds a separator, so a path composed from them parses back. */
  predicate PlainRef(t: TemplateRef) {
    ':' !in t.catalog && ':' !in t.template && ':' !in t.templateBase && ':' !in t.revision
    && '*' !in t.template && '*' !in t.templateBase
  }

  /** The template part of a path: `template` or `base*template`; `None` with more than one `*`. */
  function SplitTemplate(part: string): (r: Option<(string, string)>)
    ensures r.None? <==> Count(part, '*') >= 2
    ensures r.Some? ==> '*' !in r.value.0 && '*' !in r.value.1
  {
    var pieces := Split(part, '*');
    if |pieces| == 1 then Some((pieces[0], ""))
    else if |pieces| == 2 then Some((pieces[1], pieces[0]))
    else None
  }

  /**
   * `templateURLPath`: a path of two or three `:`-separated parts, whose
   * middle part has at most one `*`; anything else is rejected.
   */
  function TemplateURLPath(path: string): (r: Option<TemplateRef>)
    ensures r.None? <==> Count(path, ':') !in {1, 2} || Count(Split(path, ':')[1], '*') >= 2
    ensures r.Some? ==> PlainRef(r.value) && '*' !in r.value.template
  {
    var parts := Split(path, ':');
    if |parts| != 2 && |parts| != 3 then None
    else
      match SplitTemplate(parts[1])
      case None => None
      case Some((template, base)) =>
        Some(TemplateRef(parts[0], template, base, if |parts| == 3 then parts[2] else ""))
  }

  /** The path naming a template: the inverse of `TemplateURLPath` on plain parts. */
  function ComposeTemplatePath(t: TemplateRef): string {
    var middle := if t.templateBase == "" then t.template else t.templateBase + "*" + t.template;
    if t.revision == "" then t.catalog + ":" + middle
    else t.catalog + ":" + middle + ":" + t.revision
  }

  lemma TemplateSplitRoundTrip(t: TemplateRef)
    requires PlainRef(t)
    ensures SplitTemplate(if t.templateBase == "" then t.template else t.templateBase + "*" + t.template)
            == Some((t.template, t.templateBase))
  {
    SplitNoSep(t.template, '*');
    if t.templateBase != "" {
      SplitAt(t.templateBase, '*', t.template);
    }
  }

  /** Composing plain parts into a path and parsing it gives the parts back. */
  lemma TemplatePathRoundTrip(t: TemplateRef)
    requires PlainRef(t)
    ensures TemplateURLPath(ComposeTemplatePath(t)) == Some(t)
  {
    var middle := if t.templateBase == "" then t.template else t.templateBase + "*" + t.template;
    assert ':' !in middle;
    SplitNoSep(middle, ':');
    TemplateSplitRoundTrip(t);
    if t.revision == "" {
      SplitAt(t.catalog, ':', middle);
      assert Split(ComposeTemplatePath(t), ':') == [t.catalog, middle];
    } else {
      SplitNoSep(t.revision, ':');
      SplitAt(middle, ':', t.revision);
      SplitAt(t.catalog, ':', middle + ":" + t.revision);
      assert t.catalog + ":" + middle + ":" + t.revision == t.catalog + [':'] + (middle + [':'] + t.revision);
      assert Split(ComposeTemplatePath(t), ':') == [t.catalog, middle, t.revision];
    }
  }

  // ---- trimFirstLine ----

  /** `trimFirstLine`: skip leading newlines, then drop the first line and its newline; "" when no newline follows. */
  function TrimFirstLine(text: string): (r: string)
    ensures |r| < |text| || r == ""
  {
    var t := TrimLeftChar(text, '\n');
    var i := IndexOfChar(t, '\n');
    if i == |t| then "" else t[i + 1..]
  }

  function Newlines(n: nat): (r: string)
    ensures |r| == n && forall k :: 0 <= k < n ==> r[k] == '\n'
  {
    seq(n, _ => '\n')
  }

  lemma {:induction false} TrimNewlines(n: nat, s: string)
    requires s == [] || s[0] != '\n'
    ensures TrimLeftChar(Newlines(n) + s, '\n') == s
  {
    if n > 0 {
      assert (Newlines(n) + s)[1..] == Newlines(n - 1) + s;
      TrimNewlines(n - 1, s);
    } else {
      assert Newlines(n) + s == s;
    }
  }

  /** Blank lines, a first line and its newline are dropped; the rest is kept whole. */
  lemma TrimFirstLineKeepsRest(n: nat, line: string, rest: string)
    requires line != [] && '\n' !in line
    ensures TrimFirstLine(Newlines(n) + line + "\n" + rest) == rest
  {
    var text := Newlines(n) + line + "\n" + rest;
    assert text == Newlines(n) + (line + "\n" + rest);
    TrimNewlines(n, line + "\n" + rest);
    var t := line + "\n" + rest;
    assert t[|line|] == '\n' && t[..|line|] == line;
    assert IndexOfChar(t, '\n') == |line|;
    assert t[|line| + 1..] == rest;
  }

  /** A text whose only line has no terminating newline trims to nothing. */
  lemma TrimFirstLineSingleLine(n: nat, line: string)
    requires '\n' !in line
    ensures TrimFirstLine(Newlines(n) + line) == ""
  {
    TrimNewlines(n, line);
  }
}
