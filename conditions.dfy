/**
 * The condition evaluator: variable substitution, parsing of one
 * `key=value` / `key!=value` predicate and the `All` / `Any` lists.
 */
module Conditions {
  import opened Wrappers
  import opened Strings
  import opened Model
  import PipelineService

  /** Replace the three reference forms of variable `k` by `v`: `$k ` (eating the space), `$k\n`, `${k}`. */
  function SubstituteKey(text: string, k: string, v: string): string {
    var t1 := ReplaceAll(text, "$" + k + " ", v);
    var t2 := ReplaceAll(t1, "$" + k + "\n", v);
    ReplaceAll(t2, "${" + k + "}", v)
  }

  /**
   * `SubstituteVar`: substitutes every variable of `env`, one key after the
   * other in `order` (the iteration order of the Go map).
   */
  function SubstituteVar(env: map<string, string>, order: seq<string>, text: string): string
    requires forall k | k in order :: k in env
  {
    if order == [] then text
    else SubstituteVar(env, order[1..], SubstituteKey(text, order[0], env[order[0]]))
  }

  /** The loop of `SubstituteVar` over the variables, one key at a time. */
  method ComputeSubstituteVar(env: map<string, string>, order: seq<string>, text: string) returns (r: string)
    requires forall k | k in order :: k in env
    ensures r == SubstituteVar(env, order, text)
  {
    r := text;
    var i := 0;
    while i < |order|
      invariant 0 <= i <= |order|
      invariant SubstituteVar(env, order[i..], r) == SubstituteVar(env, order, text)
    {
      assert order[i..][1..] == order[i + 1..];
      r := SubstituteKey(r, order[i], env[order[i]]);
      i := i + 1;
    }
  }

  lemma NoDollarNoReference(s: string, p: string)
    requires '$' !in s && |p| > 0 && p[0] == '$'
    ensures !Contains(s, p)
  {
  }

  /** Text without a `$` has nothing to substitute. */
  lemma {:induction false} SubstituteVarNoDollar(env: map<string, string>, order: seq<string>, text: string)
    requires forall k | k in order :: k in env
    requires '$' !in text
    ensures SubstituteVar(env, order, text) == text
  {
    if order != [] {
      var k := order[0];
      var v := env[k];
      NoDollarNoReference(text, "$" + k + " ");
      ReplaceAllAbsent(text, "$" + k + " ", v);
      NoDollarNoReference(text, "$" + k + "\n");
      ReplaceAllAbsent(text, "$" + k + "\n", v);
      NoDollarNoReference(text, "${" + k + "}");
      ReplaceAllAbsent(text, "${" + k + "}", v);
      SubstituteVarNoDollar(env, order[1..], text);
    }
  }

  lemma SubstituteSingle(k: string, v: string, text: string)
    ensures SubstituteVar(map[k := v], [k], text) == SubstituteKey(text, k, v)
  {
    assert SubstituteVar(map[k := v], [k], text) == SubstituteVar(map[k := v], [], SubstituteKey(text, k, v));
  }

  /** A bare `$k` at the end of the text stays literal. */
  lemma BareReferenceStays(k: string, v: string)
    ensures SubstituteVar(map[k := v], [k], "$" + k) == "$" + k
  {
    SubstituteSingle(k, v, "$" + k);
  }

  /** `${k}` is replaced by the value. */
  lemma BracedReferenceReplaced(k: string, v: string)
    requires |k| > 0 && '{' !in k
    ensures SubstituteVar(map[k := v], [k], "${" + k + "}") == v
  {
    var s, p1, p2, p3 := "${" + k + "}", "$" + k + " ", "$" + k + "\n", "${" + k + "}";
    SubstituteSingle(k, v, s);
    assert s[1] == '{' && p1[1] == k[0] && p2[1] == k[0] && k[0] != '{';
    assert s[..|p1|] != p1 by { assert s[..|p1|][1] != p1[1]; }
    assert s[1..] != p1 by { assert s[1..][0] != p1[0]; }
    ReplaceAllTwoMisses(s, p1, v);
    assert s[..|p2|] != p2 by { assert s[..|p2|][1] != p2[1]; }
    assert s[1..] != p2 by { assert s[1..][0] != p2[0]; }
    ReplaceAllTwoMisses(s, p2, v);
    assert s[..|p3|] == p3 && s[|p3|..] == [];
    assert ReplaceAll(s, p3, v) == v + ReplaceAll([], p3, v) == v;
  }

  /** `$k ` is replaced by the value, the space included. */
  lemma SpacedReferenceReplaced(k: string, v: string)
    requires '$' !in v
    ensures SubstituteVar(map[k := v], [k], "$" + k + " ") == v
  {
    var t, p1, p2, p3 := "$" + k + " ", "$" + k + " ", "$" + k + "\n", "${" + k + "}";
    SubstituteSingle(k, v, t);
    assert t[..|p1|] == p1 && t[|p1|..] == [];
    assert ReplaceAll(t, p1, v) == v + ReplaceAll([], p1, v) == v;
    NoDollarNoReference(v, p2);
    ReplaceAllAbsent(v, p2, v);
    NoDollarNoReference(v, p3);
    ReplaceAllAbsent(v, p3, v);
  }

  /** `$k` followed by a newline is replaced by the value, the newline included. */
  lemma NewlineReferenceReplaced(k: string, v: string)
    requires '$' !in v
    ensures SubstituteVar(map[k := v], [k], "$" + k + "\n") == v
  {
    var u, p1, p2, p3 := "$" + k + "\n", "$" + k + " ", "$" + k + "\n", "${" + k + "}";
    SubstituteSingle(k, v, u);
    assert u[..|p1|][|p1| - 1] == '\n';
    assert ReplaceAll(u, p1, v) == u by {
      assert ReplaceAll(u, p1, v) == [u[0]] + ReplaceAll(u[1..], p1, v);
      assert [u[0]] + u[1..] == u;
    }
    assert u[..|p2|] == p2 && u[|p2|..] == [];
    assert ReplaceAll(u, p2, v) == v + ReplaceAll([], p2, v) == v;
    NoDollarNoReference(v, p3);
    ReplaceAllAbsent(v, p3, v);
  }

  // ---- regular-expression submatch of `(?P<Key>.*?)OP(?P<Value>.*)` ----

  /** Index of the first occurrence of `p` in `s`, if any. */
  function FirstOccurrence(s: string, p: string, from: nat): (r: Option<nat>)
    requires from <= |s|
    ensures r.Some? ==> from <= r.value && OccursAt(s, p, r.value)
    ensures r.Some? ==> forall i :: from <= i < r.value ==> !OccursAt(s, p, i)
    ensures r.None? ==> forall i :: from <= i <= |s| ==> !OccursAt(s, p, i)
    decreases |s| - from
  {
    if OccursAt(s, p, from) then Some(from)
    else if from == |s| then None
    else FirstOccurrence(s, p, from + 1)
  }

  /** Start of the line holding index `i`: just after the last newline before it. */
  function LineStart(s: string, i: nat): (r: nat)
    requires i <= |s|
    ensures r <= i && (r == 0 || s[r - 1] == '\n')
    ensures forall j :: r <= j < i ==> s[j] != '\n'
  {
    if i == 0 || s[i - 1] == '\n' then i else LineStart(s, i - 1)
  }

  /** End of the line holding index `i`: the next newline or the end of the text. */
  function LineEnd(s: string, i: nat): (r: nat)
    requires i <= |s|
    ensures i <= r <= |s| && (r == |s| || s[r] == '\n')
    ensures forall j :: i <= j < r ==> s[j] != '\n'
    decreases |s| - i
  {
    if i == |s| || s[i] == '\n' then i else LineEnd(s, i + 1)
  }

  /**
   * The `Key` and `Value` groups of the leftmost match of
   * `(?P<Key>.*?)OP(?P<Value>.*)` (Go's `.` does not match a newline), or two
   * empty strings when there is no match.
   */
  function MatchParams(s: string, op: string): (string, string) {
    match FirstOccurrence(s, op, 0)
    case None => ("", "")
    case Some(i) =>
      var from := i + |op|;
      (s[LineStart(s, i)..i], s[from..LineEnd(s, from)])
  }

  /** A variable that is not set reads as the empty string. */
  function Lookup(env: map<string, string>, key: string): string {
    if key in env then env[key] else ""
  }

  /** `EvaluateCondition`: test one `key!=value` or `key=value` predicate. */
  function EvaluateCondition(env: map<string, string>, order: seq<string>, condition: string): (r: Result<bool, Error>)
    requires forall k | k in order :: k in env
    ensures r.Err? ==> r.error == CannotParseCondition(condition)
  {
    var (k1, v1) := MatchParams(condition, "!=");
    if k1 != "" && v1 != "" then
      Ok(Lookup(env, SubstituteVar(env, order, k1)) != SubstituteVar(env, order, v1))
    else
      var (k2, v2) := MatchParams(condition, "=");
      if k2 != "" && v2 != "" then
        Ok(Lookup(env, SubstituteVar(env, order, k2)) == SubstituteVar(env, order, v2))
      else
        Err(CannotParseCondition(condition))
  }

  /** Characters a plain key or value of the lemmas below avoids. */
  predicate Plain(s: string) {
    '=' !in s && '!' !in s && '\n' !in s
  }

  /** A match found at `i` with none before it is the first occurrence. */
  lemma {:induction false} FirstOccurrenceAt(s: string, p: string, from: nat, i: nat)
    requires from <= i <= |s| && OccursAt(s, p, i)
    requires forall j :: from <= j < i ==> !OccursAt(s, p, j)
    ensures FirstOccurrence(s, p, from) == Some(i)
    decreases i - from
  {
    if from < i {
      FirstOccurrenceAt(s, p, from + 1, i);
    }
  }

  /** A line with no newline before index `i` starts at 0. */
  lemma {:induction false} LineStartAtZero(s: string, i: nat)
    requires i <= |s| && forall j :: 0 <= j < i ==> s[j] != '\n'
    ensures LineStart(s, i) == 0
  {
    if i > 0 {
      LineStartAtZero(s, i - 1);
    }
  }

  /** A line with no newline from index `i` on ends at the end of the text. */
  lemma {:induction false} LineEndAtEnd(s: string, i: nat)
    requires i <= |s| && forall j :: i <= j < |s| ==> s[j] != '\n'
    ensures LineEnd(s, i) == |s|
    decreases |s| - i
  {
    if i < |s| {
      LineEndAtEnd(s, i + 1);
    }
  }

  /** In `k + op + v` with `k` plain, `op` (`=` or `!=`) does not occur before `|k|`. */
  lemma PlainKeyHidesOp(k: string, op: string, v: string)
    requires Plain(k) && (op == "=" || op == "!=")
    ensures forall i :: 0 <= i < |k| ==> !OccursAt(k + op + v, op, i)
  {
    var s := k + op + v;
    forall i | 0 <= i < |k| ensures !OccursAt(s, op, i) {
      if i + |op| - 1 < |k| {
        assert s[i..i + |op|][|op| - 1] == s[i + |op| - 1] == k[i + |op| - 1];
      } else {
        assert s[i..i + |op|][0] == s[i] == k[i];
      }
    }
  }

  /** On a single line, the groups are everything before and everything after the first occurrence. */
  lemma MatchParamsOneLine(s: string, op: string, i: nat)
    requires '\n' !in s && i + |op| <= |s| && FirstOccurrence(s, op, 0) == Some(i)
    ensures MatchParams(s, op) == (s[0..i], s[i + |op|..|s|])
  {
    assert forall j :: 0 <= j < |s| ==> s[j] in s;
    LineStartAtZero(s, i);
    LineEndAtEnd(s, i + |op|);
  }

  /** For `k OP v` with plain `k` and `v`, the regular expression yields exactly `k` and `v`. */
  lemma MatchParamsPlain(k: string, op: string, v: string)
    requires Plain(k) && Plain(v) && (op == "=" || op == "!=")
    ensures MatchParams(k + op + v, op) == (k, v)
  {
    var s := k + op + v;
    PlainKeyHidesOp(k, op, v);
    assert s[|k|..|k| + |op|] == op;
    FirstOccurrenceAt(s, op, 0, |k|);
    assert '\n' !in s;
    MatchParamsOneLine(s, op, |k|);
    assert s[0..|k|] == k;
    assert s[|k| + |op|..|s|] == v;
  }

  /** Without a `!`, a text holds no `!=`. */
  lemma NoBangNoNotEqual(s: string)
    requires '!' !in s
    ensures FirstOccurrence(s, "!=", 0) == None
  {
    forall i | 0 <= i <= |s| ensures !OccursAt(s, "!=", i) {
      if i + 2 <= |s| {
        assert s[i..i + 2][0] == s[i];
      }
    }
  }

  /** Parsing a `!=` predicate with a plain non-empty key and value: an inequality test. */
  lemma {:induction false} EvaluateNotEqual(env: map<string, string>, order: seq<string>, k: string, v: string)
    requires forall x | x in order :: x in env
    requires Plain(k) && Plain(v) && k != "" && v != ""
    ensures EvaluateCondition(env, order, k + "!=" + v)
         == Ok(Lookup(env, SubstituteVar(env, order, k)) != SubstituteVar(env, order, v))
  {
    MatchParamsPlain(k, "!=", v);
  }

  /** Parsing an `=` predicate with a plain non-empty key and value: an equality test. */
  lemma {:induction false} EvaluateEqual(env: map<string, string>, order: seq<string>, k: string, v: string)
    requires forall x | x in order :: x in env
    requires Plain(k) && Plain(v) && k != "" && v != ""
    ensures EvaluateCondition(env, order, k + "=" + v)
         == Ok(Lookup(env, SubstituteVar(env, order, k)) == SubstituteVar(env, order, v))
  {
    NoBangNoNotEqual(k + "=" + v);
    MatchParamsPlain(k, "=", v);
  }

  /** The `=` form of `k!=v` sees the key `k!`. */
  lemma MatchParamsEqFallback(k: string, v: string)
    requires Plain(k) && Plain(v)
    ensures MatchParams(k + "!=" + v, "=") == (k + "!", v)
  {
    var s := k + "!=" + v;
    forall i | 0 <= i < |k| + 1 ensures !OccursAt(s, "=", i) {
      assert s[i..i + 1][0] == s[i];
      if i < |k| { assert s[i] == k[i]; }
    }
    assert s[|k| + 1..|k| + 2] == "=";
    FirstOccurrenceAt(s, "=", 0, |k| + 1);
    assert '\n' !in s;
    MatchParamsOneLine(s, "=", |k| + 1);
    assert s[0..|k| + 1] == k + "!";
    assert s[|k| + 2..|s|] == v;
  }

  /** An `=` predicate with an empty key or value, and a `!=` predicate with an empty value, cannot be parsed. */
  lemma {:induction false} EvaluateEmptySide(env: map<string, string>, order: seq<string>, k: string, v: string)
    requires forall x | x in order :: x in env
    requires Plain(k) && Plain(v)
    ensures k == "" || v == "" ==> EvaluateCondition(env, order, k + "=" + v) == Err(CannotParseCondition(k + "=" + v))
    ensures v == "" ==> EvaluateCondition(env, order, k + "!=" + v) == Err(CannotParseCondition(k + "!=" + v))
  {
    NoBangNoNotEqual(k + "=" + v);
    MatchParamsPlain(k, "=", v);
    MatchParamsPlain(k, "!=", v);
    MatchParamsEqFallback(k, v);
  }

  /**
   * A `!=` predicate with an empty key is not an error: the `=` form reads it
   * as a test that the variable named `!` equals the value.
   */
  lemma {:induction false} EvaluateEmptyKeyNotEqual(env: map<string, string>, order: seq<string>, v: string)
    requires forall x | x in order :: x in env
    requires Plain(v) && v != ""
    ensures EvaluateCondition(env, order, "!=" + v)
         == Ok(Lookup(env, SubstituteVar(env, order, "!")) == SubstituteVar(env, order, v))
  {
    assert "" + "!=" + v == "!=" + v;
    MatchParamsPlain("", "!=", v);
    MatchParamsEqFallback("", v);
    assert MatchParams("!=" + v, "!=") == ("", v);
    assert MatchParams("!=" + v, "=") == ("!", v);
  }

  // ---- the All / Any lists ----

  /** The `All` loop: stops at the first predicate that is false or an error. */
  function EvaluateAll(env: map<string, string>, order: seq<string>, xs: seq<string>): Result<bool, Error>
    requires forall k | k in order :: k in env
  {
    if xs == [] then Ok(true)
    else
      match EvaluateCondition(env, order, xs[0])
      case Err(e) => Err(e)
      case Ok(b) => if b then EvaluateAll(env, order, xs[1..]) else Ok(false)
  }

  /** The `Any` loop: stops at the first predicate that is true or an error. */
  function EvaluateAny(env: map<string, string>, order: seq<string>, xs: seq<string>): Result<bool, Error>
    requires forall k | k in order :: k in env
  {
    if xs == [] then Ok(false)
    else
      match EvaluateCondition(env, order, xs[0])
      case Err(e) => Err(e)
      case Ok(b) => if b then Ok(true) else EvaluateAny(env, order, xs[1..])
  }

  /**
   * `EvaluateConditions`: an absent condition set, or one with both lists
   * empty, is an error; otherwise a non-empty `All` is evaluated and `Any` is
   * ignored, else `Any` is evaluated.
   */
  function EvaluateConditions(env: map<string, string>, order: seq<string>, c: Option<Conditions>): (r: Result<bool, Error>)
    requires forall k | k in order :: k in env
    ensures r == Err(NilCondition) <==> !PipelineService.HasCondition(c)
  {
    if c.None? || (|c.value.all| == 0 && |c.value.any| == 0) then Err(NilCondition)
    else if |c.value.all| > 0 then
      EvaluateAllNeverNil(env, order, c.value.all);
      EvaluateAll(env, order, c.value.all)
    else
      EvaluateAnyNeverNil(env, order, c.value.any);
      EvaluateAny(env, order, c.value.any)
  }

  /** The loops of `EvaluateConditions`, returning at the first decisive predicate or error. */
  method ComputeEvaluateConditions(env: map<string, string>, order: seq<string>, c: Option<Conditions>) returns (r: Result<bool, Error>)
    requires forall k | k in order :: k in env
    ensures r == EvaluateConditions(env, order, c)
  {
    if c.None? || (|c.value.all| == 0 && |c.value.any| == 0) {
      return Err(NilCondition);
    }
    if |c.value.all| > 0 {
      r := ComputeEvaluateAll(env, order, c.value.all);
    } else {
      r := ComputeEvaluateAny(env, order, c.value.any);
    }
  }

  /** The `All` loop: returns at the first predicate that is false or an error. */
  method ComputeEvaluateAll(env: map<string, string>, order: seq<string>, all: seq<string>) returns (r: Result<bool, Error>)
    requires forall k | k in order :: k in env
    ensures r == EvaluateAll(env, order, all)
  {
    var i := 0;
    while i < |all|
      invariant 0 <= i <= |all|
      invariant EvaluateAll(env, order, all[i..]) == EvaluateAll(env, order, all)
    {
      assert all[i..][1..] == all[i + 1..];
      var res := EvaluateCondition(env, order, all[i]);
      if res.Err? {
        return Err(res.error);
      }
      if !res.value {
        return Ok(false);
      }
      i := i + 1;
    }
    return Ok(true);
  }

  /** The `Any` loop: returns at the first predicate that is true or an error. */
  method ComputeEvaluateAny(env: map<string, string>, order: seq<string>, any: seq<string>) returns (r: Result<bool, Error>)
    requires forall k | k in order :: k in env
    ensures r == EvaluateAny(env, order, any)
  {
    var i := 0;
    while i < |any|
      invariant 0 <= i <= |any|
      invariant EvaluateAny(env, order, any[i..]) == EvaluateAny(env, order, any)
    {
      assert any[i..][1..] == any[i + 1..];
      var res := EvaluateCondition(env, order, any[i]);
      if res.Err? {
        return Err(res.error);
      }
      if res.value {
        return Ok(true);
      }
      i := i + 1;
    }
    return Ok(false);
  }

  lemma {:induction false} EvaluateAllNeverNil(env: map<string, string>, order: seq<string>, xs: seq<string>)
    requires forall k | k in order :: k in env
    ensures EvaluateAll(env, order, xs) != Err(NilCondition)
  {
    if xs != [] { EvaluateAllNeverNil(env, order, xs[1..]); }
  }

  lemma {:induction false} EvaluateAnyNeverNil(env: map<string, string>, order: seq<string>, xs: seq<string>)
    requires forall k | k in order :: k in env
    ensures EvaluateAny(env, order, xs) != Err(NilCondition)
  {
    if xs != [] { EvaluateAnyNeverNil(env, order, xs[1..]); }
  }

  /** Every predicate of `xs` evaluates to `v`. */
  ghost predicate EveryIs(env: map<string, string>, order: seq<string>, xs: seq<string>, v: Result<bool, Error>)
    requires forall k | k in order :: k in env
  {
    forall i :: 0 <= i < |xs| ==> EvaluateCondition(env, order, xs[i]) == v
  }

  lemma EveryIsCons(env: map<string, string>, order: seq<string>, xs: seq<string>, v: Result<bool, Error>)
    requires forall k | k in order :: k in env
    requires xs != []
    ensures EveryIs(env, order, xs, v) <==> EvaluateCondition(env, order, xs[0]) == v && EveryIs(env, order, xs[1..], v)
  {
    assert forall i :: 1 <= i < |xs| ==> xs[i] == xs[1..][i - 1];
  }

  /** `All` is true exactly when every predicate evaluates to true. */
  lemma {:induction false} EvaluateAllTrue(env: map<string, string>, order: seq<string>, xs: seq<string>)
    requires forall k | k in order :: k in env
    ensures EvaluateAll(env, order, xs) == Ok(true) <==> EveryIs(env, order, xs, Ok(true))
  {
    if xs != [] {
      EvaluateAllTrue(env, order, xs[1..]);
      EveryIsCons(env, order, xs, Ok(true));
    }
  }

  /** `All` stops at the first predicate that is not true and returns its outcome. */
  lemma {:induction false} EvaluateAllStops(env: map<string, string>, order: seq<string>, xs: seq<string>, i: nat)
    requires forall k | k in order :: k in env
    requires i < |xs| && EvaluateCondition(env, order, xs[i]) != Ok(true)
    requires forall j :: 0 <= j < i ==> EvaluateCondition(env, order, xs[j]) == Ok(true)
    ensures EvaluateAll(env, order, xs) == EvaluateCondition(env, order, xs[i])
  {
    if i > 0 {
      EvaluateAllStops(env, order, xs[1..], i - 1);
    }
  }

  /** `Any` is false exactly when every predicate evaluates to false. */
  lemma {:induction false} EvaluateAnyFalse(env: map<string, string>, order: seq<string>, xs: seq<string>)
    requires forall k | k in order :: k in env
    ensures EvaluateAny(env, order, xs) == Ok(false) <==> EveryIs(env, order, xs, Ok(false))
  {
    if xs != [] {
      EvaluateAnyFalse(env, order, xs[1..]);
      EveryIsCons(env, order, xs, Ok(false));
    }
  }

  /** `Any` stops at the first predicate that is not false and returns its outcome. */
  lemma {:induction false} EvaluateAnyStops(env: map<string, string>, order: seq<string>, xs: seq<string>, i: nat)
    requires forall k | k in order :: k in env
    requires i < |xs| && EvaluateCondition(env, order, xs[i]) != Ok(false)
    requires forall j :: 0 <= j < i ==> EvaluateCondition(env, order, xs[j]) == Ok(false)
    ensures EvaluateAny(env, order, xs) == EvaluateCondition(env, order, xs[i])
  {
    if i > 0 {
      EvaluateAnyStops(env, order, xs[1..], i - 1);
    }
  }

  /** When both lists are given, `Any` plays no part. */
  lemma AllMasksAny(env: map<string, string>, order: seq<string>, all: seq<string>, any: seq<string>)
    requires forall k | k in order :: k in env
    requires |all| > 0
    ensures EvaluateConditions(env, order, Some(Conditions(all, any)))
         == EvaluateConditions(env, order, Some(Conditions(all, [])))
  {
  }

  /** A plain `k=v` predicate over text without `$` compares the variable's value with `v`. */
  lemma EvaluateLiteralEqual(env: map<string, string>, order: seq<string>, k: string, v: string, c: string)
    requires forall x | x in order :: x in env
    requires Plain(k) && Plain(v) && k != "" && v != "" && '$' !in k && '$' !in v && c == k + "=" + v
    ensures EvaluateCondition(env, order, c) == Ok(Lookup(env, k) == v)
  {
    SubstituteVarNoDollar(env, order, k);
    SubstituteVarNoDollar(env, order, v);
    EvaluateEqual(env, order, k, v);
  }

  /** Illustration (the steps of `AllExample`): with `a=1, b=3`, `a=1` holds and `b=2` does not. */
  lemma AllExampleParts()
    ensures EvaluateCondition(map["a" := "1", "b" := "3"], ["a", "b"], "a=1") == Ok(true)
    ensures EvaluateCondition(map["a" := "1", "b" := "3"], ["a", "b"], "b=2") == Ok(false)
  {
    var env: map<string, string>, order := map["a" := "1", "b" := "3"], ["a", "b"];
    assert "a=1" == "a" + "=" + "1" && "b=2" == "b" + "=" + "2";
    EvaluateLiteralEqual(env, order, "a", "1", "a=1");
    assert Lookup(env, "a") == "1";
    EvaluateLiteralEqual(env, order, "b", "2", "b=2");
    assert Lookup(env, "b") == "3";
  }

  /** Illustration of `EvaluateAllTrue` on one input: `All=["a=1","b=2"]` with `a=1, b=3` is false. */
  lemma AllExample()
    ensures EvaluateConditions(map["a" := "1", "b" := "3"], ["a", "b"], Some(Conditions(["a=1", "b=2"], []))) == Ok(false)
  {
    AllExampleParts();
    EvaluateAllStops(map["a" := "1", "b" := "3"], ["a", "b"], ["a=1", "b=2"], 1);
  }

  /** Illustration (the steps of `AnyExample`): with `a=2`, `a=1` does not hold and `a=2` does. */
  lemma AnyExampleParts()
    ensures EvaluateCondition(map["a" := "2"], ["a"], "a=1") == Ok(false)
    ensures EvaluateCondition(map["a" := "2"], ["a"], "a=2") == Ok(true)
  {
    var env, order := map["a" := "2"], ["a"];
    EvaluateLiteralEqual(env, order, "a", "1", "a=1");
    EvaluateLiteralEqual(env, order, "a", "2", "a=2");
  }

  /** Illustration of `EvaluateAnyFalse` on one input: `Any=["a=1","a=2"]` with `a=2` is true. */
  lemma AnyExample()
    ensures EvaluateConditions(map["a" := "2"], ["a"], Some(Conditions([], ["a=1", "a=2"]))) == Ok(true)
  {
    AnyExampleParts();
    EvaluateAnyStops(map["a" := "2"], ["a"], ["a=1", "a=2"], 1);
  }
}
