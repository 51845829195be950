/**
 * The Laravel validation rules the strategies and the lookup request use,
 * evaluated over a payload: which fields fail which rules.
 */
module Validation {
  import opened Php

  /** A payload value: query-string values are strings, JSON bodies may also carry integers and null. */
  datatype Value = Null | Str(s: string) | Int(n: int)

  type Payload = map<string, Value>

  datatype Rule =
    | Required
    | RequiredWithout(other: string)
    | Prohibits(other: string)
    | Integer
    | String
    | Digits(count: nat)
    | Enum(values: set<string>)

  datatype FieldRules = FieldRules(field: string, rules: seq<Rule>)

  /** Characters PHP's `trim` removes. */
  predicate IsTrimmed(c: char) {
    c == ' ' || c == '\t' || c == '\n' || c == '\r' || c == '\0' || c == '\U{B}'
  }

  predicate Blank(s: string) {
    forall i :: 0 <= i < |s| ==> IsTrimmed(s[i])
  }

  /** The value under `field`, null when absent (`$payload['f'] ?? null`). */
  function ValueOf(p: Payload, field: string): Value {
    if field in p then p[field] else Null
  }

  /** Laravel's `required` test: present, not null, not a blank string. */
  predicate Filled(p: Payload, field: string) {
    match ValueOf(p, field)
    case Null => false
    case Str(s) => !Blank(s)
    case Int(_) => true
  }

  /** Rules Laravel runs even when the field is absent or blank. */
  predicate Implicit(r: Rule) {
    r.Required? || r.RequiredWithout?
  }

  /** Whether Laravel evaluates rule r on the field at all. */
  predicate Evaluated(p: Payload, field: string, r: Rule) {
    if field in p && p[field].Str? && Blank(p[field].s) then Implicit(r) else field in p || Implicit(r)
  }

  /** Whether rule r, once evaluated, accepts the field. */
  predicate Holds(p: Payload, field: string, r: Rule) {
    var v := ValueOf(p, field);
    match r
    case Required => Filled(p, field)
    case RequiredWithout(other) => Filled(p, other) || Filled(p, field)
    case Prohibits(other) => !(Filled(p, field) && Filled(p, other))
    case Integer => v.Int? || (v.Str? && IntegerString(v.s))
    case String => v.Str?
    case Digits(k) =>
      (match v
       case Null => k == 0
       case Int(n) => n >= 0 && |Natural(n)| == k
       case Str(s) => AllDigits(s) && |s| == k)
    case Enum(values) =>
      (match v
       case Null => false
       case Int(n) => Decimal(n) in values
       case Str(s) => s in values)
  }

  /** Rule r is evaluated on the field and rejects it. */
  predicate Rejects(p: Payload, field: string, r: Rule) {
    Evaluated(p, field, r) && !Holds(p, field, r)
  }

  /** Some rule in rs rejects the field. */
  predicate FieldFails(p: Payload, field: string, rs: seq<Rule>) {
    exists i :: 0 <= i < |rs| && Rejects(p, field, rs[i])
  }

  lemma FailsOfOne(p: Payload, field: string, a: Rule)
    ensures FieldFails(p, field, [a]) <==> Rejects(p, field, a)
  {
    if Rejects(p, field, a) {
      assert Rejects(p, field, [a][0]);
    }
  }

  lemma FailsOfTwo(p: Payload, field: string, a: Rule, b: Rule)
    ensures FieldFails(p, field, [a, b]) <==> Rejects(p, field, a) || Rejects(p, field, b)
  {
    var rs := [a, b];
    if Rejects(p, field, a) {
      assert Rejects(p, field, rs[0]);
    } else if Rejects(p, field, b) {
      assert Rejects(p, field, rs[1]);
    }
  }

  lemma FailsOfThree(p: Payload, field: string, a: Rule, b: Rule, c: Rule)
    ensures FieldFails(p, field, [a, b, c]) <==> Rejects(p, field, a) || Rejects(p, field, b) || Rejects(p, field, c)
  {
    var rs := [a, b, c];
    if Rejects(p, field, a) {
      assert Rejects(p, field, rs[0]);
    } else if Rejects(p, field, b) {
      assert Rejects(p, field, rs[1]);
    } else if Rejects(p, field, c) {
      assert Rejects(p, field, rs[2]);
    }
  }

  /** The fields that carry a validation error. */
  function Errors(p: Payload, spec: seq<FieldRules>): (errs: set<string>)
    ensures forall f :: f in errs ==> exists i :: 0 <= i < |spec| && spec[i].field == f
  {
    if spec == [] then {}
    else
      (if FieldFails(p, spec[0].field, spec[0].rules) then {spec[0].field} else {})
      + Errors(p, spec[1..])
  }

  lemma ErrorsOfOne(p: Payload, x: FieldRules)
    ensures Errors(p, [x]) == if FieldFails(p, x.field, x.rules) then {x.field} else {}
  {
    assert [x][1..] == [];
  }

  lemma ErrorsOfTwo(p: Payload, x: FieldRules, y: FieldRules)
    ensures Errors(p, [x, y]) ==
      (if FieldFails(p, x.field, x.rules) then {x.field} else {}) +
      (if FieldFails(p, y.field, y.rules) then {y.field} else {})
  {
    assert [x, y][1..] == [y];
    ErrorsOfOne(p, y);
  }

  lemma ErrorsOfThree(p: Payload, x: FieldRules, y: FieldRules, z: FieldRules)
    ensures Errors(p, [x, y, z]) ==
      (if FieldFails(p, x.field, x.rules) then {x.field} else {}) +
      (if FieldFails(p, y.field, y.rules) then {y.field} else {}) +
      (if FieldFails(p, z.field, z.rules) then {z.field} else {})
  {
    assert [x, y, z][1..] == [y, z];
    ErrorsOfTwo(p, y, z);
  }
}
