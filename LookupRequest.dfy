/**
 * ProfileLookupRequest: the rules the lookup endpoint checks before the
 * controller runs. A refused request is answered 422 with the fields in
 * error; authorisation always succeeds.
 */
module LookupRequest {
  import opened Php
  import opened Validation
  import ProfileSourceEnum

  const UnprocessableStatus: int := 422

  /** The backing values `Rule::enum(ProfileSourceEnum::class)` accepts. */
  const TypeValues: set<string> := {"steam", "xbl", "minecraft"}

  const TypeRules: FieldRules := FieldRules("type", [Enum(TypeValues)])
  const IdRules: FieldRules := FieldRules("id", [RequiredWithout("username")])
  const UsernameRules: FieldRules := FieldRules("username", [RequiredWithout("id")])
  const Rules: seq<FieldRules> := [TypeRules, IdRules, UsernameRules]

  /** The rules with `type` required, as the controller's use of it needs. */
  const CorrectedTypeRules: FieldRules := FieldRules("type", [Required, Enum(TypeValues)])
  const CorrectedRules: seq<FieldRules> := [CorrectedTypeRules, IdRules, UsernameRules]

  /** `authorize()`: every caller may look up a profile. */
  function Authorize(p: Payload): (allowed: bool)
    ensures allowed
  {
    true
  }

  /** The values the enum rule accepts are exactly the tags `from` knows. */
  lemma TypeValuesAreTags(s: string)
    ensures s in TypeValues <==> ProfileSourceEnum.From(s).Some?
  {
  }

  /** No integer is a tag: an integer `type` is always refused. */
  lemma DecimalIsNoTag(n: int)
    ensures Decimal(n) !in TypeValues
  {
    var d := Decimal(n);
    assert d[0] == '-' || IsDigit(d[0]);
    assert "steam"[0] == 's' && "xbl"[0] == 'x' && "minecraft"[0] == 'm';
  }

  /** A given, non-blank `type` that is not a tag. */
  predicate TypeRejected(p: Payload) {
    "type" in p && !(p["type"].Str? && Blank(p["type"].s)) && !(p["type"].Str? && p["type"].s in TypeValues)
  }

  /** The fields in error: a bad `type`, and both identifiers when neither is given. */
  lemma RulesExact(p: Payload)
    ensures Errors(p, Rules) ==
      (if TypeRejected(p) then {"type"} else {}) +
      (if !Filled(p, "id") && !Filled(p, "username") then {"id", "username"} else {})
  {
    ErrorsOfThree(p, TypeRules, IdRules, UsernameRules);
    FailsOfOne(p, "type", Enum(TypeValues));
    FailsOfOne(p, "id", RequiredWithout("username"));
    FailsOfOne(p, "username", RequiredWithout("id"));
    if "type" in p && p["type"].Int? {
      DecimalIsNoTag(p["type"].n);
    }
  }

  /** `type=aaa&id=123` is refused on `type` alone. */
  lemma InvalidType()
    ensures Errors(map["type" := Str("aaa"), "id" := Str("123")], Rules) == {"type"}
  {
    var p := map["type" := Str("aaa"), "id" := Str("123")];
    assert !Blank("aaa") by { assert !IsTrimmed("aaa"[0]); }
    assert Filled(p, "id") by { assert !IsTrimmed("123"[0]); }
    RulesExact(p);
  }

  /** `type=steam` without an identifier is refused on both `id` and `username`. */
  lemma MissingIdentifier()
    ensures Errors(map["type" := Str("steam")], Rules) == {"id", "username"}
  {
    RulesExact(map["type" := Str("steam")]);
  }

  /** Giving both identifiers is not refused here: only some strategies refuse it. */
  lemma BothIdentifiersAccepted(p: Payload)
    requires "type" in p && p["type"].Str? && p["type"].s in TypeValues
    requires Filled(p, "id") && Filled(p, "username")
    ensures Errors(p, Rules) == {}
  {
    RulesExact(p);
  }

  /** `$request->validated('type')` as `from` receives it: a missing value is null, read as "". */
  function TypeText(p: Payload): string {
    if "type" in p && p["type"].Str? then p["type"].s else ""
  }

  /** As written: a request with an identifier but no `type` passes, and `from` then has no case for it. */
  lemma MissingTypePasses(id: string)
    requires !Blank(id)
    ensures Errors(map["id" := Str(id)], Rules) == {}
    ensures ProfileSourceEnum.From(TypeText(map["id" := Str(id)])).None?
  {
    RulesExact(map["id" := Str(id)]);
  }

  /** Corrected: `type` is also refused when it is missing or blank; nothing else changes. */
  lemma CorrectedRulesExact(p: Payload)
    ensures Errors(p, CorrectedRules) == Errors(p, Rules) + (if Filled(p, "type") then {} else {"type"})
  {
    RulesExact(p);
    ErrorsOfThree(p, CorrectedTypeRules, IdRules, UsernameRules);
    FailsOfTwo(p, "type", Required, Enum(TypeValues));
    FailsOfOne(p, "type", Enum(TypeValues));
    FailsOfOne(p, "id", RequiredWithout("username"));
    FailsOfOne(p, "username", RequiredWithout("id"));
    if "type" in p && p["type"].Int? {
      DecimalIsNoTag(p["type"].n);
    }
  }

  /** Corrected: every request that passes names a tag `from` resolves. */
  lemma {:induction false} CorrectedTypeResolves(p: Payload)
    requires Errors(p, CorrectedRules) == {}
    ensures ProfileSourceEnum.From(TypeText(p)).Some?
  {
    CorrectedRulesExact(p);
    RulesExact(p);
    TypeValuesAreTags(TypeText(p));
  }
}
