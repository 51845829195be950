/**
 * ProfileSourceEnum: the string-backed source tags, `from`, and the
 * `strategy()` match that picks an implementation for a tag.
 */
module ProfileSourceEnum {
  import opened Wrappers

  datatype SourceTag = Steam | Xbl | Minecraft

  /** The implementations of the profile-source protocol. */
  datatype StrategyKind = SteamKind | XblKind | MinecraftIdKind | MinecraftUsernameKind | MinecraftKind

  /** The backing value of each case. */
  function Value(tag: SourceTag): (v: string)
    ensures '|' !in v && |v| >= 3
  {
    match tag
    case Steam => "steam"
    case Xbl => "xbl"
    case Minecraft => "minecraft"
  }

  /** `ProfileSourceEnum::from`: None where PHP throws a ValueError. */
  function From(s: string): (tag: Option<SourceTag>)
    ensures tag.Some? ==> Value(tag.value) == s
    ensures tag.None? ==> forall c: SourceTag :: Value(c) != s
  {
    if s == "steam" then Some(Steam)
    else if s == "xbl" then Some(Xbl)
    else if s == "minecraft" then Some(Minecraft)
    else None
  }

  /** `from` inverts the backing value, so distinct cases have distinct values. */
  lemma FromValue(tag: SourceTag)
    ensures From(Value(tag)) == Some(tag)
  {
  }

  lemma ValuesDistinct(t1: SourceTag, t2: SourceTag)
    requires t1 != t2
    ensures Value(t1) != Value(t2)
  {
    FromValue(t1);
    FromValue(t2);
  }

  /** `strategy()`: the match has no arm for XBL, where PHP raises UnhandledMatchError. */
  function Strategy(tag: SourceTag): (kind: Option<StrategyKind>)
    ensures kind.None? <==> tag == Xbl
    ensures tag == Steam ==> kind == Some(SteamKind)
    // the unified strategy, not the split id and username ones
    ensures tag == Minecraft ==> kind == Some(MinecraftKind)
  {
    match tag
    case Steam => Some(SteamKind)
    case Minecraft => Some(MinecraftKind)
    case Xbl => None
  }
}
