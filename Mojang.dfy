/**
 * The Mojang services the Minecraft strategies query, and the profile
 * they make of a Mojang body (`name`, `id`, and an avatar URL synthesised
 * from the id).
 */
module Mojang {
  import opened Wrappers
  import opened Php
  import opened Domain

  const SessionUrl: string := "https://sessionserver.mojang.com/session/minecraft/profile/"
  const UsernameUrl: string := "https://api.mojang.com/users/profiles/minecraft/"
  const AvatarBase: string := "https://crafatar.com/avatars"

  /** The body holds `name` and `id`, and the id converts to a string without a warning. */
  predicate Complete(body: Json) {
    HasKey(body, "name") && HasKey(body, "id") && Stringable(body.fields["id"])
  }

  /** `['username' => $body['name'], 'id' => $body['id'], 'avatar' => AvatarBase . $body['id']]`. */
  function Normalise(body: Json): (r: Result<Profile, Error>)
    ensures r.Ok? <==> Complete(body)
    ensures r.Err? ==> r.error == ErrorException
    ensures r.Ok? ==> r.value.username == body.fields["name"] && r.value.id == body.fields["id"]
    // the avatar is the base followed directly by the id, with no separator
    ensures r.Ok? ==> r.value.avatar.JStr? && |r.value.avatar.s| >= |AvatarBase| &&
                      r.value.avatar.s[..|AvatarBase|] == AvatarBase &&
                      r.value.avatar.s[|AvatarBase|..] == ToStr(body.fields["id"])
  {
    if Complete(body) then
      Ok(Profile(body.fields["name"], body.fields["id"], JStr(AvatarBase + ToStr(body.fields["id"]))))
    else Err(ErrorException)
  }
}
