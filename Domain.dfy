/**
 * The values that travel between the service's layers: the normalised
 * profile, the exceptions the layers throw, and namespaced cache keys.
 */
module Domain {
  import opened Php

  /** The `['username' => …, 'id' => …, 'avatar' => …]` array every strategy returns. */
  datatype Profile = Profile(username: Json, id: Json, avatar: Json)

  /** The exceptions (and PHP errors) that cross the service's layers. */
  datatype Error =
      /** Laravel's ValidationException, with the fields that failed a rule. */
    | ValidationFailed(fields: set<string>)
      /** ExternalRequestFailedException, carrying the status it reports. */
    | RequestFailed(status: int, message: string)
      /** ThrottleRequestsException. */
    | Throttled
      /** ProfileNotFoundException, thrown by the unified Minecraft strategy. */
    | ProfileNotFound(message: string)
      /** ProfileFetchException, thrown by the unified Minecraft strategy. */
    | ProfileFetchFailed(message: string)
      /** A PHP `Error` (TypeError, ValueError, UnhandledMatchError), which is not an `Exception`. */
    | PhpError(kind: string)
      /** A PHP warning (an undefined array key, an offset on a non-array), rethrown by Laravel's error handler as an ErrorException. */
    | ErrorException

  /** `sprintf('%s|%s', $tag, $identifier)`. */
  function NamespacedKey(tag: string, identifier: string): string {
    tag + "|" + identifier
  }

  /** Splits a key at its first `|` into the tag and the identifier. */
  function SplitKey(k: string): (parts: (string, string))
    ensures |parts.0| <= |k|
  {
    if k == [] then ([], [])
    else if k[0] == '|' then ([], k[1..])
    else
      var rest := SplitKey(k[1..]);
      ([k[0]] + rest.0, rest.1)
  }

  /** A tag without `|` is recovered, with its identifier, from the key it namespaces. */
  lemma {:induction false} SplitNamespacedKey(tag: string, identifier: string)
    requires '|' !in tag
    ensures SplitKey(NamespacedKey(tag, identifier)) == (tag, identifier)
  {
    var k := NamespacedKey(tag, identifier);
    if tag == [] {
      assert k == ['|'] + identifier;
    } else {
      assert k[0] == tag[0] && k[1..] == NamespacedKey(tag[1..], identifier);
      SplitNamespacedKey(tag[1..], identifier);
      assert [tag[0]] + tag[1..] == tag;
    }
  }

  /**
   * Namespacing: keys built from different tags (or from one tag and
   * different identifiers) never coincide.
   */
  lemma NamespacedKeysDistinct(tag1: string, id1: string, tag2: string, id2: string)
    requires '|' !in tag1 && '|' !in tag2
    requires tag1 != tag2 || id1 != id2
    ensures NamespacedKey(tag1, id1) != NamespacedKey(tag2, id2)
  {
    SplitNamespacedKey(tag1, id1);
    SplitNamespacedKey(tag2, id2);
  }
}
