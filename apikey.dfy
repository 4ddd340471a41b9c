/** internal/apikey/apikey.go: management API keys with an expiry and a
    permission list; admin keys pass every permission check. */
module ApiKey {
  import opened Common
  import KeyGenerator

  datatype KeyType = KeyType(
    id: string,
    validUntil: Time,
    permissions: seq<string>,
    admin: bool)

  /** Every key ID starts with this prefix and has this many random letters. */
  const IdPrefix: string := "BMK-"
  const IdLength: nat := 32

  /** `strings.ToLower`, restricted to the ASCII letters. */
  function ToLower(s: string): (r: string)
    ensures |r| == |s|
    ensures forall i :: 0 <= i < |s| ==> r[i] == LowerChar(s[i])
  {
    if s == [] then [] else [LowerChar(s[0])] + ToLower(s[1..])
  }

  function LowerChar(c: char): (r: char)
    ensures 'A' <= c <= 'Z' ==> 'a' <= r <= 'z' && r as int == c as int + 32
    ensures !('A' <= c <= 'Z') ==> r == c
  {
    if 'A' <= c <= 'Z' then (c as int + 32) as char else c
  }

  /** Lower-casing twice is lower-casing once. */
  lemma ToLowerIdempotent(s: string)
    ensures ToLower(ToLower(s)) == ToLower(s)
  {
  }

  /** The `until` both constructors compute: the zero time when `valid <= 0`. */
  function Expiry(valid: int, now: int): (until: Time)
    ensures until == Zero <==> valid <= 0
    ensures valid > 0 ==> until.nanos == now + valid
  {
    if valid > 0 then Instant(now + valid) else Zero
  }

  /** NewAdminKey(valid): an admin key with no permission list. `now` is the
      `time.Now()` reading and `draws` the 32 draws of the key generator. */
  method NewAdminKey(valid: int, now: int, draws: seq<KeyGenerator.LetterIndex>) returns (key: KeyType)
    requires |draws| == IdLength
    ensures key.admin && key.permissions == []
    ensures key.validUntil == Zero <==> valid <= 0
    ensures valid > 0 ==> key.validUntil == Instant(now + valid)
    ensures |key.id| == |IdPrefix| + IdLength && HasPrefix(key.id, IdPrefix)
    ensures key.id[|IdPrefix|..] == KeyGenerator.Spelled(draws)
  {
    var id := KeyGenerator.GenerateKey(IdPrefix, IdLength, draws);
    key := KeyType(id, Expiry(valid, now), [], true);
  }

  /** NewKey(perms, valid): a non-admin key holding exactly `perms`. */
  method NewKey(perms: seq<string>, valid: int, now: int, draws: seq<KeyGenerator.LetterIndex>) returns (key: KeyType)
    requires |draws| == IdLength
    ensures !key.admin && key.permissions == perms
    ensures key.validUntil == Zero <==> valid <= 0
    ensures valid > 0 ==> key.validUntil == Instant(now + valid)
    ensures |key.id| == |IdPrefix| + IdLength && HasPrefix(key.id, IdPrefix)
    ensures key.id[|IdPrefix|..] == KeyGenerator.Spelled(draws)
  {
    var id := KeyGenerator.GenerateKey(IdPrefix, IdLength, draws);
    key := KeyType(id, Expiry(valid, now), perms, false);
  }

  /** The loop of HasPermission: does some entry of `perms`, lower-cased,
      equal `lowered`? */
  function AnyLowerMatch(perms: seq<string>, lowered: string): (r: bool)
    ensures r <==> exists i :: 0 <= i < |perms| && ToLower(perms[i]) == lowered
  {
    if perms == [] then false
    else if ToLower(perms[0]) == lowered then true
    else
      var rest := AnyLowerMatch(perms[1..], lowered);
      assert forall i :: 1 <= i < |perms| ==> perms[i] == perms[1..][i - 1];
      rest
  }

  /** HasPermission(perm): admin keys grant everything; other keys grant
      `perm` exactly when some stored permission equals it ignoring case. */
  function HasPermission(key: KeyType, perm: string): (r: bool)
    ensures key.admin ==> r
    ensures !key.admin ==>
      (r <==> exists i :: 0 <= i < |key.permissions| && ToLower(key.permissions[i]) == ToLower(perm))
    ensures !key.admin && key.permissions == [] ==> !r
  {
    key.admin || AnyLowerMatch(key.permissions, ToLower(perm))
  }

  /** Permission checks ignore the case of the requested permission: asking
      for `perm` and for its lower-cased form gives the same answer. */
  lemma HasPermissionIgnoresCase(key: KeyType, perm: string)
    ensures HasPermission(key, perm) == HasPermission(key, ToLower(perm))
  {
    ToLowerIdempotent(perm);
  }

  /** A stored permission is granted in any spelling that lower-cases to it. */
  lemma StoredPermissionGranted(key: KeyType, i: nat, perm: string)
    requires i < |key.permissions|
    requires ToLower(perm) == ToLower(key.permissions[i])
    ensures HasPermission(key, perm)
  {
  }
}
