/**
 * The step-up verification keys of cmd/server (Context.AuthKeys): a map
 * from a user ID to the last key issued to it. verify issues a key and
 * schedules its removal 30 seconds later; getCard checks a presented key
 * without consuming it. The scheduled removal is an explicit step here.
 */
module KeyStore {

  type Keys = map<string, string>

  /** AuthKeys[owner]: the stored key, or "" when there is none. */
  function Lookup(keys: Keys, owner: string): (r: string)
    ensures owner !in keys ==> r == ""
    ensures owner in keys ==> r == keys[owner]
  {
    if owner in keys then keys[owner] else ""
  }

  /** verify: the owner's key becomes `key`, replacing any previous one; other owners keep theirs. */
  function Issue(keys: Keys, owner: string, key: string): (r: Keys)
    ensures Lookup(r, owner) == key
    ensures forall o :: o != owner ==> Lookup(r, o) == Lookup(keys, o)
    ensures r.Keys == keys.Keys + {owner}
  {
    keys[owner := key]
  }

  /** The scheduled delete(AuthKeys, id) as written: the owner's entry goes, whatever it holds. */
  function Expire(keys: Keys, owner: string): (r: Keys)
    ensures owner !in r && Lookup(r, owner) == ""
    ensures forall o :: o != owner ==> Lookup(r, o) == Lookup(keys, o)
    ensures r.Keys == keys.Keys - {owner}
  {
    keys - {owner}
  }

  /** The evidently intended expiry: the entry goes only if it still holds the key the timer was set for. */
  function ExpireIfCurrent(keys: Keys, owner: string, key: string): (r: Keys)
    ensures Lookup(keys, owner) == key ==> Lookup(r, owner) == ""
    ensures Lookup(keys, owner) != key ==> Lookup(r, owner) == Lookup(keys, owner)
    ensures forall o :: o != owner ==> Lookup(r, o) == Lookup(keys, o)
  {
    if owner in keys && keys[owner] == key then keys - {owner} else keys
  }

  /** getCard's two refusals and its acceptance. */
  datatype CheckResult =
    | MissingKey   // 400 "a valid verification key must be provided"
    | WrongKey     // 400 "invalid verification token"
    | Granted

  /** getCard's key test: an empty or absent key is missing; otherwise it must equal the token. */
  function Check(keys: Keys, owner: string, token: string): (r: CheckResult)
    ensures r == MissingKey <==> Lookup(keys, owner) == ""
    ensures r == WrongKey <==> Lookup(keys, owner) != "" && Lookup(keys, owner) != token
    ensures r == Granted <==> Lookup(keys, owner) != "" && Lookup(keys, owner) == token
  {
    var stored := Lookup(keys, owner);
    if stored == "" then MissingKey
    else if stored != token then WrongKey
    else Granted
  }

  /** A non-empty key just issued is accepted for its owner, again and again. */
  lemma IssueThenCheck(keys: Keys, owner: string, key: string)
    requires key != ""
    ensures Check(Issue(keys, owner, key), owner, key) == Granted
  {
  }

  /** Issuing a second key makes the first one wrong. */
  lemma ReissueInvalidates(keys: Keys, owner: string, k1: string, k2: string)
    requires k1 != k2 && k2 != ""
    ensures Check(Issue(Issue(keys, owner, k1), owner, k2), owner, k1) == WrongKey
  {
  }

  /** Issuing for one owner does not change what any other owner's token gets. */
  lemma IssueIsolatesOwners(keys: Keys, owner: string, key: string, other: string, token: string)
    requires other != owner
    ensures Check(Issue(keys, owner, key), other, token) == Check(keys, other, token)
  {
  }

  /**
   * As written, the timer of the first verify removes the key of a second
   * verify for the same owner, so the newer key no longer works.
   */
  lemma StaleTimerRevokesNewerKey(keys: Keys, owner: string, k1: string, k2: string)
    ensures Check(Expire(Issue(Issue(keys, owner, k1), owner, k2), owner), owner, k2) == MissingKey
  {
  }

  /** With the intended expiry, the first timer spares a newer, different key. */
  lemma StaleTimerSparesNewerKey(keys: Keys, owner: string, k1: string, k2: string)
    requires k1 != k2 && k2 != ""
    ensures Check(ExpireIfCurrent(Issue(Issue(keys, owner, k1), owner, k2), owner, k1), owner, k2) == Granted
  {
  }

  /** The intended expiry still revokes the key its own timer was set for. */
  lemma TimelyExpiryRevokes(keys: Keys, owner: string, key: string, token: string)
    ensures Check(ExpireIfCurrent(Issue(keys, owner, key), owner, key), owner, token) == MissingKey
  {
  }

  /** When no newer key was issued, both expiries leave the same store. */
  lemma ExpiriesAgreeWithoutReissue(keys: Keys, owner: string, key: string)
    ensures ExpireIfCurrent(Issue(keys, owner, key), owner, key) == Expire(Issue(keys, owner, key), owner)
  {
  }
}
