/**
 * The token registry of the bus hub: a map from token string to the bus it
 * authorises, issuance with defaults, and verification with lazy expiry.
 *
 * JavaScript strings are modelled as `string`; the empty string stands for
 * every falsy value the source tests with `!x` or `x && …` (undefined, null, '').
 */
module Registry {
  import opened Wrappers

  const DefaultRoute: string := "route-1"
  const DefaultTtlMs: int := 12 * 3600 * 1000
  const TokenPrefix: string := "tk_"

  /** What a token is bound to: `{ busId, routeId, expiresAt }`. */
  datatype TokenEntry = TokenEntry(busId: string, routeId: string, expiresAt: int)

  type TokenMap = map<string, TokenEntry>

  /** Why a verification succeeded or failed; the source only reports `Accepted?`. */
  datatype Verdict = Accepted | NoToken | UnknownToken | ExpiredToken | BusMismatch

  /** Characters `Number.prototype.toString(36)` produces. */
  predicate IsBase36(s: string) {
    forall i :: 0 <= i < |s| ==> '0' <= s[i] <= '9' || 'a' <= s[i] <= 'z'
  }

  /** What `Math.random().toString(36).slice(2, 10)` can yield: at most eight base-36 digits. */
  predicate IsTokenSuffix(s: string) {
    |s| <= 8 && IsBase36(s)
  }

  /** The entry `createToken` stores, with its default route and time to live. */
  function IssuedEntry(busId: string, routeId: Option<string>, ttlMs: Option<int>, now: int): (e: TokenEntry)
    ensures e.busId == busId
    ensures routeId.None? ==> e.routeId == DefaultRoute
    ensures routeId.Some? ==> e.routeId == routeId.value
    ensures ttlMs.None? ==> e.expiresAt == now + 43200000
    ensures ttlMs.Some? ==> e.expiresAt == now + ttlMs.value
  {
    TokenEntry(busId, routeId.GetOr(DefaultRoute), now + ttlMs.GetOr(DefaultTtlMs))
  }

  /** The decision `verifyToken(tk, busId)` takes at time `now` over the map `m`. */
  function Decide(m: TokenMap, tk: string, busId: string, now: int): (v: Verdict)
    ensures v == Accepted <==>
              && tk != "" && tk in m && now <= m[tk].expiresAt
              && (busId == "" || m[tk].busId == "" || m[tk].busId == busId)
    ensures v == ExpiredToken <==> tk != "" && tk in m && m[tk].expiresAt < now
  {
    if tk == "" then NoToken
    else if tk !in m then UnknownToken
    else if m[tk].expiresAt < now then ExpiredToken
    else if busId != "" && m[tk].busId != "" && m[tk].busId != busId then BusMismatch
    else Accepted
  }

  /** The map left behind by a verification: only an expired token is deleted. */
  function Retained(m: TokenMap, tk: string, v: Verdict): (r: TokenMap)
    ensures r.Keys == if v == ExpiredToken then m.Keys - {tk} else m.Keys
    ensures forall k :: k in r ==> r[k] == m[k]
  {
    if v == ExpiredToken then m - {tk} else m
  }

  /** An empty or unknown token is refused and the map is left as it was. */
  lemma AbsentTokenRejected(m: TokenMap, tk: string, busId: string, now: int)
    requires tk == "" || tk !in m
    ensures Decide(m, tk, busId, now) != Accepted
    ensures Retained(m, tk, Decide(m, tk, busId, now)) == m
  {
  }

  /**
   * Verifying an expired token refuses it and removes exactly that key; every
   * later verification of the same token, at any time and for any bus, fails too.
   */
  lemma ExpiryIsFinal(m: TokenMap, tk: string, busId: string, now: int, laterBus: string, later: int)
    requires tk != "" && tk in m && m[tk].expiresAt < now
    ensures Decide(m, tk, busId, now) == ExpiredToken
    ensures Retained(m, tk, ExpiredToken).Keys == m.Keys - {tk}
    ensures forall k :: k in m && k != tk ==> Retained(m, tk, ExpiredToken)[k] == m[k]
    ensures Decide(Retained(m, tk, ExpiredToken), tk, laterBus, later) == UnknownToken
  {
  }

  /** Expiry is strict: a token is still accepted at the very millisecond it expires. */
  lemma ExpiryBoundaryAccepted(m: TokenMap, tk: string, now: int)
    requires tk != "" && tk in m && m[tk].expiresAt == now
    ensures Decide(m, tk, m[tk].busId, now) == Accepted
  {
  }

  /**
   * For a live token the only refusal is a bus mismatch, and it happens exactly
   * when both the claimed and the bound bus ids are non-empty and differ.
   */
  lemma LiveTokenVerdict(m: TokenMap, tk: string, busId: string, now: int)
    requires tk != "" && tk in m && now <= m[tk].expiresAt
    ensures Decide(m, tk, busId, now) == BusMismatch <==>
              busId != "" && m[tk].busId != "" && m[tk].busId != busId
    ensures Decide(m, tk, busId, now) != BusMismatch ==> Decide(m, tk, busId, now) == Accepted
    ensures Retained(m, tk, Decide(m, tk, busId, now)) == m
  {
  }

  /**
   * A freshly issued token verifies for its own bus until it expires, and is
   * refused for any other non-empty bus id when it was bound to one.
   */
  lemma IssueThenVerify(m: TokenMap, t: string, busId: string, routeId: Option<string>,
                        ttlMs: Option<int>, issuedAt: int, now: int, claimed: string)
    requires t != ""
    requires now <= IssuedEntry(busId, routeId, ttlMs, issuedAt).expiresAt
    ensures Decide(m[t := IssuedEntry(busId, routeId, ttlMs, issuedAt)], t, busId, now) == Accepted
    ensures Decide(m[t := IssuedEntry(busId, routeId, ttlMs, issuedAt)], t, claimed, now) == Accepted <==>
              (claimed == "" || busId == "" || claimed == busId)
  {
  }

  /** Verification never adds or rewrites an entry: what remains is a sub-map. */
  lemma RetainedIsSubmap(m: TokenMap, tk: string, busId: string, now: int)
    ensures Retained(m, tk, Decide(m, tk, busId, now)).Keys <= m.Keys
    ensures forall k :: k in Retained(m, tk, Decide(m, tk, busId, now)) ==>
              Retained(m, tk, Decide(m, tk, busId, now))[k] == m[k]
  {
  }

  // ---------------------------------------------------------------------
  // The file-backed copy of the registry looks tokens up on a plain object.
  // ---------------------------------------------------------------------

  /** Property names every plain JavaScript object inherits from `Object.prototype`. */
  const InheritedNames: set<string> := {
    "constructor", "__proto__", "toString", "toLocaleString", "valueOf",
    "hasOwnProperty", "isPrototypeOf", "propertyIsEnumerable",
    "__defineGetter__", "__defineSetter__", "__lookupGetter__", "__lookupSetter__"
  }

  /** The result of `TOKENS[tk]` on a plain object. */
  datatype Lookup = Own(entry: TokenEntry) | Inherited | Missing

  function ObjectGet(m: TokenMap, tk: string): (r: Lookup)
    ensures r.Own? <==> tk in m
    ensures r.Own? ==> r.entry == m[tk]
    ensures r.Missing? <==> tk !in m && tk !in InheritedNames
  {
    if tk in m then Own(m[tk])
    else if tk in InheritedNames then Inherited
    else Missing
  }

  /**
   * `verifyToken` of the file-backed copy, as written. An inherited member is a
   * truthy object whose `expiresAt` and `busId` are undefined, so the expiry
   * test (`undefined < now`) and the bus test (`busId && undefined`) both let it
   * through.
   */
  function VerifyObjectBacked(m: TokenMap, tk: string, busId: string, now: int): (ok: bool)
    ensures ok ==> tk != "" && (tk in m || tk in InheritedNames)
    ensures tk != "" && tk !in m && tk in InheritedNames ==> ok
  {
    if tk == "" then false
    else match ObjectGet(m, tk)
      case Missing => false
      case Inherited => true
      case Own(e) => Decide(m, tk, busId, now) == Accepted
  }

  /** Both copies agree on every token that is actually stored. */
  lemma ObjectBackedAgreesOnOwnKeys(m: TokenMap, tk: string, busId: string, now: int)
    requires tk !in InheritedNames || tk in m
    ensures VerifyObjectBacked(m, tk, busId, now) <==> Decide(m, tk, busId, now) == Accepted
  {
  }

  /** The discrepancy: an empty registry accepts the token "constructor" for any bus. */
  lemma ObjectBackedAcceptsInheritedName(busId: string, now: int)
    ensures VerifyObjectBacked(map[], "constructor", busId, now)
    ensures Decide(map[], "constructor", busId, now) == UnknownToken
  {
  }

  /** The corrected lookup refuses every name that was never issued, inherited or not. */
  lemma UnknownTokenRejected(m: TokenMap, tk: string, busId: string, now: int)
    requires tk !in m
    ensures Decide(m, tk, busId, now) != Accepted
    ensures forall name :: name in InheritedNames && name !in m ==> Decide(m, name, busId, now) != Accepted
  {
  }

  /**
   * The registry object. `persisted` is the token file's content: the source
   * rewrites the whole file after every mutation (issuance and expiry deletion).
   */
  class TokenRegistry {
    var tokens: TokenMap
    ghost var persisted: TokenMap

    /** The registry as `loadTokens` leaves it: the loaded map, in agreement with the file. */
    constructor (loaded: TokenMap)
      ensures tokens == loaded && persisted == loaded
    {
      tokens := loaded;
      persisted := loaded;
    }

    /** `createToken`: bind `"tk_" + suffix` to the bus, overwriting any entry of that name. */
    method CreateToken(busId: string, routeId: Option<string>, ttlMs: Option<int>, now: int, suffix: string)
      returns (t: string)
      requires IsTokenSuffix(suffix)
      modifies this
      ensures t == TokenPrefix + suffix && t != ""
      ensures tokens == old(tokens)[t := IssuedEntry(busId, routeId, ttlMs, now)]
      ensures persisted == tokens
    {
      t := TokenPrefix + suffix;
      tokens := tokens[t := IssuedEntry(busId, routeId, ttlMs, now)];
      persisted := tokens;
    }

    /** `verifyToken`: decide, and delete the token when it is found expired. */
    method VerifyToken(tk: string, busId: string, now: int) returns (ok: bool)
      modifies this
      ensures ok <==> Decide(old(tokens), tk, busId, now) == Accepted
      ensures tokens == Retained(old(tokens), tk, Decide(old(tokens), tk, busId, now))
      ensures persisted == if Decide(old(tokens), tk, busId, now) == ExpiredToken then tokens else old(persisted)
    {
      if tk == "" {
        return false;
      }
      if tk !in tokens {
        return false;
      }
      var e := tokens[tk];
      if e.expiresAt < now {
        tokens := tokens - {tk};
        persisted := tokens;
        return false;
      }
      if busId != "" && e.busId != "" && e.busId != busId {
        return false;
      }
      return true;
    }
  }
}
