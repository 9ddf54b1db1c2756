/**
 * `KeycloakStoreService`: one record at `storageKey` in a key-value storage
 * backend, holding either the token pair alone (Simple shape) or an optional
 * email beside optional tokens (Multi shape, chosen by `useEmailAsCurrentUser`).
 * The getters are functions of the stored record (`StoreView`); the setters
 * are read-modify-write methods on the backend.
 */
module Store {
  import opened Wrappers
  import opened KeycloakTypes
  import opened ParseJwt

  /** Returned by `TTLOfAccessToken` and `remainingTTLOfAccessToken` when there are no claims. */
  const DEFAULT_ACCESS_TTL := 300
  /** Returned by `remainingTTLOfRefreshToken` when there are no claims. */
  const DEFAULT_REFRESH_TTL := 1800

  /** The browser `Storage` the configuration names: `getItem`, `setItem`, `removeItem`. */
  class Storage {
    var items: map<string, Record>

    constructor (initial: map<string, Record>)
      ensures items == initial
    {
      items := initial;
    }

    function GetItem(key: string): Option<Record>
      reads this
    {
      if key in items then Some(items[key]) else None
    }

    method SetItem(key: string, value: Record)
      modifies this
      ensures items == old(items)[key := value]
    {
      items := items[key := value];
    }

    method RemoveItem(key: string)
      modifies this
      ensures items == old(items) - {key}
    {
      items := items - {key};
    }
  }

  /** The backend after the record at `key` became `raw`: written when present, removed when absent. */
  function Commit(items: map<string, Record>, key: string, raw: Option<Record>): map<string, Record> {
    match raw
    case Some(r) => items[key := r]
    case None => items - {key}
  }

  /** `try { return parseJWT(token) } catch { return null }` for a token that may be undefined. */
  function TryParseJWT(token: Option<string>, codec: JwtCodec): (claims: Option<Claims>)
    ensures claims.Some? <==> token.Some? && ParseJWT(token.value, codec).Success?
    ensures claims.Some? ==> claims.value == ParseJWT(token.value, codec).value
  {
    match token
    case None => None
    case Some(t) =>
      match ParseJWT(t, codec)
      case Success(c) => Some(c)
      case Failure(_) => None
  }

  /** Records of the configured shape only: the store never writes the other one. */
  predicate ShapeConforms(useEmailAsCurrentUser: bool, raw: Option<Record>) {
    raw.Some? ==> (raw.value.Multi? <==> useEmailAsCurrentUser)
  }

  /** The stored record at `storageKey` together with the shape the configuration selects. */
  datatype StoreView = StoreView(useEmailAsCurrentUser: bool, raw: Option<Record>) {

    /** `parsedValue?.email` when the record is read as `MultiKeycloakStorage`. */
    function StoredEmail(): Option<string> {
      match raw
      case Some(Multi(e, _)) => e
      case _ => None
    }

    /** `parsedValue?.tokens` when the record is read as `MultiKeycloakStorage`. */
    function StoredSlot(): TokensSlot {
      match raw
      case Some(Multi(_, slot)) => slot
      case _ => Undefined
    }

    /** `get tokens`. A Multi record read in Simple shape is never written by the store and reads as none here. */
    function Tokens(): (tokens: Option<TokenPair>)
      ensures tokens.Some? ==> raw.Some? && (raw.value.Multi? <==> useEmailAsCurrentUser)
      ensures useEmailAsCurrentUser ==> (tokens.Some? <==> StoredSlot().Defined?)
      ensures tokens.Some? && useEmailAsCurrentUser ==> tokens.value == StoredSlot().pair
    {
      if useEmailAsCurrentUser then
        (match StoredSlot() case Defined(p) => Some(p) case _ => None)
      else
        (match raw case Some(Simple(p)) => Some(p) case _ => None)
    }

    /** `get email`. */
    function Email(): (e: Option<string>)
      ensures !useEmailAsCurrentUser ==> e.None?
    {
      if useEmailAsCurrentUser then StoredEmail() else None
    }

    /** `get accessToken`: `tokens?.access_token`. */
    function AccessToken(): (token: Option<string>)
      ensures token.Some? <==> Tokens().Some?
      ensures token.Some? ==> token.value == Tokens().value.accessToken
    {
      match Tokens()
      case Some(p) => Some(p.accessToken)
      case None => None
    }

    /** `get refreshToken`: `tokens?.refresh_token`. */
    function RefreshToken(): (token: Option<string>)
      ensures token.Some? <==> Tokens().Some?
      ensures token.Some? ==> token.value == Tokens().value.refreshToken
    {
      match Tokens()
      case Some(p) => Some(p.refreshToken)
      case None => None
    }

    /** `get parsedAccessToken`: absent token or decoding error both give none; it never fails. */
    function ParsedAccessToken(codec: JwtCodec): (claims: Option<Claims>)
      ensures claims.None? <==> AccessToken().None? || ParseJWT(AccessToken().value, codec).Failure?
    {
      TryParseJWT(AccessToken(), codec)
    }

    /** `get parsedRefreshToken`: absent token or decoding error both give none; it never fails. */
    function ParsedRefreshToken(codec: JwtCodec): (claims: Option<Claims>)
      ensures claims.None? <==> RefreshToken().None? || ParseJWT(RefreshToken().value, codec).Failure?
    {
      TryParseJWT(RefreshToken(), codec)
    }

    /** `get TTLOfAccessToken`: the token's lifetime in milliseconds, or the literal 300. */
    function TTLOfAccessToken(codec: JwtCodec): (ttl: int)
      ensures ParsedAccessToken(codec).None? ==> ttl == DEFAULT_ACCESS_TTL
      ensures ParsedAccessToken(codec).Some? ==>
        ttl % 1000 == 0 && (ttl >= 0 <==> ParsedAccessToken(codec).value.exp >= ParsedAccessToken(codec).value.iat)
    {
      match ParsedAccessToken(codec)
      case None => DEFAULT_ACCESS_TTL
      case Some(c) => (c.exp - c.iat) * 1000
    }

    /** `get remainingTTLOfAccessToken` at time `now` (milliseconds), or the literal 300. */
    function RemainingTTLOfAccessToken(codec: JwtCodec, now: int): (ttl: int)
      ensures ParsedAccessToken(codec).None? ==> ttl == DEFAULT_ACCESS_TTL
      ensures ParsedAccessToken(codec).Some? ==> now + ttl == ParsedAccessToken(codec).value.exp * 1000
    {
      match ParsedAccessToken(codec)
      case None => DEFAULT_ACCESS_TTL
      case Some(c) => c.exp * 1000 - now
    }

    /** `get remainingTTLOfRefreshToken` at time `now` (milliseconds), or the literal 1800. */
    function RemainingTTLOfRefreshToken(codec: JwtCodec, now: int): (ttl: int)
      ensures ParsedRefreshToken(codec).None? ==> ttl == DEFAULT_REFRESH_TTL
      ensures ParsedRefreshToken(codec).Some? ==> now + ttl == ParsedRefreshToken(codec).value.exp * 1000
    {
      match ParsedRefreshToken(codec)
      case None => DEFAULT_REFRESH_TTL
      case Some(c) => c.exp * 1000 - now
    }

    /** The record after `set tokens(t)`. */
    function WithTokens(t: Option<TokenPair>): (r: StoreView)
      ensures r.useEmailAsCurrentUser == useEmailAsCurrentUser
      ensures r.Tokens() == t
      ensures r.Email() == Email()
      ensures r.raw.None? <==> t.None? && Email().None?
      ensures ShapeConforms(useEmailAsCurrentUser, r.raw)
    {
      if useEmailAsCurrentUser then
        if StoredEmail().None? && t.None? then this.(raw := None)
        else this.(raw := Some(Multi(StoredEmail(), if t.Some? then Defined(t.value) else Undefined)))
      else
        if t.None? then this.(raw := None) else this.(raw := Some(Simple(t.value)))
    }

    /** The record after `set email(e)`; nothing changes in Simple shape. */
    function WithEmail(e: Option<string>): (r: StoreView)
      ensures !useEmailAsCurrentUser ==> r == this
      ensures useEmailAsCurrentUser ==> r.useEmailAsCurrentUser && r.Email() == e && r.Tokens() == Tokens()
      ensures useEmailAsCurrentUser ==> (r.raw.None? <==> e.None? && StoredSlot().Undefined?)
      ensures useEmailAsCurrentUser && r.raw.Some? ==> r.StoredSlot() == StoredSlot()
      ensures ShapeConforms(useEmailAsCurrentUser, raw) ==> ShapeConforms(useEmailAsCurrentUser, r.raw)
    {
      if !useEmailAsCurrentUser then this
      else if e.None? && StoredSlot().Undefined? then this.(raw := None)
      else this.(raw := Some(Multi(e, StoredSlot())))
    }

    /** The record after `clearTokens()`: only the email, if there is one, survives. */
    function WithoutTokens(): (r: StoreView)
      ensures r.useEmailAsCurrentUser == useEmailAsCurrentUser
      ensures r.Tokens().None? && r.Email() == Email()
      ensures r.raw.None? <==> Email().None?
      ensures Email().Some? ==> r.raw == Some(Multi(Email(), Undefined))
    {
      if !useEmailAsCurrentUser then this.(raw := None)
      else
        match Email()
        case None => this.(raw := None)
        case Some(e) => this.(raw := Some(Multi(Some(e), Undefined)))
    }

    /** The record after `clearEmail()`: in Multi shape a record always remains, with `tokens: null` if none were stored. */
    function WithoutEmail(): (r: StoreView)
      ensures !useEmailAsCurrentUser ==> r == this
      ensures useEmailAsCurrentUser ==> r.useEmailAsCurrentUser && r.raw.Some? && r.Email().None? && r.Tokens() == Tokens()
      ensures useEmailAsCurrentUser && Tokens().None? ==> r.raw == Some(Multi(None, Null))
    {
      if !useEmailAsCurrentUser then this
      else
        match Tokens()
        case None => this.(raw := Some(Multi(None, Null)))
        case Some(p) => this.(raw := Some(Multi(None, Defined(p))))
    }

    /** The record after `clear()`. */
    function Cleared(): (r: StoreView)
      ensures r.raw.None? && r.Tokens().None? && r.Email().None?
    {
      this.(raw := None)
    }
  }

  /** `clearTokens()` is `tokens = null` in both shapes. */
  lemma ClearTokensIsSetTokensNull(v: StoreView)
    ensures v.WithoutTokens() == v.WithTokens(None)
  {
  }

  /**
   * After `clearEmail()` with no tokens stored, `email = null` does not remove
   * the record: `{tokens: null}` has a tokens field, so it survives.
   */
  lemma NullEmailKeepsClearedRecord(v: StoreView)
    requires v.useEmailAsCurrentUser && v.Tokens().None?
    ensures v.WithoutEmail().WithEmail(None).raw == Some(Multi(None, Null))
  {
  }

  /** Setting the email and then the tokens keeps that email; reading the tokens back gives them. */
  lemma EmailSurvivesTokenWrite(v: StoreView, email: string, p: TokenPair)
    requires v.useEmailAsCurrentUser
    ensures v.WithEmail(Some(email)).WithTokens(Some(p)).Email() == Some(email)
    ensures v.WithEmail(Some(email)).WithTokens(Some(p)).Tokens() == Some(p)
  {
  }

  /** With no claims the TTL getters fall back to the unscaled literals 300 and 1800. */
  lemma DefaultTTLs(v: StoreView, codec: JwtCodec, now: int)
    ensures v.ParsedAccessToken(codec).None? ==>
      v.TTLOfAccessToken(codec) == 300 && v.RemainingTTLOfAccessToken(codec, now) == 300
    ensures v.ParsedRefreshToken(codec).None? ==> v.RemainingTTLOfRefreshToken(codec, now) == 1800
  {
  }

  /** With claims, the remaining TTL is the lifetime less the time elapsed since issue. */
  lemma RemainingIsLifetimeLessElapsed(v: StoreView, codec: JwtCodec, now: int)
    requires v.ParsedAccessToken(codec).Some?
    ensures v.RemainingTTLOfAccessToken(codec, now)
      == v.TTLOfAccessToken(codec) - (now - v.ParsedAccessToken(codec).value.iat * 1000)
  {
  }

  /** `KeycloakStoreService` over its storage backend. */
  class KeycloakStoreService {
    const config: KeycloakConfig
    const storage: Storage
    const codec: JwtCodec

    constructor (config: KeycloakConfig, storage: Storage, codec: JwtCodec)
      ensures this.config == config && this.storage == storage && this.codec == codec
    {
      this.config := config;
      this.storage := storage;
      this.codec := codec;
    }

    /** What the getters read: the record at `storageKey` in the configured shape. */
    function View(): StoreView
      reads storage
    {
      StoreView(config.useEmailAsCurrentUser, storage.GetItem(config.storageKey))
    }

    /** `clear()`: removes the record unconditionally. */
    method Clear()
      modifies storage
      ensures storage.items == old(storage.items) - {config.storageKey}
      ensures View() == old(View()).Cleared()
    {
      storage.RemoveItem(config.storageKey);
    }

    /** `clearTokens()` */
    method ClearTokens()
      modifies storage
      ensures storage.items == Commit(old(storage.items), config.storageKey, old(View()).WithoutTokens().raw)
      ensures View() == old(View()).WithoutTokens()
    {
      if !config.useEmailAsCurrentUser {
        storage.RemoveItem(config.storageKey);
        return;
      }
      var currentEmail := View().Email();
      if currentEmail.None? {
        storage.RemoveItem(config.storageKey);
        return;
      }
      storage.SetItem(config.storageKey, Multi(currentEmail, Undefined));
    }

    /** `clearEmail()`: removes the record when no tokens are stored, then writes `{tokens: null}` anyway. */
    method ClearEmail()
      modifies storage
      ensures storage.items == Commit(old(storage.items), config.storageKey, old(View()).WithoutEmail().raw)
      ensures View() == old(View()).WithoutEmail()
    {
      if !config.useEmailAsCurrentUser {
        return;
      }
      var currentTokens := View().Tokens();
      if currentTokens.None? {
        storage.RemoveItem(config.storageKey);
      }
      storage.SetItem(config.storageKey, Multi(None, if currentTokens.Some? then Defined(currentTokens.value) else Null));
    }

    /** `set email(email)` */
    method SetEmail(email: Option<string>)
      modifies storage
      ensures storage.items == Commit(old(storage.items), config.storageKey, old(View()).WithEmail(email).raw)
      ensures View() == old(View()).WithEmail(email)
    {
      if !config.useEmailAsCurrentUser {
        return;
      }
      var parsedValue := StoreView(true, storage.GetItem(config.storageKey));
      if email.None? && parsedValue.StoredSlot().Undefined? {
        storage.RemoveItem(config.storageKey);
        return;
      }
      storage.SetItem(config.storageKey, Multi(email, parsedValue.StoredSlot()));
    }

    /** `set tokens(tokens)` */
    method SetTokens(tokens: Option<TokenPair>)
      modifies storage
      ensures storage.items == Commit(old(storage.items), config.storageKey, old(View()).WithTokens(tokens).raw)
      ensures View() == old(View()).WithTokens(tokens)
    {
      if config.useEmailAsCurrentUser {
        var parsedValue := View();
        if parsedValue.StoredEmail().None? && tokens.None? {
          storage.RemoveItem(config.storageKey);
          return;
        }
        storage.SetItem(config.storageKey, Multi(parsedValue.StoredEmail(), if tokens.Some? then Defined(tokens.value) else Undefined));
        return;
      }
      if tokens.None? {
        storage.RemoveItem(config.storageKey);
        return;
      }
      storage.SetItem(config.storageKey, Simple(tokens.value));
    }
  }
}
