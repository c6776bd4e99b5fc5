/**
 * The theme object of FluentTheme.swift: a per-control-type registry of custom
 * token maps (`register(tokenSetType:tokenSet:)`, `tokens(for:)`), the process-wide
 * `shared` theme whose setter posts a `didChangeTheme` notification, and the
 * static `isApplicableThemeChange` helper.
 */
module Theme {
  import opened Wrappers

  /** A control token value (`ControlTokenValue`); its concrete cases are not part of this model. */
  datatype ControlTokenValue = ControlTokenValue(description: string)

  /** The custom tokens registered for one control: token name to value (`[T: ControlTokenValue]`). */
  type TokenMap = map<string, ControlTokenValue>

  /**
   * A token set metatype (`ControlTokenSet<T>.Type`): `identity` tells types apart,
   * `printedName` is what string interpolation prints for it, and `keyType` names
   * its key enum `T`. The printed name leaves out the module and the enclosing type
   * of a nested type, so two distinct types can print the same name.
   */
  datatype ControlTokenSetType = ControlTokenSetType(identity: string, printedName: string, keyType: string)

  /** A `controlTokenSets` entry: the token map and its key enum (the dynamic type `[T: ControlTokenValue]`). */
  datatype StoredTokens = StoredTokens(keyType: string, tokens: TokenMap)

  /** `controlTokenSets`: key to stored entry. */
  type Registry = map<string, StoredTokens>

  /** One `register` call: the type and the token map (nil removes the entry). */
  datatype Registration = Registration(tokenSetType: ControlTokenSetType, tokenSet: Option<TokenMap>)

  /** `tokenKey`: the dictionary key is the printed name of the metatype. */
  function TokenKey(tokenSetType: ControlTokenSetType): string
  {
    tokenSetType.printedName
  }

  /**
   * The `as? [T: ControlTokenValue]` cast of a stored entry to the map type of
   * `tokenSetType`: it succeeds when the stored map has the same key enum, whichever
   * type registered it. With another key enum it succeeds only on an empty map,
   * since a non-empty map holds keys of the other enum.
   */
  function Cast(stored: StoredTokens, tokenSetType: ControlTokenSetType): (r: Option<TokenMap>)
    ensures stored.keyType == tokenSetType.keyType ==> r == Some(stored.tokens)
    ensures r.Some? ==> r.value == stored.tokens
    ensures r.None? <==> stored.keyType != tokenSetType.keyType && stored.tokens != map[]
  {
    if stored.keyType == tokenSetType.keyType || stored.tokens == map[] then Some(stored.tokens) else None
  }

  /** The lookup `tokens(for:)` performs on a registry: the entry under the type's key, cast to its map type. */
  function Lookup(registry: Registry, tokenSetType: ControlTokenSetType): (r: Option<TokenMap>)
    ensures TokenKey(tokenSetType) !in registry ==> r.None?
    ensures TokenKey(tokenSetType) in registry ==> r == Cast(registry[TokenKey(tokenSetType)], tokenSetType)
  {
    var key := TokenKey(tokenSetType);
    if key in registry then Cast(registry[key], tokenSetType) else None
  }

  /** What `tokenSetType` reads right after `call` when both share one key: nothing after a removal, else the cast of the new entry. */
  function ReadAfter(call: Registration, tokenSetType: ControlTokenSetType): Option<TokenMap>
  {
    match call.tokenSet
    case None => None
    case Some(s) => Cast(StoredTokens(call.tokenSetType.keyType, s), tokenSetType)
  }

  /**
   * The registry after `controlTokenSets[tokenKey(T)] = tokenSet`: the type reads
   * back the set passed (nil removes the entry); a type with another key keeps what
   * it read; a type that prints the same name shares the entry and reads the cast
   * of the new one.
   */
  function Registered(registry: Registry, tokenSetType: ControlTokenSetType,
                      tokenSet: Option<TokenMap>): (r: Registry)
    ensures Lookup(r, tokenSetType) == tokenSet
    ensures forall other {:trigger Lookup(r, other)} :: TokenKey(other) != TokenKey(tokenSetType) ==>
              Lookup(r, other) == Lookup(registry, other)
    ensures forall other {:trigger Lookup(r, other)} :: TokenKey(other) == TokenKey(tokenSetType) ==>
              Lookup(r, other) == ReadAfter(Registration(tokenSetType, tokenSet), other)
    ensures r.Keys <= registry.Keys + {TokenKey(tokenSetType)}
  {
    var key := TokenKey(tokenSetType);
    match tokenSet
    case Some(s) => registry[key := StoredTokens(tokenSetType.keyType, s)]
    case None => registry - {key}
  }

  /** Registering twice for the same type keeps only the second token map. */
  lemma LastWriteWins(registry: Registry, t: ControlTokenSetType, first: Option<TokenMap>, second: Option<TokenMap>)
    ensures Registered(Registered(registry, t, first), t, second) == Registered(registry, t, second)
  {
  }

  /** Registering the same token map twice leaves the registry as registering it once. */
  lemma RegisterIdempotent(registry: Registry, t: ControlTokenSetType, tokenSet: Option<TokenMap>)
    ensures Registered(Registered(registry, t, tokenSet), t, tokenSet) == Registered(registry, t, tokenSet)
  {
  }

  /** Registrations for two types with different keys commute. */
  lemma RegistrationsOfDistinctKeysCommute(registry: Registry, a: ControlTokenSetType, sa: Option<TokenMap>,
                                           b: ControlTokenSetType, sb: Option<TokenMap>)
    requires TokenKey(a) != TokenKey(b)
    ensures Registered(Registered(registry, a, sa), b, sb) == Registered(Registered(registry, b, sb), a, sa)
  {
  }

  /**
   * Two types that print the same name share one entry. When their key enums differ,
   * registering a non-empty map for one makes the other read nil, whatever it
   * registered before.
   */
  lemma SamePrintedNameEvictsOther(registry: Registry, a: ControlTokenSetType, sa: TokenMap,
                                   b: ControlTokenSetType, sb: Option<TokenMap>)
    requires TokenKey(a) == TokenKey(b) && a.keyType != b.keyType && sa != map[]
    ensures Lookup(Registered(Registered(registry, b, sb), a, Some(sa)), b) == None
    ensures Lookup(Registered(Registered(registry, b, sb), a, Some(sa)), a) == Some(sa)
  {
  }

  /**
   * When two types print the same name and have the same key enum, each reads what
   * the other registered last: the `as?` cast cannot tell them apart.
   */
  lemma SamePrintedNameAndKeyEnumShareMap(registry: Registry, a: ControlTokenSetType, sa: Option<TokenMap>,
                                          b: ControlTokenSetType, sb: Option<TokenMap>)
    requires TokenKey(a) == TokenKey(b) && a.keyType == b.keyType
    ensures Lookup(Registered(Registered(registry, b, sb), a, sa), b) == sa
  {
  }

  /** The registry after a sequence of `register` calls, applied in order. */
  function RegisteredAll(registry: Registry, calls: seq<Registration>): Registry
  {
    if calls == [] then registry
    else
      var last := calls[|calls| - 1];
      Registered(RegisteredAll(registry, calls[..|calls| - 1]), last.tokenSetType, last.tokenSet)
  }

  /** The last call in `calls` that writes the key of `t`, if there is one. */
  function LastRegistrationFor(calls: seq<Registration>, t: ControlTokenSetType): Option<Registration>
  {
    if calls == [] then None
    else if TokenKey(calls[|calls| - 1].tokenSetType) == TokenKey(t) then Some(calls[|calls| - 1])
    else LastRegistrationFor(calls[..|calls| - 1], t)
  }

  /**
   * After any sequence of registrations, `tokens(for: t)` yields what the last call
   * writing t's key leaves for t (the set passed, when that call registered t
   * itself), and the original entry when no call wrote that key.
   */
  lemma {:induction false} LookupAfterRegistrations(registry: Registry, calls: seq<Registration>, t: ControlTokenSetType)
    ensures Lookup(RegisteredAll(registry, calls), t) ==
            match LastRegistrationFor(calls, t)
            case Some(call) => ReadAfter(call, t)
            case None => Lookup(registry, t)
  {
    if calls != [] {
      var last := calls[|calls| - 1];
      LookupAfterRegistrations(registry, calls[..|calls| - 1], t);
      var before := RegisteredAll(registry, calls[..|calls| - 1]);
      assert RegisteredAll(registry, calls) == Registered(before, last.tokenSetType, last.tokenSet);
    }
  }

  /** When the last call writing t's key registered t itself, t reads exactly the set it passed. */
  lemma LastOwnRegistrationWins(calls: seq<Registration>, t: ControlTokenSetType, tokenSet: Option<TokenMap>)
    requires LastRegistrationFor(calls, t) == Some(Registration(t, tokenSet))
    ensures Lookup(RegisteredAll(map[], calls), t) == tokenSet
  {
    LookupAfterRegistrations(map[], calls, t);
  }

  /** A type whose key no call writes reads nil from a fresh (empty) registry. */
  lemma NeverRegisteredIsNil(calls: seq<Registration>, t: ControlTokenSetType)
    requires forall i :: 0 <= i < |calls| ==> TokenKey(calls[i].tokenSetType) != TokenKey(t)
    ensures Lookup(RegisteredAll(map[], calls), t) == None
  {
    LookupAfterRegistrations(map[], calls, t);
    NoRegistrationFound(calls, t);
  }

  lemma {:induction false} NoRegistrationFound(calls: seq<Registration>, t: ControlTokenSetType)
    requires forall i :: 0 <= i < |calls| ==> TokenKey(calls[i].tokenSetType) != TokenKey(t)
    ensures LastRegistrationFor(calls, t) == None
  {
    if calls != [] {
      NoRegistrationFound(calls[..|calls| - 1], t);
    }
  }

  /** `Notification.Name.didChangeTheme`. */
  const DidChangeThemeName: string := "FluentUI.stylesheet.theme"

  /** A posted notification: its name and whether it carries an object (the shared setter posts `object: nil`). */
  datatype Notification = Notification(name: string, hasObject: bool)

  /** A `FluentThemeable` view, represented by its answer to `isApplicableThemeChange(_:)`. */
  datatype FluentThemeable = FluentThemeable(isApplicableThemeChange: Notification -> bool)

  /** `FluentTheme.isApplicableThemeChange(_:for:)` defers entirely to the view. */
  function IsApplicableThemeChange(notification: Notification, view: FluentThemeable): (r: bool)
    ensures r <==> view.isApplicableThemeChange(notification)
  {
    view.isApplicableThemeChange(notification)
  }

  /** A theme instance; only its control token registry is modelled. */
  class FluentTheme {
    var controlTokenSets: Registry

    /** A new theme has no registered control tokens. */
    constructor ()
      ensures controlTokenSets == map[]
    {
      controlTokenSets := map[];
    }

    /** `register(tokenSetType:tokenSet:)`. */
    method Register(tokenSetType: ControlTokenSetType, tokenSet: Option<TokenMap>)
      modifies this
      ensures controlTokenSets == Registered(old(controlTokenSets), tokenSetType, tokenSet)
    {
      var key := TokenKey(tokenSetType);
      match tokenSet {
        case Some(s) => controlTokenSets := controlTokenSets[key := StoredTokens(tokenSetType.keyType, s)];
        case None => controlTokenSets := controlTokenSets - {key};
      }
    }

    /** `tokens(for:)`: the entry under the type's key cast to its map type, or nil. */
    function Tokens(tokenSetType: ControlTokenSetType): (r: Option<TokenMap>)
      reads this
      ensures TokenKey(tokenSetType) !in controlTokenSets ==> r.None?
      ensures r.Some? ==> r.value == controlTokenSets[TokenKey(tokenSetType)].tokens
      ensures (TokenKey(tokenSetType) in controlTokenSets &&
               controlTokenSets[TokenKey(tokenSetType)].keyType == tokenSetType.keyType) ==> r.Some?
    {
      Lookup(controlTokenSets, tokenSetType)
    }
  }

  /**
   * The static state of `FluentTheme`: the `shared` theme and, standing for
   * `NotificationCenter.default`, the log of notifications its setter posts.
   */
  class SharedTheme {
    var shared: FluentTheme
    var posted: seq<Notification>

    constructor (initial: FluentTheme)
      ensures shared == initial && posted == []
    {
      shared := initial;
      posted := [];
    }

    /** Assigning `shared` posts exactly one `didChangeTheme` notification, with no object. */
    method SetShared(theme: FluentTheme)
      modifies this
      ensures shared == theme
      ensures posted == old(posted) + [Notification(DidChangeThemeName, false)]
      ensures ThemeChangeCount(posted) == ThemeChangeCount(old(posted)) + 1
    {
      shared := theme;
      posted := posted + [Notification(DidChangeThemeName, false)];
      assert posted[..|posted| - 1] == old(posted);
    }
  }

  /** The number of `didChangeTheme` notifications in a log. */
  function ThemeChangeCount(log: seq<Notification>): nat
  {
    if log == [] then 0
    else ThemeChangeCount(log[..|log| - 1]) + (if log[|log| - 1].name == DidChangeThemeName then 1 else 0)
  }
}
