/**
 * The token resolver of TokenizedControl.swift. A control has three layers of
 * token sets: the caller's override set (optional), the set its theme registered
 * for the control type (optional) and the built-in default set. `tokenValue` first
 * stamps the control's theme onto every present set (`prepareTokens`) and then
 * returns the first of override, theme value that differs from the default value,
 * falling back to the default. A layer whose value equals the default counts as
 * "not set".
 */
module Tokenized {
  import opened Wrappers
  import opened Theme

  /**
   * The precedence rule of `tokenValue` for one key: the override value if present
   * and different from the default, else the theme value if present and different
   * from the default, else the default.
   */
  function Resolve<V(==)>(override: Option<V>, theme: Option<V>, default: V): (r: V)
    ensures r == default || Some(r) == override || Some(r) == theme
    ensures r != default <==> (override.Some? && override.value != default) || (theme.Some? && theme.value != default)
    ensures override.Some? && override.value != default ==> r == override.value
  {
    if override.Some? && override.value != default then override.value
    else if theme.Some? && theme.value != default then theme.value
    else default
  }

  /** When the override layer does not count as set, a theme value that differs from the default wins. */
  lemma ThemeWinsOverUnsetOverride<V>(override: Option<V>, theme: Option<V>, default: V)
    requires override.None? || override.value == default
    requires theme.Some? && theme.value != default
    ensures Resolve(override, theme, default) == theme.value
  {
  }

  /** With neither layer set (absent or equal to the default), the result is exactly the default. */
  lemma DefaultWhenNothingSet<V>(override: Option<V>, theme: Option<V>, default: V)
    requires override.None? || override.value == default
    requires theme.None? || theme.value == default
    ensures Resolve(override, theme, default) == default
  {
  }

  /** An override equal to the default is ignored, even when the theme value differs from it. */
  lemma OverrideEqualToDefaultIgnored<V>(theme: Option<V>, default: V)
    ensures Resolve(Some(default), theme, default) == Resolve(None, theme, default)
  {
  }

  /**
   * The resolution with an explicit "is set" flag per layer (the first present layer
   * wins), against which the sentinel rule is compared below.
   */
  function ResolveExplicit<V>(override: Option<V>, theme: Option<V>, default: V): V
  {
    override.GetOr(theme.GetOr(default))
  }

  /**
   * The sentinel rule agrees with explicit layering except in exactly one situation:
   * the override is present but equal to the default while the theme holds a
   * different value. Then the sentinel rule returns the theme value.
   */
  lemma SentinelDiffersFromExplicitExactly<V>(override: Option<V>, theme: Option<V>, default: V)
    ensures Resolve(override, theme, default) != ResolveExplicit(override, theme, default)
            <==> override == Some(default) && theme.Some? && theme.value != default
    ensures override == Some(default) && theme.Some? && theme.value != default
            ==> Resolve(override, theme, default) == theme.value
  {
  }

  /**
   * A token set (`ControlTokens`): the theme it was last stamped with, and how its
   * key paths read given a theme. Reading key `k` yields `provider(fluentTheme, k)`.
   */
  class TokenSet<K, V> {
    var fluentTheme: FluentTheme
    const provider: (FluentTheme, K) -> V

    constructor (fluentTheme: FluentTheme, provider: (FluentTheme, K) -> V)
      ensures this.fluentTheme == fluentTheme && this.provider == provider
    {
      this.fluentTheme := fluentTheme;
      this.provider := provider;
    }

    /** `tokens[keyPath: k]`. */
    function Get(k: K): V
      reads this
    {
      provider(fluentTheme, k)
    }
  }

  /** The value an optional layer has for key `k` once stamped with `theme`. */
  function LayerValue<K, V>(layer: TokenSet?<K, V>, theme: FluentTheme, k: K): (r: Option<V>)
    ensures r.Some? <==> layer != null
    ensures layer != null ==> r.value == layer.provider(theme, k)
  {
    if layer == null then None else Some(layer.provider(theme, k))
  }

  /** A control conforming to `TokenizedControlInternal`. */
  class Control<K, V(==)> {
    /** The control's theme, usually taken from the environment. */
    const fluentTheme: FluentTheme
    const defaultTokens: TokenSet<K, V>
    const overrideTokens: TokenSet?<K, V>
    /** `themeTokens`: what the theme registered for this control type, or nil. */
    const themeTokens: TokenSet?<K, V>

    constructor (fluentTheme: FluentTheme, defaultTokens: TokenSet<K, V>,
                 overrideTokens: TokenSet?<K, V>, themeTokens: TokenSet?<K, V>)
      ensures this.fluentTheme == fluentTheme && this.defaultTokens == defaultTokens
      ensures this.overrideTokens == overrideTokens && this.themeTokens == themeTokens
    {
      this.fluentTheme := fluentTheme;
      this.defaultTokens := defaultTokens;
      this.overrideTokens := overrideTokens;
      this.themeTokens := themeTokens;
    }

    /** The default `configureTokens`: a no-op that changes no token set. */
    method ConfigureTokens(tokens: TokenSet?<K, V>)
      ensures tokens != null ==> unchanged(tokens)
    {
    }

    /** Every present layer carries this control's theme. */
    ghost predicate Prepared()
      reads this, overrideTokens, themeTokens, defaultTokens
    {
      && (overrideTokens != null ==> overrideTokens.fluentTheme == fluentTheme)
      && (themeTokens != null ==> themeTokens.fluentTheme == fluentTheme)
      && defaultTokens.fluentTheme == fluentTheme
    }

    /**
     * `prepareTokens`: walks [override, theme, default], skipping nil entries, and
     * stamps each present set with the control's theme.
     */
    method PrepareTokens()
      modifies overrideTokens, themeTokens, defaultTokens
      ensures Prepared()
    {
      var tokenSets: seq<TokenSet?<K, V>> := [overrideTokens, themeTokens, defaultTokens];
      for i := 0 to |tokenSets|
        invariant forall j :: 0 <= j < i && tokenSets[j] != null ==> tokenSets[j].fluentTheme == fluentTheme
      {
        var tokens := tokenSets[i];
        if tokens != null {
          tokens.fluentTheme := fluentTheme;
        }
        ConfigureTokens(tokens);
      }
      assert tokenSets[0] == overrideTokens && tokenSets[1] == themeTokens && tokenSets[2] == defaultTokens;
    }

    /** What `tokenValue(k)` returns: the precedence rule over the layers read under this control's theme. */
    function ResolvedValue(k: K): V
    {
      Resolve(LayerValue(overrideTokens, fluentTheme, k), LayerValue(themeTokens, fluentTheme, k),
              defaultTokens.provider(fluentTheme, k))
    }

    /** `tokenValue(keyPath)`. */
    method TokenValue(k: K) returns (r: V)
      modifies overrideTokens, themeTokens, defaultTokens
      ensures Prepared()
      ensures r == ResolvedValue(k)
    {
      PrepareTokens();
      var defaultValue := defaultTokens.Get(k);
      if overrideTokens != null && overrideTokens.Get(k) != defaultValue {
        r := overrideTokens.Get(k);
      } else if themeTokens != null && themeTokens.Get(k) != defaultValue {
        r := themeTokens.Get(k);
      } else {
        r := defaultValue;
      }
    }

    /** Two consecutive `tokenValue` calls with nothing changed in between return the same value. */
    method TokenValueTwice(k: K) returns (first: V, second: V)
      modifies overrideTokens, themeTokens, defaultTokens
      ensures first == second == ResolvedValue(k)
    {
      first := TokenValue(k);
      second := TokenValue(k);
    }
  }
}
