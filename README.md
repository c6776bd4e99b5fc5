# FluentUI design-token layer, modelled in Dafny

This project models the design-token resolution layer of FluentUI for Apple platforms and a few selection rules in its controls:

- **`Theme`** (`fluent_theme.dfy`): the `FluentTheme` registry of custom control tokens. It covers `register(tokenSetType:tokenSet:)`, `tokens(for:)` and `tokenKey`, the `shared` theme whose setter posts `didChangeTheme`, and `isApplicableThemeChange`.
- **`Tokenized`** (`tokenized_control.dfy`): `tokenValue` of `TokenizedControlInternal`. `prepareTokens` first stamps the control's theme onto every present token set. Then the override, theme and default layers are consulted in that order, and a layer counts as "set" only when its value differs from the default.
- **`Button`** (`button_tokens.dfy`): `MSFButtonStyle.isFloatingStyle`, the `ButtonTokens` initialisers, and every token getter. Each getter is an optional override closure applied to style and size, or else a default table indexed by style and size.
- **`ColorExtensions`** (`dynamic_color.dfy`): the eight-slot dynamic colour of `NSColor`. The decision order is style (dark, light), then level (elevated, base), then contrast (high, normal). Also modelled: the two-colour and `init(dynamicColor:)` initialisers and the channel split of `init(hexValue:)`.
- **`SegmentedControl`** (`segment_pill_button.dfy`): `SegmentPillButton`. Its property observers attach and detach the unread dot layer and mark the item read. The dot is placed beside the title, mirrored for right-to-left layout. The button's content insets are symmetric.
- **`ShimmerView`** (`shimmer.dfy`): the `Shimmer` view modifier. This covers the on/off switch and the phase the sweep animates to, the cover's corner radius and height, and the gradient's three stops with their colours and locations.
- **`Wrappers`** (`wrappers.dfy`): an `Option` type.

Global and alias token values (spacings, radii, colours, fonts, shadows) are modelled as abstract names, because their concrete values are not part of this model. Geometry uses Dafny `real`.

Objects whose fields the source updates in place are classes:
- `FluentTheme`, and `SharedTheme` for the static `shared` theme with its notification log;
- the token sets and the control;
- `ButtonTokens`;
- `SegmentPillButton` and `SegmentItem`;
- `Shimmer`, whose `@State` fields are `phase` and `contentSize`.

Expressions are functions, and the properties are lemmas about those functions.

## Model

| member | source | states |
|---|---|---|
| Theme.Cast | Sources/FluentUI_common/Core/Theme/FluentTheme.swift:76 | the `as?` cast to `[T: ControlTokenValue]` succeeds, yielding the stored map, exactly when the stored map's key enum is the requested type's `T` (whichever type registered it) or the map is empty |
| Theme.Lookup | Sources/FluentUI_common/Core/Theme/FluentTheme.swift:75-77 | a type whose key is absent reads nil; otherwise it reads the cast of the entry under its key |
| Theme.Registered | Sources/FluentUI_common/Core/Theme/FluentTheme.swift:66-68 | after registering, the type reads back the set passed (nil removes the entry); a type with a different key reads what it read before; a type printing the same name reads the new map cast to its own key enum; no key other than the type's is added |
| Theme.LastWriteWins | Sources/FluentUI_common/Core/Theme/FluentTheme.swift:66-68 | registering twice for one type is the same as registering only the second set |
| Theme.RegisterIdempotent | Sources/FluentUI_common/Core/Theme/FluentTheme.swift:66-68 | registering the same set twice gives the same registry as registering it once |
| Theme.RegistrationsOfDistinctKeysCommute | Sources/FluentUI_common/Core/Theme/FluentTheme.swift:66-68 | registrations for types with different keys can be applied in either order |
| Theme.SamePrintedNameEvictsOther | Sources/FluentUI_common/Core/Theme/FluentTheme.swift:66-68 | two types that print the same name but have different key enums share one entry: registering a non-empty map for one makes the other read nil, while the registering type reads its map |
| Theme.SamePrintedNameAndKeyEnumShareMap | Sources/FluentUI_common/Core/Theme/FluentTheme.swift:66-77 | two types that print the same name and have the same key enum share one entry: whatever one registers last, the other reads back |
| Theme.LookupAfterRegistrations | Sources/FluentUI_common/Core/Theme/FluentTheme.swift:66-77 | after any sequence of registrations, a type reads what the last call writing its key leaves for it, or its original entry when no call wrote that key |
| Theme.LastOwnRegistrationWins | Sources/FluentUI_common/Core/Theme/FluentTheme.swift:66-77 | when the last call writing a type's key registered that type itself, the type reads exactly the set it passed |
| Theme.NeverRegisteredIsNil | Sources/FluentUI_common/Core/Theme/FluentTheme.swift:74-77 | a type whose key no registration writes reads nil from a new theme's empty registry |
| Theme.IsApplicableThemeChange | Sources/FluentUI_common/Core/Theme/FluentTheme.swift:102-105 | the answer is exactly the view's own answer for the notification |
| Theme.FluentTheme.constructor | Sources/FluentUI_common/Core/Theme/FluentTheme.swift:124 | a new theme has an empty control token registry |
| Theme.FluentTheme.Register | Sources/FluentUI_common/Core/Theme/FluentTheme.swift:66-68 | the registry becomes the one `Registered` describes |
| Theme.FluentTheme.Tokens | Sources/FluentUI_common/Core/Theme/FluentTheme.swift:75-77 | `tokens(for:)` is nil when the type's key is absent; a present result is the stored map; a stored map with the type's key enum is always returned |
| Theme.SharedTheme.SetShared | Sources/FluentUI_common/Core/Theme/FluentTheme.swift:89-93 | assigning `shared` stores the theme and appends exactly one `didChangeTheme` notification (name "FluentUI.stylesheet.theme", no object), so the count of theme-change notifications grows by exactly one |
| Tokenized.Resolve | ios/FluentUI/Core/Theme/Tokens/TokenizedControl.swift:53-65 | the result is one of the three layer values; it differs from the default exactly when some layer is present and differs from it; a present override that differs from the default wins |
| Tokenized.ThemeWinsOverUnsetOverride | ios/FluentUI/Core/Theme/Tokens/TokenizedControl.swift:58-61 | with the override absent or equal to the default, a theme value that differs from the default is returned |
| Tokenized.DefaultWhenNothingSet | ios/FluentUI/Core/Theme/Tokens/TokenizedControl.swift:57-63 | with both layers absent or equal to the default, the default is returned |
| Tokenized.OverrideEqualToDefaultIgnored | ios/FluentUI/Core/Theme/Tokens/TokenizedControl.swift:51-58 | an override equal to the default behaves exactly as no override |
| Tokenized.SentinelDiffersFromExplicitExactly | ios/FluentUI/Core/Theme/Tokens/TokenizedControl.swift:53-65 | compared with "first present layer wins", the rule differs only when the override equals the default and the theme holds another value, and then the theme value is returned |
| Tokenized.LayerValue | ios/FluentUI/Core/Theme/Tokens/TokenizedControl.swift:58-60 | an optional layer yields a value exactly when it is present, read under the given theme |
| Tokenized.Control.ConfigureTokens | ios/FluentUI/Core/Theme/Tokens/TokenizedControl.swift:45-47 | the default `configureTokens` changes no token set |
| Tokenized.Control.PrepareTokens | ios/FluentUI/Core/Theme/Tokens/TokenizedControl.swift:67-73 | afterwards every present set among override, theme and default carries the control's theme; nil layers are skipped |
| Tokenized.Control.TokenValue | ios/FluentUI/Core/Theme/Tokens/TokenizedControl.swift:53-65 | the token sets are prepared, and the result is the precedence rule applied to the three layers read under the control's theme |
| Tokenized.Control.TokenValueTwice | ios/FluentUI/Core/Theme/Tokens/TokenizedControl.swift:53-73 | two consecutive `tokenValue` calls return the same value |
| Button.FloatingStyles | ios/FluentUI/Vnext/Button/ButtonTokens.swift:19-21 | `isFloatingStyle` holds exactly for accent floating and subtle floating |
| Button.BorderRadiusBySizeOnly | ios/FluentUI/Vnext/Button/ButtonTokens.swift:111-118 | the default border radius ignores the style: `large` for small and medium, `xLarge` for large |
| Button.BorderOnlyForSecondary | ios/FluentUI/Vnext/Button/ButtonTokens.swift:121-128 | the default border is `thin` exactly for secondary and `none` otherwise |
| Button.IconSizeRule | ios/FluentUI/Vnext/Button/ButtonTokens.swift:131-144 | floating styles use the medium icon at every size; the others use `xSmall` when small and `small` otherwise |
| Button.FloatingStylesShareLayout | ios/FluentUI/Vnext/Button/ButtonTokens.swift:162-215 | the two floating styles have the same default padding and text font at every size |
| Button.TextColorIsIconColor | ios/FluentUI/Vnext/Button/ButtonTokens.swift:231-348 | default text and icon colours agree for every style and size |
| Button.BorderColorRule | ios/FluentUI/Vnext/Button/ButtonTokens.swift:261-288 | every style but ghost has the brand background as its border colour; ghost's border is clear |
| Button.StyleAndSizeIndependentDefaults | ios/FluentUI/Vnext/Button/ButtonTokens.swift:218-354 | default minimum text height, rest shadow and pressed shadow do not depend on style or size |
| Button.ButtonTokens.Init | ios/FluentUI/Vnext/Button/ButtonTokens.swift:35-41 | a token set built from style and size has no overrides |
| Button.ButtonTokens.constructor | ios/FluentUI/Vnext/Button/ButtonTokens.swift:44-105 | the convenience initialiser sets exactly the overrides passed as non-nil and leaves the others nil |
| Button.ButtonTokens.GettersReadOverrideOrDefault | ios/FluentUI/Vnext/Button/ButtonTokens.swift:110-354 | each of the fourteen getters returns its override applied to the button's style and size when set, else its default table entry |
| Button.ButtonTokens.DefaultsWithoutOverrides | ios/FluentUI/Vnext/Button/ButtonTokens.swift:35-41 | a token set without overrides reads its default table entry for every token |
| ColorExtensions.ColorForContrast | Sources/FluentUI_common/Core/Extensions/NSColor+Extensions.swift:31-36 | the high-contrast colour is chosen only at high contrast and only when set; otherwise the default slot |
| ColorExtensions.GetColor | Sources/FluentUI_common/Core/Extensions/NSColor+Extensions.swift:38-44 | below elevated level, or when the elevated pair yields nothing, the base pair decides; a set default always yields a colour |
| ColorExtensions.LightColor | Sources/FluentUI_common/Core/Extensions/NSColor+Extensions.swift:49 | the light family always yields a colour |
| ColorExtensions.Resolve | Sources/FluentUI_common/Core/Extensions/NSColor+Extensions.swift:30-53 | in dark style the dark family decides when it yields a colour, else the light family; outside dark style the light family; the `preconditionFailure` branch is unreachable |
| ColorExtensions.FirstSetAppend | Sources/FluentUI_common/Core/Extensions/NSColor+Extensions.swift:46-50 | the first set slot of a concatenated priority list is the first set slot of its first part, falling back to its second part |
| ColorExtensions.FirstSetPair | Sources/FluentUI_common/Core/Extensions/NSColor+Extensions.swift:31-36 | trying the high-contrast slot first (only at high contrast), then the base slot, picks what `getColorForContrast` picks |
| ColorExtensions.FamilyOrderIsGetColor | Sources/FluentUI_common/Core/Extensions/NSColor+Extensions.swift:31-44 | a family's colour is the first set slot of elevated-high-contrast, elevated, high-contrast, base, keeping only the slots that the traits allow |
| ColorExtensions.ResolveFollowsDecisionOrder | Sources/FluentUI_common/Core/Extensions/NSColor+Extensions.swift:15-53 | the chosen colour is the first set slot of the documented decision order: style, then level, then contrast |
| ColorExtensions.NonDarkIgnoresDarkFamily | Sources/FluentUI_common/Core/Extensions/NSColor+Extensions.swift:46-50 | outside dark style no dark-family slot affects the colour |
| ColorExtensions.TwoColorResolve | Sources/FluentUI_common/Core/Extensions/NSColor+Extensions.swift:66-76 | the two-colour initialiser yields `dark` in dark style and `light` otherwise, whatever the level or contrast |
| ColorExtensions.FromDynamicColorResolve | Sources/FluentUI_common/Core/Extensions/NSColor+Extensions.swift:136-141 | a colour from a `DynamicColor` is, in dark style, `darkElevated` at elevated level, then `dark`, then `light`; outside dark style it is `light` |
| ColorExtensions.RedChannel | Sources/FluentUI_common/Core/Extensions/NSColor+Extensions.swift:87 | the red channel is in 0..255 |
| ColorExtensions.GreenChannel | Sources/FluentUI_common/Core/Extensions/NSColor+Extensions.swift:88 | the green channel is in 0..255 |
| ColorExtensions.BlueChannel | Sources/FluentUI_common/Core/Extensions/NSColor+Extensions.swift:89 | the blue channel is in 0..255 |
| ColorExtensions.HexChannelsRoundTrip | Sources/FluentUI_common/Core/Extensions/NSColor+Extensions.swift:86-89 | red, green and blue reassembled at bits 16, 8 and 0 give back the low 24 bits of the value |
| ColorExtensions.HexTopByteIgnored | Sources/FluentUI_common/Core/Extensions/NSColor+Extensions.swift:86-89 | the top byte does not affect any channel |
| ColorExtensions.HexColor | Sources/FluentUI_common/Core/Extensions/NSColor+Extensions.swift:86-93 | the components are in 0..1, each is its channel divided by 255, and alpha is 1 |
| SegmentedControl.UnreadDotShape | ios/FluentUI/SegmentedControl/SegmentPillButton.swift:71-77 | the dot layer is a dot-size square whose corner radius is half its side |
| SegmentedControl.UnreadDotX | ios/FluentUI/SegmentedControl/SegmentPillButton.swift:88-93 | left to right, the dot's left edge is offset X past the title's maxX; right to left, its right edge is offset X before the title's minX |
| SegmentedControl.UnreadDotMirrored | ios/FluentUI/SegmentedControl/SegmentPillButton.swift:88-93 | the gap between title and dot is the same in both layout directions |
| SegmentedControl.ContentInsets | ios/FluentUI/SegmentedControl/SegmentPillButton.swift:33-38 | the insets are symmetric: top and bottom are the vertical inset, left and right the horizontal inset |
| SegmentedControl.SegmentPillButton.constructor | ios/FluentUI/SegmentedControl/SegmentPillButton.swift:41-58 | a new button has the dot hidden and detached, and the token font and insets applied |
| SegmentedControl.SegmentPillButton.UnreadDotLayerShape | ios/FluentUI/SegmentedControl/SegmentPillButton.swift:71-77 | the button's dot layer has the unread-dot-size token as its side and half of it as its corner radius |
| SegmentedControl.SegmentPillButton.UpdateTokenizedValues | ios/FluentUI/SegmentedControl/SegmentPillButton.swift:31-39 | the title font is the font token and the content insets are the symmetric insets of the inset tokens |
| SegmentedControl.SegmentPillButton.SetUnreadDotVisible | ios/FluentUI/SegmentedControl/SegmentPillButton.swift:8-17 | the layer is attached on false to true and detached on true to false; an unchanged value leaves it alone; so the layer stays attached exactly while the dot is visible |
| SegmentedControl.SegmentPillButton.UpdateUnreadDot | ios/FluentUI/SegmentedControl/SegmentPillButton.swift:84-97 | visibility follows the item; a visible dot gets the placed origin and colour; a hidden dot keeps its position and colour |
| SegmentedControl.SegmentPillButton.PlacedDotOrigin | ios/FluentUI/SegmentedControl/SegmentPillButton.swift:87-94 | a visible dot's x is the mirrored gap past the title (the zero rect without a title label) and its y is offset Y below the title's minY |
| SegmentedControl.SegmentPillButton.PlacedDotColor | ios/FluentUI/SegmentedControl/SegmentPillButton.swift:95 | a visible dot takes the enabled colour token exactly when the button is enabled |
| SegmentedControl.SegmentPillButton.SetSelected | ios/FluentUI/SegmentedControl/SegmentPillButton.swift:20-27 | selecting an unselected button marks the item read and hides and detaches the dot; deselecting, or assigning the current value, leaves the item and the dot's visibility alone; the dot's position and colour never change |
| SegmentedControl.SegmentPillButton.IsUnreadValueDidChange | ios/FluentUI/SegmentedControl/SegmentPillButton.swift:79-82 | the dot's visibility follows the item and a layout pass is requested |
| SegmentedControl.SegmentPillButton.LayoutSubviews | ios/FluentUI/SegmentedControl/SegmentPillButton.swift:64-67 | after layout the dot's visibility follows the item, the layer is attached exactly while visible, and a visible dot is placed and coloured as `updateUnreadDot` does; a hidden dot keeps its position and colour |
| ShimmerView.GradientStops | Sources/FluentUI_common/Components/Shimmer/ShimmerView.swift:90-101 | three stops at `phase - w`, `phase - w/2` and `phase`, with `w` the shimmer width over the content width; nondecreasing when `w >= 0`; the middle colour differs from the outer two; the middle is dark exactly for concealing |
| ShimmerView.StylesAreComplementary | Sources/FluentUI_common/Components/Shimmer/ShimmerView.swift:96-98 | concealing and revealing put their stops at the same locations with opposite colours |
| ShimmerView.CoverCornerRadius | Sources/FluentUI_common/Components/Shimmer/ShimmerView.swift:68 | the label corner radius exactly for labels with a non-negative label radius, else the general radius |
| ShimmerView.CoverHeight | Sources/FluentUI_common/Components/Shimmer/ShimmerView.swift:70-71 | the label height exactly for labels that do not use the text height, else the content height |
| ShimmerView.SetAnimatableData | Sources/FluentUI_common/Components/Shimmer/ShimmerView.swift:53-56 | the setter makes the getter read the new value and changes nothing but `phase` |
| ShimmerView.AnimatableDataRoundTrip | Sources/FluentUI_common/Components/Shimmer/ShimmerView.swift:53-56 | writing back what the getter reads changes nothing, and a later write restores the original |
| ShimmerView.AnimatedMaskBody | Sources/FluentUI_common/Components/Shimmer/ShimmerView.swift:58-79 | a cover is added exactly when requested: as wide as the content, with the cover radius and height, masked by the gradient; otherwise the content itself is masked |
| ShimmerView.SweepCrossesGradient | Sources/FluentUI_common/Components/Shimmer/ShimmerView.swift:30-34 | at phase 0 the band's leading stop is at 0; at the phase `onAppear` targets, its trailing stop is at 1 |
| ShimmerView.Shimmer.constructor | Sources/FluentUI_common/Components/Shimmer/ShimmerView.swift:106-118 | memberwise initialisation; `phase` starts at 0 and the content size at zero |
| ShimmerView.Shimmer.WithDefaults | Sources/FluentUI_common/Components/Shimmer/ShimmerView.swift:106-118 | with the declared defaults a cover is added and labels do not use the text height |
| ShimmerView.Shimmer.Body | Sources/FluentUI_common/Components/Shimmer/ShimmerView.swift:13-41 | the content is returned unmodified when not shimmering; otherwise the animated mask of the current state is applied |
| ShimmerView.Shimmer.OnSizeChange | Sources/FluentUI_common/Components/Shimmer/ShimmerView.swift:27-29 | the recorded content size becomes the new size |
| ShimmerView.Shimmer.OnAppear | Sources/FluentUI_common/Components/Shimmer/ShimmerView.swift:30-34 | with reduce motion on, `phase` keeps its value; otherwise it becomes `1 + shimmerWidth / contentWidth` |

## Left out

- ShimmerView.GradientStops, ShimmerView.AnimatedMaskBody, ShimmerView.Shimmer.Body: these require a non-zero content width when shimmering. The source divides by the width in IEEE floating point, so before the first size report (content size zero) the stop locations are infinite or NaN. Those values are not modelled.
- ShimmerView.Shimmer.OnAppear: requires a non-zero content width when reduce motion is off. An `onAppear` that runs before the first size report would set `phase` to `1 + w/0` (ShimmerView.swift:32), an infinite or NaN value that is not modelled.
- ColorExtensions.HexColor: the division by 255 is exact in `real`; `CGFloat` rounding is not modelled.
- ColorExtensions.Resolve: the declared `init(light:dark:)` at NSColor+Extensions.swift:28-29 takes two parameters, but its body uses all eight slots, and the calls at 68-75 and 138-140 expect an initialiser with the eight slots, with defaults for the slots they do not pass. The model follows the eight-slot body and the decision order documented at 15-27. `UITraitCollection` handling and `resolvedColorValue` (the `light` … `darkElevatedHighContrast` accessors) are not modelled. Colours are opaque values.
- Tokenized.Control.TokenValue: FluentTheme.swift's `tokens(for:)` returns a token dictionary, while TokenizedControl.swift:40 calls an overload on the control that returns a token set object; that overload is not part of this model. The control holds its theme-layer token set as a field.
- Theme.TokenKey: the key is the metatype's printed name, kept abstract as `printedName`. The model does not derive it from the type: it assumes only that the printed name omits the module and any enclosing type, so distinct types can share a key. Whether two registrations collide therefore depends on which metatype the caller passes, for example a `ControlTokenSet` subclass or the generic `ControlTokenSet<…Tokens>`. Theme.SamePrintedNameEvictsOther states what happens when they do.
- Theme.Cast: the cast compares key enums by name (`keyType`) and treats maps as values whose keys are names. An empty dictionary is assumed to cast to any key type, and a non-empty one only to its own key enum.
- Tokenized.Control.ConfigureTokens: only the default no-op is modelled. Overrides in concrete controls (which set style and size, for example) are not part of this model.
- Notification delivery and observation (`NotificationCenter`, SwiftUI `@Environment` theme propagation, `@ObservedObject` updates): the model records posted notifications as a log only.
- `FluentTheme.init`, `dynamicColor(_:)` and the colour, shadow, typography and gradient token sets: their providers are not part of this model.
- Concrete numeric token values (`globalTokens`, `aliasTokens`, fonts, shadows, colours) are abstract names.
- SegmentedControl.SegmentPillButton.constructor: the token values the button reads through the segmented control are fixed for the button's lifetime. Title, accessibility and large-content properties are not modelled. The notification observer registration is not modelled; `IsUnreadValueDidChange` stands for its delivery.
- SegmentedControl.SegmentPillButton.UnreadDotLayerShape: the lazy creation of the dot layer is not modelled; its shape is a function of the token.
- SegmentedControl.SegmentPillButton.IsUnreadValueDidChange: `setNeedsLayout` is modelled as a flag only; the layout pass it schedules is `LayoutSubviews`.
- Animation (`Animation.linear`, delay, `repeatForever`), `matchedGeometryEffect`, right-to-left flipping and layout passes are not modelled. Reduce motion is a boolean parameter. `onAppear` sets the phase target directly, and the interpolation in between is not modelled.
- The shimmer tint colour, light opacity and dark gradient colour are not modelled: stop colours are the two names `LightStop` and `DarkStop`.
- Geometry uses `real` with no floating-point rounding.
