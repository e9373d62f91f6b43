/** The default design-token table of the heads-up display (`HeadsUpDisplayTokens`).

    Every property is a read-only computed value: an alias colour, an entry of
    a global table, or a constant.  The tables behind the entries are not part
    of this model; they are passed in as lookup functions. */
module HudTokens {
  import opened Tokens

  /** The properties of the heads-up display's token set. */
  datatype HudToken =
    | backgroundColor | activityIndicatorColor | labelColor
    | cornerRadius
    | horizontalPadding | verticalPadding | topPadding | bottomPadding
    | minSize | maxSize

  /** Where a property's value comes from. */
  datatype TokenValue =
    | AliasColor(color: ColorToken)                   // aliasTokens.colors[...]
    | StaticSpacing(spacing: SpacingToken)            // GlobalTokens.spacing(...), the static table
    | ThemeSpacing(spacing: SpacingToken)             // globalTokens.spacing[...], the theme's table
    | StaticBorderRadius(radius: BorderRadiusToken)   // GlobalTokens.borderRadius(...)
    | Points(points: int)                             // a literal

  predicate IsColorProperty(t: HudToken) {
    t == backgroundColor || t == activityIndicatorColor || t == labelColor
  }

  predicate IsSizeBound(t: HudToken) {
    t == minSize || t == maxSize
  }

  /** The default of every property, as `HeadsUpDisplayTokens` declares it. */
  function DefaultValue(t: HudToken): (v: TokenValue)
    ensures IsColorProperty(t) <==> v.AliasColor?
    ensures IsSizeBound(t) <==> v.Points?
    ensures v.Points? ==> v.points > 0
    ensures v.StaticBorderRadius? <==> t == cornerRadius
  {
    match t
    case backgroundColor => AliasColor(backgroundInverted)
    case activityIndicatorColor => AliasColor(strokeAccessible)
    case labelColor => AliasColor(foregroundInverted1)
    case cornerRadius => StaticBorderRadius(BorderRadiusToken.medium)
    case horizontalPadding => StaticSpacing(small)
    case verticalPadding => StaticSpacing(large)
    case topPadding => ThemeSpacing(large)
    case bottomPadding => ThemeSpacing(SpacingToken.medium)
    case minSize => Points(100)
    case maxSize => Points(192)
  }

  /** The colours of the display are the inverted-surface trio: an inverted
      background, an inverted foreground on it, and the accessible stroke. */
  lemma DefaultColors()
    ensures DefaultValue(backgroundColor) == AliasColor(backgroundInverted)
    ensures DefaultValue(activityIndicatorColor) == AliasColor(strokeAccessible)
    ensures DefaultValue(labelColor) == AliasColor(foregroundInverted1)
  {
  }

  /** Paddings: horizontal `.small` and vertical `.large` from the static table,
      top `.large` and bottom `.medium` from the theme's table. */
  lemma DefaultMetrics()
    ensures DefaultValue(cornerRadius) == StaticBorderRadius(BorderRadiusToken.medium)
    ensures DefaultValue(horizontalPadding) == StaticSpacing(small)
    ensures DefaultValue(verticalPadding) == StaticSpacing(large)
    ensures DefaultValue(topPadding) == ThemeSpacing(large)
    ensures DefaultValue(bottomPadding) == ThemeSpacing(SpacingToken.medium)
  {
  }

  /** The size bounds are 100 and 192 points, so the minimum never exceeds the maximum. */
  lemma SizeBoundsOrdered()
    ensures DefaultValue(minSize) == Points(100) && DefaultValue(maxSize) == Points(192)
    ensures DefaultValue(minSize).points <= DefaultValue(maxSize).points
  {
  }

  /** The global tables a value is resolved against: the static table and the
      theme's own table (which a theme may override). */
  datatype GlobalTables = GlobalTables(
    staticSpacing: SpacingToken -> real,
    themeSpacing: SpacingToken -> real,
    borderRadius: BorderRadiusToken -> real)

  datatype Resolved = Color(color: ColorToken) | Metric(metric: real)

  /** Resolution of a value: colours stay token names, metrics are looked up. */
  function Resolve(v: TokenValue, g: GlobalTables): (r: Resolved)
    ensures r.Color? <==> v.AliasColor?
    ensures v.AliasColor? ==> r.color == v.color
    ensures v.Points? ==> r == Metric(v.points as real)
    ensures v.StaticSpacing? ==> r == Metric(g.staticSpacing(v.spacing))
    ensures v.ThemeSpacing? ==> r == Metric(g.themeSpacing(v.spacing))
    ensures v.StaticBorderRadius? ==> r == Metric(g.borderRadius(v.radius))
  {
    match v
    case AliasColor(c) => Color(c)
    case StaticSpacing(s) => Metric(g.staticSpacing(s))
    case ThemeSpacing(s) => Metric(g.themeSpacing(s))
    case StaticBorderRadius(b) => Metric(g.borderRadius(b))
    case Points(p) => Metric(p as real)
  }

  /** The default corner radius is the `.medium` entry of the global
      border-radius table, whatever that table holds. */
  lemma CornerRadiusResolvesToMedium(g: GlobalTables)
    ensures Resolve(DefaultValue(cornerRadius), g) == Metric(g.borderRadius(BorderRadiusToken.medium))
  {
  }

  /** Vertical and top padding name the same step `.large`, but of different
      tables: they agree exactly when the theme's table agrees with the static
      one at that step. */
  lemma TopPaddingTracksThemeTable(g: GlobalTables)
    ensures Resolve(DefaultValue(topPadding), g) == Resolve(DefaultValue(verticalPadding), g)
        <==> g.themeSpacing(large) == g.staticSpacing(large)
  {
  }

  /** The token class is open: a subclass may override any subset of the
      properties.  `overrides` holds the values of the overridden properties. */
  function Value(t: HudToken, overrides: map<HudToken, TokenValue>): (v: TokenValue)
    ensures t in overrides ==> v == overrides[t]
    ensures t !in overrides ==> v == DefaultValue(t)
  {
    if t in overrides then overrides[t] else DefaultValue(t)
  }

  /** Overriding a property makes it read back the override, and leaves every
      other property as it was. */
  lemma OverrideThenRead(overrides: map<HudToken, TokenValue>, t: HudToken, v: TokenValue, other: HudToken)
    ensures Value(t, overrides[t := v]) == v
    ensures other != t ==> Value(other, overrides[t := v]) == Value(other, overrides)
  {
  }

  /** Dropping an override restores the default, as if it had never been overridden. */
  lemma ClearOverrideRestoresDefault(overrides: map<HudToken, TokenValue>, t: HudToken)
    ensures Value(t, overrides - {t}) == Value(t, map[])
    ensures Value(t, overrides - {t}) == DefaultValue(t)
  {
  }
}
