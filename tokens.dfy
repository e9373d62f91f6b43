/** Names of the design tokens the modelled controls use.

    The token tables themselves (alias colours, shared colours, global spacing,
    border radii and stroke widths) resolve to concrete values elsewhere; this
    model never looks inside them.  A colour decision is therefore modelled as
    the NAME of the token chosen. */
module Tokens {

  /** The alias colour tokens (`AliasTokens.ColorsTokens`), all 61 cases, in the
      order in which the demo's `text` label table lists them. */
  datatype ColorToken =
    | foreground1 | foreground2 | foreground3
    | foregroundDisabled1 | foregroundDisabled2
    | foregroundOnColor | foregroundInverted1 | foregroundInverted2
    | brandForeground1 | brandForeground1Pressed | brandForeground1Selected
    | brandForegroundDisabled1 | brandForegroundDisabled2
    | background1 | background1Pressed | background1Selected
    | background2 | background2Pressed | background2Selected
    | background3 | background3Pressed | background3Selected
    | background4 | background4Pressed | background4Selected
    | background5 | background5Pressed | background5Selected
    | background6 | background6Pressed | background6Selected
    | backgroundInverted | backgroundDisabled
    | brandBackground1 | brandBackground1Pressed | brandBackground1Selected
    | brandBackground2 | brandBackground2Pressed | brandBackground2Selected
    | brandBackground3 | brandBackground3Pressed
    | brandBackgroundDisabled | brandBackgroundTint | brandForegroundTint
    | stencil1 | stencil2 | canvasBackground
    | stroke1 | stroke2 | strokeDisabled | strokeAccessible | strokeFocus1 | strokeFocus2
    | brandStroke1 | brandStroke1Pressed | brandStroke1Selected
    | foregroundDarkStatic | foregroundLightStatic
    | backgroundDarkStatic | backgroundLightStatic | backgroundLightStaticDisabled

  /** Every alias colour token exactly once, in declaration order. */
  const AllColorTokens: seq<ColorToken> := [
    foreground1, foreground2, foreground3,
    foregroundDisabled1, foregroundDisabled2,
    foregroundOnColor, foregroundInverted1, foregroundInverted2,
    brandForeground1, brandForeground1Pressed, brandForeground1Selected,
    brandForegroundDisabled1, brandForegroundDisabled2,
    background1, background1Pressed, background1Selected,
    background2, background2Pressed, background2Selected,
    background3, background3Pressed, background3Selected,
    background4, background4Pressed, background4Selected,
    background5, background5Pressed, background5Selected,
    background6, background6Pressed, background6Selected,
    backgroundInverted, backgroundDisabled,
    brandBackground1, brandBackground1Pressed, brandBackground1Selected,
    brandBackground2, brandBackground2Pressed, brandBackground2Selected,
    brandBackground3, brandBackground3Pressed,
    brandBackgroundDisabled, brandBackgroundTint, brandForegroundTint,
    stencil1, stencil2, canvasBackground,
    stroke1, stroke2, strokeDisabled, strokeAccessible, strokeFocus1, strokeFocus2,
    brandStroke1, brandStroke1Pressed, brandStroke1Selected,
    foregroundDarkStatic, foregroundLightStatic,
    backgroundDarkStatic, backgroundLightStatic, backgroundLightStaticDisabled
  ]

  /** The shared colour tokens (`AliasTokens.SharedColorsTokens`) the modelled controls use. */
  datatype SharedColorToken = dangerForeground2 | dangerBackground2

  /** What a view's colour property is set to: the clear colour or the colour
      an alias or shared colour token resolves to. */
  datatype Paint = Clear | Alias(token: ColorToken) | Shared(shared: SharedColorToken)

  /** Global spacing scale entries (`GlobalTokens.SpacingToken`) the modelled controls use. */
  datatype SpacingToken = small | medium | large

  /** Global border radius entries (`GlobalTokens.BorderRadiusToken`) the modelled controls use. */
  datatype BorderRadiusToken = medium

  datatype Option<T> = None | Some(value: T)
}
