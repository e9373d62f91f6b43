# FluentUI for iOS: button, colour-token demo, avatar group, calendar day cell and HUD tokens

This project models five pieces of the FluentUI iOS controls in Dafny and proves what they promise:

- **`Button`** (`button.dfy`, module `ButtonModel`):
  - the closed style tables of `ButtonStyle`;
  - the colour decisions for title, image, background and border, per style, enabled, highlighted and focused state;
  - the `Button` object whose property observers run `update()` and its helpers;
  - the latch that marks content insets as custom, which the `Button` object runs as the source writes it (the corrected behaviour is stated beside it, in the style-and-insets event model);
  - the shift of custom insets when the image appears or goes.
- **Alias colour token demo** (`alias_colors_demo.dfy`, module `AliasColorTokensDemo`):
  - the legibility pairing `textColor(for:)`, total over the 61 alias colour tokens;
  - the six sections with their titles and row lists;
  - the row labels `text`;
  - the table view's data source.
- **Avatar group** (`avatar_group.dfy`, module `AvatarGroupModel`):
  - `MSFAvatarGroupStateImpl`, a list of avatars edited in place by bounds-checked insert, get and remove;
  - the counts that `AvatarGroup.body` derives from it: avatars shown, overflow number, and cutout decisions, computed with 64-bit `Int` arithmetic that traps.
- **Calendar day cell** (`calendar_day_cell.dfy`, module `CalendarDayCell`):
  - `CalendarViewDayCell` with its indicator-level dot alpha, its visual-state alpha table and its label colour;
  - its `SelectionOverlayView`, which lazily creates a circle and a square and shows the ones the selection type needs while the day is selected or highlighted.
- **HUD tokens** (`hud_tokens.dfy`, module `HudTokens`):
  - the default table of `HeadsUpDisplayTokens`;
  - resolution of those defaults against global tables;
  - subclass overrides.

`tokens.dfy` (module `Tokens`) declares the token names the modules share:
- the 61 alias colour tokens;
- the two shared colour tokens;
- the spacing and border-radius steps;
- `Paint`, which is a clear colour, an alias token or a shared token;
- an `Option` type.

Colours are modelled as the token chosen, never as RGBA values. The theme's token tables are not part of this model. Where a value depends on them, the table is a parameter.

The objects whose fields the source updates in place are classes:
- `Button`, `AvatarGroupState`, `GroupAvatar`, `DayCell`, `SelectionOverlay` and `OverlayShape`.

The methods' `ensures` clauses give the new state in terms of the pure functions of the model and the old state. Four classes keep an invariant:
- `Button.Rendered` ties the title colours, images, background and border to the style functions. It also says the insets count as custom. The corner radius and the title font are set once, and only the constructor's `ensures` states them.
- `DayCell.Rendered` ties the label colour and the dot's visibility to `LabelColor` and the selection state. `DayCell.Valid` keeps the overlay's flags equal to the cell's.
- `SelectionOverlay.Valid` keeps the circle and the square distinct objects.
- `AvatarGroupState.Valid` lists every avatar once.

`GroupAvatar` and `OverlayShape` are plain records of fields with no invariant.

## Model

| member | source | states |
|---|---|---|
| HudTokens.DefaultValue | ios/FluentUI/HUD/HUDTokens.swift:13-54 | exactly the three colour properties are alias colours, exactly the two size bounds are literal points (positive), and only the corner radius comes from the border-radius table |
| HudTokens.DefaultColors | ios/FluentUI/HUD/HUDTokens.swift:13-19 | background `backgroundInverted`, activity indicator `strokeAccessible`, label `foregroundInverted1` |
| HudTokens.DefaultMetrics | ios/FluentUI/HUD/HUDTokens.swift:22-44 | corner radius is border radius `.medium`; horizontal/vertical padding are static spacing `.small`/`.large`; top/bottom padding are the theme's spacing `.large`/`.medium` |
| HudTokens.SizeBoundsOrdered | ios/FluentUI/HUD/HUDTokens.swift:47-54 | minimum size 100, maximum 192, so minimum ≤ maximum |
| HudTokens.Resolve | ios/FluentUI/HUD/HUDTokens.swift:22-44 | colours resolve to their token; static spacing reads the static table, theme spacing the theme's table, border radius the border-radius table, points their literal |
| HudTokens.CornerRadiusResolvesToMedium | ios/FluentUI/HUD/HUDTokens.swift:22-24 | the default corner radius resolves to the `.medium` entry of whatever border-radius table is given |
| HudTokens.TopPaddingTracksThemeTable | ios/FluentUI/HUD/HUDTokens.swift:32-39 | top and vertical padding resolve equal exactly when the theme's `.large` spacing equals the static one |
| HudTokens.Value | ios/FluentUI/HUD/HUDTokens.swift:10-19 | an overridden property reads its override, any other its default |
| HudTokens.OverrideThenRead | ios/FluentUI/HUD/HUDTokens.swift:10-19 | overriding one property reads back the override and leaves every other property unchanged |
| HudTokens.ClearOverrideRestoresDefault | ios/FluentUI/HUD/HUDTokens.swift:10-19 | dropping an override restores the default |
| ButtonModel.ContentEdgeInsets | ios/FluentUI/Button/Button.swift:20-31 | every style's insets have top = bottom and leading = trailing, and are wider than tall |
| ButtonModel.CornerRadius | ios/FluentUI/Button/Button.swift:33-40 | 5 exactly for `tertiaryOutline`, 8 otherwise |
| ButtonModel.HasBorders | ios/FluentUI/Button/Button.swift:42-49 | holds exactly for the four outline styles |
| ButtonModel.IsDangerStyle | ios/FluentUI/Button/Button.swift:51-58 | holds exactly for `dangerFilled` and `dangerOutline` |
| ButtonModel.IsFilledStyle | ios/FluentUI/Button/Button.swift:60-67 | holds exactly for the two filled styles, and no filled style has borders |
| ButtonModel.MinTitleLabelHeight | ios/FluentUI/Button/Button.swift:69-76 | 18 exactly for the secondary and tertiary outlines, 20 otherwise |
| ButtonModel.TitleFont | ios/FluentUI/Button/Button.swift:78-85 | `button2` exactly for the secondary and tertiary outlines |
| ButtonModel.TitleImagePadding | ios/FluentUI/Button/Button.swift:87-96 | 0 exactly for `tertiaryOutline`; otherwise 8 or 10 |
| ButtonModel.TitleMetricsAgree | ios/FluentUI/Button/Button.swift:20-96 | the smaller font goes with the smaller label height; the 16-point insets go with the 10-point padding |
| ButtonModel.IsDisplayingImage | ios/FluentUI/Button/Button.swift:295 | an image shows exactly when the button has one and the style's title–image padding is positive, so never for `tertiaryOutline` |
| ButtonModel.TitleAndImageColors | ios/FluentUI/Button/Button.swift:359-377 | filled and danger styles use the same colour normal and highlighted, the other styles differ; disabled is `foregroundOnColor` for filled styles, `foregroundDisabled1` otherwise; none is clear |
| ButtonModel.TitleColorsDeterminedByNormal | ios/FluentUI/Button/Button.swift:359-377 | two styles with the same normal colour have the same colours in all three states |
| ButtonModel.PrimaryFilledBackgroundColor | ios/FluentUI/Button/Button.swift:445-455 | highlighted → `brandBackground1Pressed`, else focused → `brandBackground1Selected`, else `brandBackground1` |
| ButtonModel.BackgroundColor | ios/FluentUI/Button/Button.swift:463-484 | disabled: `background5` for filled styles, clear otherwise; enabled primary filled per highlight and focus; enabled danger filled `dangerBackground2`; non-clear exactly for filled styles |
| ButtonModel.BackgroundReactsOnlyForEnabledPrimaryFilled | ios/FluentUI/Button/Button.swift:445-484 | highlight or focus changes the background only for an enabled primary filled button, and highlight always does there |
| ButtonModel.BorderColor | ios/FluentUI/Button/Button.swift:486-504 | none (left untouched) exactly for styles without borders; otherwise disabled → `strokeFocus1`, then danger → `dangerForeground2`, then highlighted → `brandStroke1Pressed`, else `brandForeground1` |
| ButtonModel.BorderMatchesTitle | ios/FluentUI/Button/Button.swift:486-504 | an enabled bordered button's border is its title colour of the same state; a disabled one's is not its disabled title colour |
| ButtonModel.UpdateInsetsAsWritten | ios/FluentUI/Button/Button.swift:344-354 | the inset step of `update` as written always leaves the custom flag set |
| ButtonModel.UpdateInsets | ios/FluentUI/Button/Button.swift:352-354 | the intended inset step keeps the flag; uncustomised insets become the style default, custom ones stay |
| ButtonModel.DefaultInsetsFollowStyle | ios/FluentUI/Button/Button.swift:104-111 | with the intended step, a button whose insets no client assigned always has the default insets of its current style |
| ButtonModel.ClientInsetsPersist | ios/FluentUI/Button/Button.swift:139-141 | in the style-and-insets event model (no image), with the intended inset step and with the one as written alike, once a client assigns insets they stay exactly as assigned through any later style changes and updates |
| ButtonModel.InsetsFrozenAsWritten | ios/FluentUI/Button/Button.swift:139-141 | as written, a button whose insets no client assigned keeps the insets of its initial style forever |
| ButtonModel.InsetLatchCounterexample | ios/FluentUI/Button/Button.swift:352-354 | secondary outline then primary filled: 10/14 insets as written, 16/20 as intended |
| ButtonModel.AssignedShift | ios/FluentUI/Button/Button.swift:143-147 | assigning `edgeInsets` widens the trailing edge by a non-negative amount, non-zero exactly while an image is set and the style is not the tertiary outline |
| ButtonModel.ImageShift | ios/FluentUI/Button/Button.swift:318-340 | the trailing-inset change of `updateImage`: non-zero exactly when the insets are custom, the image appears or goes, and the style is not the tertiary outline; positive when it appears, negative when it goes |
| ButtonModel.ImageShiftRoundTrip | ios/FluentUI/Button/Button.swift:417-443 | under one style, the image appearing and then going leaves the trailing inset where it was |
| ButtonModel.TrailingInsetDriftsThroughTertiary | ios/FluentUI/Button/Button.swift:417-443 | the padding removed is that of the current style: hidden under the tertiary outline (0) and shown again under primary filled (+10), the inset gains 10 |
| ButtonModel.Button.constructor | ios/FluentUI/Button/Button.swift:210-244 | the initial inputs, the style's corner radius and font, no images, the style's default insets already marked custom by the first `update`, zero title insets, and a fully rendered state |
| ButtonModel.Button.AdjustCustomContentEdgeInsetsForImage | ios/FluentUI/Button/Button.swift:417-443 | the trailing inset and the title's left inset gain the style's padding (negated when no image is set), the title's right inset loses it, and the insets count as custom |
| ButtonModel.Button.AssignEdgeInsets | ios/FluentUI/Button/Button.swift:139-147 | the assigned insets are stored, marked custom, and widened at the trailing edge by `AssignedShift` |
| ButtonModel.Button.UpdateTitleColors | ios/FluentUI/Button/Button.swift:286-292 | title colours become the style's colours in a window and are unchanged outside one |
| ButtonModel.Button.RetintImages | ios/FluentUI/Button/Button.swift:294-322 | the cached tints become the style's three title colours; a displayed image is re-tinted in all three states; images are all set or all absent |
| ButtonModel.Button.UpdateImage | ios/FluentUI/Button/Button.swift:294-342 | images are set exactly when the style displays the image and the button is in a window (or they were set already), otherwise images and tints are cleared; custom insets move by `ImageShift` of the image appearing or going, and the custom flag is unchanged |
| ButtonModel.Button.UpdateBackgroundColor | ios/FluentUI/Button/Button.swift:463-484 | the background becomes `BackgroundColor` of the current inputs |
| ButtonModel.Button.UpdateBorderColor | ios/FluentUI/Button/Button.swift:486-504 | bordered styles get `BorderColor`; other styles keep the old border colour |
| ButtonModel.Button.Update | ios/FluentUI/Button/Button.swift:344-357 | everything derived is re-rendered and the insets count as custom afterwards; insets already custom only move by `ImageShift`, otherwise they become the style default widened by `AssignedShift`; titles untouched outside a window, and a borderless style's border colour untouched |
| ButtonModel.Button.UpdateContent | ios/FluentUI/Button/Button.swift:345-346 | titles and images rendered for the current style; insets move by `ImageShift` |
| ButtonModel.Button.UpdateLayer | ios/FluentUI/Button/Button.swift:347-350 | background, border colour and border width rendered; a borderless style keeps its old border colour |
| ButtonModel.Button.UpdateBorderWidth | ios/FluentUI/Button/Button.swift:350 | the stroke width exactly for bordered styles, zero otherwise |
| ButtonModel.Button.UpdateDefaultInsets | ios/FluentUI/Button/Button.swift:352-354 | the insets count as custom afterwards; custom insets are untouched, others become the style default through the `edgeInsets` observer |
| ButtonModel.Button.SetStyle | ios/FluentUI/Button/Button.swift:104-111 | assigning the current style changes nothing; a new style re-renders and keeps the insets, moving only the trailing edge by `ImageShift`; outside a window the title colours, and for a borderless style the border colour, stay as they were |
| ButtonModel.Button.SetImage | ios/FluentUI/Button/Button.swift:116-121 | re-renders; without a displayable image no image is set; the trailing inset moves by `ImageShift`; outside a window the title colours, and for a borderless style the border colour, stay as they were |
| ButtonModel.Button.SetHighlighted | ios/FluentUI/Button/Button.swift:123-129 | the same value changes nothing; a new one re-renders and leaves content and title insets as they were; outside a window the title colours, and for a borderless style the border colour, stay as they were |
| ButtonModel.Button.SetEnabled | ios/FluentUI/Button/Button.swift:131-137 | the same value changes nothing; a new one re-renders and leaves content and title insets as they were; outside a window the title colours, and for a borderless style the border colour, stay as they were |
| ButtonModel.Button.SetEdgeInsets | ios/FluentUI/Button/Button.swift:139-147 | the client's insets are stored widened by `AssignedShift` while an image is set, the title insets move by the same amount, and the flag is latched |
| ButtonModel.Button.DidUpdateFocus | ios/FluentUI/Button/Button.swift:246-252 | only filled styles repaint their background; the render invariant holds |
| ButtonModel.Button.Repaint | ios/FluentUI/Button/Button.swift:276-284 | background per `BackgroundColor`; border per `BorderColor` for bordered styles, untouched otherwise; titles and images rendered; insets move by `ImageShift` |
| ButtonModel.Button.DidMoveToWindow | ios/FluentUI/Button/Button.swift:262-268 | entering or leaving a window keeps everything rendered; an image first set on entering widens the trailing inset by `ImageShift`; leaving a window keeps the title colours, and a borderless style keeps its border colour |
| ButtonModel.Button.TraitCollectionDidChange | ios/FluentUI/Button/Button.swift:254-260 | no interface-style change, no change to the button; a change keeps everything rendered and leaves a borderless style's border colour as it was |
| ButtonModel.TertiaryOutlineShowsNoImage | ios/FluentUI/Button/Button.swift:294-296 | a rendered tertiary outline button has no image in any state |
| ButtonModel.StyleChangeKeepsInitialInsets | ios/FluentUI/Button/Button.swift:352-354 | a `Button` created as secondary outline and switched to primary filled keeps the secondary outline's insets |
| ButtonModel.TrailingInsetDrift | ios/FluentUI/Button/Button.swift:318-340 | a primary filled `Button` in a window that shows its image, goes to the tertiary outline and back, and loses its image ends with a trailing inset 10 points wider |
| AliasColorTokensDemo.TextColor | ios/FluentUI.Demo/FluentUI.Demo/Demos/AliasColorTokensDemoController.swift:48-116 | total over the 61 tokens, and always one of `foreground1`, `foregroundOnColor`, `foregroundDarkStatic`, `foregroundInverted1` |
| AliasColorTokensDemo.LabelColorsPairMutually | ios/FluentUI.Demo/FluentUI.Demo/Demos/AliasColorTokensDemoController.swift:74-114 | `foregroundOnColor` and `foreground1` label each other, as do `foregroundInverted1` and `foregroundDarkStatic` |
| AliasColorTokensDemo.PairingIsInvolution | ios/FluentUI.Demo/FluentUI.Demo/Demos/AliasColorTokensDemoController.swift:48-116 | pairing a label colour twice gives it back, and a label colour never labels itself |
| AliasColorTokensDemo.NoTokenLabelsItself | ios/FluentUI.Demo/FluentUI.Demo/Demos/AliasColorTokensDemoController.swift:48-116 | no token is labelled in its own colour |
| AliasColorTokensDemo.BackgroundStepsUseForeground1 | ios/FluentUI.Demo/FluentUI.Demo/Demos/AliasColorTokensDemoController.swift:50-82 | every `background1`…`background6` token, pressed and selected included, is labelled in `foreground1` |
| AliasColorTokensDemo.AllSectionsComplete | ios/FluentUI.Demo/FluentUI.Demo/Demos/AliasColorTokensDemoController.swift:124-130 | `allCases` has six entries, lists every section, and lists none twice |
| AliasColorTokensDemo.Title | ios/FluentUI.Demo/FluentUI.Demo/Demos/AliasColorTokensDemoController.swift:132-147 | every section has a non-empty title |
| AliasColorTokensDemo.TitlesDistinct | ios/FluentUI.Demo/FluentUI.Demo/Demos/AliasColorTokensDemoController.swift:132-147 | different sections have different titles |
| AliasColorTokensDemo.RowsBelongToSection | ios/FluentUI.Demo/FluentUI.Demo/Demos/AliasColorTokensDemoController.swift:149-219 | every row of a section is a token of that section's category |
| AliasColorTokensDemo.TokenListedInItsSection | ios/FluentUI.Demo/FluentUI.Demo/Demos/AliasColorTokensDemoController.swift:149-219 | every token is a row of its own section |
| AliasColorTokensDemo.RowsPartitionTokens | ios/FluentUI.Demo/FluentUI.Demo/Demos/AliasColorTokensDemoController.swift:149-219 | a token is a row of a section exactly when that section is its own, so each token is in exactly one section |
| AliasColorTokensDemo.RowsDistinct | ios/FluentUI.Demo/FluentUI.Demo/Demos/AliasColorTokensDemoController.swift:149-219 | no section lists a token twice |
| AliasColorTokensDemo.TableListsEveryTokenOnce | ios/FluentUI.Demo/FluentUI.Demo/Demos/AliasColorTokensDemoController.swift:149-219 | the section lengths are 26, 10, 10, 6, 6, 3; the table has 61 rows, contains every token and repeats none |
| AliasColorTokensDemo.TextAsWritten | ios/FluentUI.Demo/FluentUI.Demo/Demos/AliasColorTokensDemoController.swift:222-348 | every label as written is non-empty, and agrees with the corrected labels except for the two static light backgrounds |
| AliasColorTokensDemo.LightStaticLabelRunsWordsTogether | ios/FluentUI.Demo/FluentUI.Demo/Demos/AliasColorTokensDemoController.swift:343-344 | the `backgroundLightStatic` label as written has no word break |
| AliasColorTokensDemo.LightStaticDisabledLabelRunsWordsTogether | ios/FluentUI.Demo/FluentUI.Demo/Demos/AliasColorTokensDemoController.swift:345-346 | the `backgroundLightStaticDisabled` label as written has no word break |
| AliasColorTokensDemo.TextHasWordBreaks | ios/FluentUI.Demo/FluentUI.Demo/Demos/AliasColorTokensDemoController.swift:222-348 | every corrected label is non-empty and contains a space |
| AliasColorTokensDemo.NumberOfSections | ios/FluentUI.Demo/FluentUI.Demo/Demos/AliasColorTokensDemoController.swift:16-18 | six sections |
| AliasColorTokensDemo.TitleForHeader | ios/FluentUI.Demo/FluentUI.Demo/Demos/AliasColorTokensDemoController.swift:20-22 | the header is the non-empty title of the section at that index |
| AliasColorTokensDemo.NumberOfRows | ios/FluentUI.Demo/FluentUI.Demo/Demos/AliasColorTokensDemoController.swift:24-26 | the section's row count, between 3 and 26 |
| AliasColorTokensDemo.CellForRow | ios/FluentUI.Demo/FluentUI.Demo/Demos/AliasColorTokensDemoController.swift:28-46 | the cell shows the row at that index, a token of that section, with its label as written (non-empty; with a space exactly for the 59 tokens other than the two static light backgrounds) drawn in its paired colour, never the token itself |
| AliasColorTokensDemo.EveryTokenHasACell | ios/FluentUI.Demo/FluentUI.Demo/Demos/AliasColorTokensDemoController.swift:16-46 | every token is shown by some cell at a valid index path |
| AvatarGroupModel.InsertAt | ios/FluentUI/AvatarGroup/AvatarGroup.swift:230-237 | one element longer; the new element at the index; earlier elements unchanged, later ones shifted by one; same multiset plus the new element |
| AvatarGroupModel.RemoveAt | ios/FluentUI/AvatarGroup/AvatarGroup.swift:246-251 | one element shorter; earlier elements unchanged, later ones shifted back by one; the multiset loses exactly the removed element |
| AvatarGroupModel.RemoveUndoesInsert | ios/FluentUI/AvatarGroup/AvatarGroup.swift:230-251 | removing at the index where an avatar was inserted gives back the list |
| AvatarGroupModel.InsertUndoesRemove | ios/FluentUI/AvatarGroup/AvatarGroup.swift:230-251 | re-inserting a removed avatar at its index gives back the list |
| AvatarGroupModel.RemoveKeepsNoDuplicates | ios/FluentUI/AvatarGroup/AvatarGroup.swift:246-251 | removal keeps the list free of repeated avatars |
| AvatarGroupModel.InsertKeepsNoDuplicates | ios/FluentUI/AvatarGroup/AvatarGroup.swift:230-237 | inserting an avatar not yet listed keeps the list free of repeated avatars |
| AvatarGroupModel.GroupAvatar.constructor | ios/FluentUI/AvatarGroup/AvatarGroup.swift:271-275 | a new avatar has the size it was created with |
| AvatarGroupModel.AvatarGroupState.constructor | ios/FluentUI/AvatarGroup/AvatarGroup.swift:253-268 | empty list, cap `Int.max`, extra overflow 0, the given style and size |
| AvatarGroupModel.AvatarGroupState.CreateAvatarAt | ios/FluentUI/AvatarGroup/AvatarGroup.swift:230-237 | for 0 ≤ index ≤ count, a fresh avatar of the group's size is inserted at the index, and no avatar is listed twice |
| AvatarGroupModel.AvatarGroupState.CreateAvatar | ios/FluentUI/AvatarGroup/AvatarGroup.swift:226-228 | a fresh avatar is appended |
| AvatarGroupModel.AvatarGroupState.GetAvatarState | ios/FluentUI/AvatarGroup/AvatarGroup.swift:239-244 | the avatar at a valid index, with nothing changed |
| AvatarGroupModel.AvatarGroupState.RemoveAvatar | ios/FluentUI/AvatarGroup/AvatarGroup.swift:246-251 | exactly the avatar at a valid index is removed, the others keep their order, and it is no longer listed |
| AvatarGroupModel.AvatarGroupState.Layout | ios/FluentUI/AvatarGroup/AvatarGroup.swift:107-114 | the view's counts for this state; never more shown than listed |
| AvatarGroupModel.FirstAvatarIsShown | ios/FluentUI/AvatarGroup/AvatarGroup.swift:253-255 | a new group with one created avatar shows it and no overflow |
| AvatarGroupModel.GroupDisplay | ios/FluentUI/AvatarGroup/AvatarGroup.swift:112-114 | no trap exactly when the cap is non-negative and the overflow sum fits in `Int`; then shown = min(cap, count), shown plus the hidden avatars is the count, and `hasOverflow` exactly when the overflow is positive |
| AvatarGroupModel.DefaultCapShowsEveryAvatar | ios/FluentUI/AvatarGroup/AvatarGroup.swift:253-255 | with the default cap and no extra overflow, every avatar is shown and no overflow avatar |
| AvatarGroupModel.CapSplitsAvatars | ios/FluentUI/AvatarGroup/AvatarGroup.swift:112-114 | below the cap all are shown; above it exactly the cap is shown and the rest plus the extra is the overflow, which is then shown |
| AvatarGroupModel.CutoutPlan | ios/FluentUI/AvatarGroup/AvatarGroup.swift:140-145 | one decision per shown avatar; none in pile style; in stack style every avatar but the last, and the last exactly when there is overflow |
| CalendarDayCell.DotAlpha | ios/FluentUI/Calendar/Views/CalendarViewDayCell.swift:130 | within [0, 1] for levels ≥ 0; 1 for every level ≥ 4; 0 exactly for level 0 |
| CalendarDayCell.DotAlphaMonotone | ios/FluentUI/Calendar/Views/CalendarViewDayCell.swift:121-130 | a higher indicator level never gives a fainter dot |
| CalendarDayCell.ContentAlpha | ios/FluentUI/Calendar/Views/CalendarViewDayCell.swift:137-155 | 0.2 exactly in `fadedWithDots`, 1 otherwise |
| CalendarDayCell.VisibleDotAlpha | ios/FluentUI/Calendar/Views/CalendarViewDayCell.swift:137-155 | 0 in `normal`; the stored level alpha in the two states with dots |
| CalendarDayCell.LabelColor | ios/FluentUI/Calendar/Views/CalendarViewDayCell.swift:189-204 | `foregroundOnColor` exactly while selected or highlighted; otherwise `foreground3` for primary text and `foreground1` for secondary text |
| CalendarDayCell.SelectionShapes | ios/FluentUI/Calendar/Views/CalendarViewDayCell.swift:276-290 | every selection type draws a shape: a single day only the circle, the middle of a range only the square, its ends both |
| CalendarDayCell.SelectionOverlay.constructor | ios/FluentUI/Calendar/Views/CalendarViewDayCell.swift:217-244 | single selection, normal style, unselected, alpha 1, no shapes created |
| CalendarDayCell.SelectionOverlay.SetupView | ios/FluentUI/Calendar/Views/CalendarViewDayCell.swift:314-321 | the shape is attached and hidden exactly when neither selected nor highlighted |
| CalendarDayCell.SelectionOverlay.SetupCircleView | ios/FluentUI/Calendar/Views/CalendarViewDayCell.swift:292-301 | the circle is created only if absent, reused otherwise, and set up in `brandBackground1` |
| CalendarDayCell.SelectionOverlay.SetupSquareView | ios/FluentUI/Calendar/Views/CalendarViewDayCell.swift:303-312 | the square is created only if absent, reused otherwise, and set up in `brandBackground1` |
| CalendarDayCell.SelectionOverlay.SetupActiveViews | ios/FluentUI/Calendar/Views/CalendarViewDayCell.swift:276-290 | the shapes the selection type needs are set up, the other is absent or hidden; a shape exists afterwards exactly when it existed or is needed, and existing shapes are reused |
| CalendarDayCell.SelectionOverlay.SetSelectionType | ios/FluentUI/Calendar/Views/CalendarViewDayCell.swift:217-221 | stores the type and sets up the active views; an existing circle or square is reused and any new one is fresh |
| CalendarDayCell.SelectionOverlay.SetSelected | ios/FluentUI/Calendar/Views/CalendarViewDayCell.swift:225-229 | stores the flag and sets up the active views; an existing circle or square is reused and any new one is fresh |
| CalendarDayCell.SelectionOverlay.SetHighlighted | ios/FluentUI/Calendar/Views/CalendarViewDayCell.swift:230-234 | stores the flag and sets up the active views; an existing circle or square is reused and any new one is fresh |
| CalendarDayCell.SelectionOverlay.DidMoveToWindow | ios/FluentUI/Calendar/Views/CalendarViewDayCell.swift:271-274 | sets up the active views; an existing circle or square is reused and any new one is fresh |
| CalendarDayCell.DayCell.constructor | ios/FluentUI/Calendar/Views/CalendarViewDayCell.swift:77-103 | primary text in `foreground3`, dot colour `foreground3` at alpha 0, stored dot alpha 1, unselected, overlay without shapes |
| CalendarDayCell.DayCell.UpdateViews | ios/FluentUI/Calendar/Views/CalendarViewDayCell.swift:189-207 | label colour per `LabelColor`, dot hidden exactly while selected or highlighted, background `background2` |
| CalendarDayCell.DayCell.SetSelected | ios/FluentUI/Calendar/Views/CalendarViewDayCell.swift:55-60 | the flag reaches the overlay, whose shapes are set up, the views are re-rendered with background `background2`, and the overlay's existing shapes are reused |
| CalendarDayCell.DayCell.SetHighlighted | ios/FluentUI/Calendar/Views/CalendarViewDayCell.swift:62-67 | the flag reaches the overlay, whose shapes are set up, the views are re-rendered with background `background2`, and the overlay's existing shapes are reused |
| CalendarDayCell.DayCell.Setup | ios/FluentUI/Calendar/Views/CalendarViewDayCell.swift:121-133 | stores text style, selection style and label, stores `DotAlpha(level)` without applying it, and re-renders with background `background2` |
| CalendarDayCell.DayCell.SetVisualState | ios/FluentUI/Calendar/Views/CalendarViewDayCell.swift:135-163 | content alpha per `ContentAlpha`, dot alpha per `VisibleDotAlpha`; label and overlay alpha 1 in every state |
| CalendarDayCell.DayCell.SetSelectionType | ios/FluentUI/Calendar/Views/CalendarViewDayCell.swift:165-167 | forwarded to the overlay, whose shapes are set up and whose existing shapes are reused |
| CalendarDayCell.DayCell.ThemeDidChangeAsWritten | ios/FluentUI/Calendar/Views/CalendarViewDayCell.swift:111-115 | as written the label ends `foreground3`, which differs from `LabelColor` whenever the day is selected, highlighted or secondary; the dot is hidden exactly while selected or highlighted and the background is `background2`, as `updateViews` leaves them |
| CalendarDayCell.DayCell.ThemeDidChange | ios/FluentUI/Calendar/Views/CalendarViewDayCell.swift:111-115 | as intended the views are re-rendered and the dot repainted `foreground3` |
| CalendarDayCell.SelectedLabelAfterThemeChange | ios/FluentUI/Calendar/Views/CalendarViewDayCell.swift:111-115 | a selected day after a theme change as written has a `foreground3` label where `foregroundOnColor` is due |

## Left out

- Theme-change broadcast through `NotificationCenter` and the `isDescendant(of:)` filter are left out. Only what the handlers recompute is modelled, as `Button.Repaint` and `DayCell.ThemeDidChange`.
- The definitions of `AliasTokens`, `GlobalTokens`, `ControlTokens`, `FluentTheme` and `DynamicColor` are not part of this model. Colours are token names, and global tables are parameters of `HudTokens.Resolve`.
- Floating-point layout is left out:
  - `intrinsicContentSize`, `imageRect`, `updateProposedTitleLabelWidth` and `layoutSubviews`;
  - the avatar group height, cutout origins and stack padding;
  - the cell and overlay frames.
- `ShadowInfo` is left out: it holds only a floating-point multiplication and layer calls.
- Platform branches are left out:
  - the iOS 15 `UIButton.Configuration` branches;
  - the right-to-left swap of the insets and the mirroring of subviews.
- The iOS 15 branch of `adjustCustomContentEdgeInsetsForImage`, which sets the configuration's image padding, is left out. The model follows the earlier branch, which shifts the trailing inset and the title insets by the integer padding 0, 8 or 10.
- ClientInsetsPersist: the style-and-insets event model behind the inset-latch lemmas has no image events, so the image shift is not part of it. The shift is modelled on the `Button` object (`ImageShift`, `TrailingInsetDrift`).
- Button.SetImage: the image is a flag. Replacing one shown image by another is not distinguished: the source then calls no `setImage`, because the normal-state image is already set and the tints are unchanged, so the button keeps showing the old image.
- TitleAndImageColors: the six `lazy var` colours keep the theme's value from their first use. The model reads the current token every time, so a later theme change to those tokens is not modelled.
- TextHasWordBreaks: states that each corrected label contains a space, not that its words are exactly those of the token's name.
- Button.RetintImages: an image is recorded as the colour it was tinted with. The bitmap is not modelled, and `UIColor.isEqual` is token equality.
- Button: `layer.cornerRadius` and the title font are set once by `initialize`, and `cornerCurve` and `adjustsFontForContentSizeCategory` are not modelled.
- `UIView.animate` in `setVisualState` is left out. Only its end state is modelled, so `DayCell.SetVisualState` ignores `animated`.
- `SelectionOverlay.SetupView`: `bringSubviewToFront` is not modelled, so the z-order of the circle and the square is left out. `addSubview` is the `attached` flag.
- The avatar payload (text, images, colours, rings) is left out. Avatars are opaque objects with their size, and `MSFAvatarSize` is a type parameter because its cases are not shown.
- `AvatarGroup.body` view building, `CircleCutout` and the overflow avatar's rendering are left out. Only the counts and the cutout decisions are modelled.
- `@Published`/`ObservableObject` observation and `overrideTokens` are left out.
- AvatarGroupModel.AvatarGroupState.CreateAvatarAt: the `preconditionFailure` guards of `createAvatar(at:)`, `getAvatarState(at:)` and `removeAvatar(at:)` become `requires` clauses.
- AvatarGroupModel.GroupDisplay: Swift's 64-bit traps are `None`. The list length is assumed to fit in `Int`, which it always does in Swift.
- The demo controller's cell dequeue, attributed strings and `viewDidLoad` are left out. `CellForRow` returns what the cell shows.
- `CalendarViewDayCell.identifier`, the `init(coder:)` failure and the dot and border size constants are left out. They are constants with no logic.

## Findings

| source | as written | input that shows it | evidently intended | confidence | as-written member | corrected member |
|---|---|---|---|---|---|---|
| ios/FluentUI/Button/Button.swift:352-354 | `update` assigns the style's default insets through `edgeInsets`, whose observer (139-141) sets `isUsingCustomContentEdgeInsets`; the first `update`, run by `initialize`, latches the flag, so later style changes never reset the insets | create with `secondaryOutline`, then assign `primaryFilled`: insets stay 10/14 instead of 16/20 | default insets follow the style until a client assigns insets | medium; not executed | ButtonModel.InsetsFrozenAsWritten | ButtonModel.DefaultInsetsFollowStyle |
| ios/FluentUI/Calendar/Views/CalendarViewDayCell.swift:111-115 | `themeDidChange` runs `updateViews` and then sets the date label colour to `foreground3` unconditionally | a selected day (label `foregroundOnColor` on the `brandBackground1` circle) receiving a theme change: label becomes `foreground3` | the label keeps the colour `updateViews` chose for its state | medium; not executed | CalendarDayCell.DayCell.ThemeDidChangeAsWritten | CalendarDayCell.DayCell.ThemeDidChange |
| ios/FluentUI.Demo/FluentUI.Demo/Demos/AliasColorTokensDemoController.swift:343-346 | the labels of `backgroundLightStatic` and `backgroundLightStaticDisabled` run their words together | `backgroundLightStatic` is labelled "BackgroundLightStatic" | "Background Light Static" and "Background Light Static Disabled", like every other label | high; not executed | AliasColorTokensDemo.LightStaticLabelRunsWordsTogether | AliasColorTokensDemo.TextHasWordBreaks |
