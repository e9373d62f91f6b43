/** The alias colour token demo: a table of every alias colour token, grouped
    into six sections, each row painted in its token and labelled in a
    legible paired foreground token.

    All of it is pure table logic; the table view only reads it. */
module AliasColorTokensDemo {
  import opened Tokens

  // ---------------------------------------------------------------------------
  // The legibility pairing (`textColor(for:)`)
  // ---------------------------------------------------------------------------

  /** The four foreground tokens a row label can be drawn in. */
  predicate IsLabelColor(t: ColorToken) {
    t == foreground1 || t == foregroundOnColor || t == foregroundDarkStatic || t == foregroundInverted1
  }

  /** The foreground token a row painted in `t` is labelled in. */
  function TextColor(t: ColorToken): (r: ColorToken)
    ensures IsLabelColor(r)
  {
    match t
    case background1 | background1Pressed | background1Selected
       | background2 | background2Pressed | background2Selected
       | background3 | background3Pressed | background3Selected
       | background4 | background4Pressed | background4Selected
       | background5 | background5Pressed | background5Selected
       | background6 | background6Pressed | background6Selected
       | backgroundDisabled | brandBackgroundDisabled | canvasBackground
       | stencil1 | stencil2 | foregroundDisabled2 | foregroundOnColor
       | brandForegroundDisabled2 | stroke1 | stroke2 | strokeDisabled
       | strokeFocus1 | brandBackgroundTint | foregroundDisabled1
      => foreground1
    case brandBackground3Pressed | foreground1 | foreground2 | foreground3
       | foregroundInverted2 | strokeFocus2 | brandBackground1Pressed
       | brandForeground1Pressed | brandStroke1Pressed | brandStroke1
       | brandForegroundTint | brandStroke1Selected
      => foregroundOnColor
    case foregroundInverted1 | foregroundLightStatic | backgroundLightStatic | backgroundLightStaticDisabled
      => foregroundDarkStatic
    case brandForeground1 | brandForeground1Selected | brandForegroundDisabled1
       | backgroundInverted | brandBackground1 | brandBackground1Selected
       | brandBackground2 | brandBackground2Pressed | brandBackground2Selected
       | brandBackground3 | strokeAccessible | backgroundDarkStatic | foregroundDarkStatic
      => foregroundInverted1
  }

  /** The four label colours pair off: `foregroundOnColor` and `foreground1`
      label each other, and so do `foregroundInverted1` and `foregroundDarkStatic`. */
  lemma LabelColorsPairMutually()
    ensures TextColor(foregroundOnColor) == foreground1 && TextColor(foreground1) == foregroundOnColor
    ensures TextColor(foregroundInverted1) == foregroundDarkStatic && TextColor(foregroundDarkStatic) == foregroundInverted1
  {
  }

  /** Labelling the label colour gives back the label colour: the pairing is an
      involution on the four label colours, so no token labels itself. */
  lemma PairingIsInvolution(t: ColorToken)
    ensures TextColor(TextColor(TextColor(t))) == TextColor(t)
    ensures TextColor(TextColor(t)) != TextColor(t)
  {
    var c := TextColor(t);
    assert IsLabelColor(c);
    LabelColorsPairMutually();
  }

  /** No row is labelled in its own colour. */
  lemma NoTokenLabelsItself(t: ColorToken)
    ensures TextColor(t) != t
  {
    if IsLabelColor(t) {
      LabelColorsPairMutually();
    }
  }

  /** The six neutral background steps and their pressed and selected variants. */
  predicate IsNeutralBackgroundStep(t: ColorToken) {
    t in {background1, background1Pressed, background1Selected,
          background2, background2Pressed, background2Selected,
          background3, background3Pressed, background3Selected,
          background4, background4Pressed, background4Selected,
          background5, background5Pressed, background5Selected,
          background6, background6Pressed, background6Selected}
  }

  /** Every neutral background step is labelled in `foreground1`. */
  lemma BackgroundStepsUseForeground1(t: ColorToken)
    requires IsNeutralBackgroundStep(t)
    ensures TextColor(t) == foreground1
  {
  }

  // ---------------------------------------------------------------------------
  // Sections (`AliasColorTokensDemoSection`)
  // ---------------------------------------------------------------------------

  datatype Section =
    | neutralBackgrounds | brandBackgrounds | neutralForegrounds
    | brandForegrounds | neutralStrokes | brandStrokes

  /** `allCases`, in declaration order. */
  const AllSections: seq<Section> :=
    [neutralBackgrounds, brandBackgrounds, neutralForegrounds, brandForegrounds, neutralStrokes, brandStrokes]

  /** `allCases` lists every section once. */
  lemma AllSectionsComplete(s: Section)
    ensures s in AllSections
    ensures |AllSections| == 6
    ensures forall i, j :: 0 <= i < j < |AllSections| ==> AllSections[i] != AllSections[j]
  {
  }

  function Title(s: Section): (r: string)
    ensures |r| > 0
  {
    match s
    case neutralBackgrounds => "Neutral Backgrounds"
    case brandBackgrounds => "Brand Backgrounds"
    case neutralForegrounds => "Neutral Foregrounds"
    case brandForegrounds => "Brand Foregrounds"
    case neutralStrokes => "Neutral Strokes"
    case brandStrokes => "Brand Strokes"
  }

  /** The section titles are pairwise distinct. */
  lemma TitlesDistinct(s1: Section, s2: Section)
    ensures Title(s1) == Title(s2) ==> s1 == s2
  {
    if s1 != s2 {
      // Titles of different sections differ in length, in their first letter,
      // or in the first letter of their second word.
      assert Title(s1)[0] != Title(s2)[0] || |Title(s1)| != |Title(s2)|
          || Title(s1)[6] != Title(s2)[6] || Title(s1)[8] != Title(s2)[8];
    }
  }

  function Rows(s: Section): (r: seq<ColorToken>)
  {
    match s
    case neutralBackgrounds =>
      [background1, background1Pressed, background1Selected,
       background2, background2Pressed, background2Selected,
       background3, background3Pressed, background3Selected,
       background4, background4Pressed, background4Selected,
       background5, background5Pressed, background5Selected,
       background6, background6Pressed, background6Selected,
       backgroundInverted, backgroundDisabled, canvasBackground,
       stencil1, stencil2, backgroundDarkStatic, backgroundLightStatic, backgroundLightStaticDisabled]
    case brandBackgrounds =>
      [brandBackgroundTint, brandBackground1, brandBackground1Pressed, brandBackground1Selected,
       brandBackground2, brandBackground2Pressed, brandBackground2Selected,
       brandBackground3, brandBackground3Pressed, brandBackgroundDisabled]
    case neutralForegrounds =>
      [foreground1, foreground2, foreground3, foregroundDisabled1, foregroundDisabled2,
       foregroundOnColor, foregroundInverted1, foregroundInverted2,
       foregroundLightStatic, foregroundDarkStatic]
    case brandForegrounds =>
      [brandForegroundTint, brandForeground1, brandForeground1Pressed, brandForeground1Selected,
       brandForegroundDisabled1, brandForegroundDisabled2]
    case neutralStrokes =>
      [stroke1, stroke2, strokeDisabled, strokeAccessible, strokeFocus1, strokeFocus2]
    case brandStrokes =>
      [brandStroke1, brandStroke1Pressed, brandStroke1Selected]
  }

  /** The section a token belongs to, by its role in the palette: an
      independent reading of the row lists. */
  function SectionOf(t: ColorToken): Section {
    match t
    case background1 | background1Pressed | background1Selected
       | background2 | background2Pressed | background2Selected
       | background3 | background3Pressed | background3Selected
       | background4 | background4Pressed | background4Selected
       | background5 | background5Pressed | background5Selected
       | background6 | background6Pressed | background6Selected
       | backgroundInverted | backgroundDisabled | canvasBackground
       | stencil1 | stencil2 | backgroundDarkStatic | backgroundLightStatic | backgroundLightStaticDisabled
      => neutralBackgrounds
    case brandBackgroundTint | brandBackground1 | brandBackground1Pressed | brandBackground1Selected
       | brandBackground2 | brandBackground2Pressed | brandBackground2Selected
       | brandBackground3 | brandBackground3Pressed | brandBackgroundDisabled
      => brandBackgrounds
    case foreground1 | foreground2 | foreground3 | foregroundDisabled1 | foregroundDisabled2
       | foregroundOnColor | foregroundInverted1 | foregroundInverted2
       | foregroundLightStatic | foregroundDarkStatic
      => neutralForegrounds
    case brandForegroundTint | brandForeground1 | brandForeground1Pressed | brandForeground1Selected
       | brandForegroundDisabled1 | brandForegroundDisabled2
      => brandForegrounds
    case stroke1 | stroke2 | strokeDisabled | strokeAccessible | strokeFocus1 | strokeFocus2
      => neutralStrokes
    case brandStroke1 | brandStroke1Pressed | brandStroke1Selected
      => brandStrokes
  }

  /** A sequence without repeated elements. */
  predicate Distinct<T(==)>(s: seq<T>) {
    forall i, j :: 0 <= i < j < |s| ==> s[i] != s[j]
  }

  /** Every row of a section belongs to that section. */
  lemma RowsBelongToSection(s: Section)
    ensures forall i | 0 <= i < |Rows(s)| :: SectionOf(Rows(s)[i]) == s
  {
    if s == neutralBackgrounds {
      NeutralBackgroundRowsBelong();
    } else if s == brandBackgrounds || s == neutralForegrounds {
      MiddleRowsBelong(s);
    } else {
      ShortRowsBelong(s);
    }
  }

  /** `RowsBelongToSection` for the longest section. */
  lemma NeutralBackgroundRowsBelong()
    ensures forall i | 0 <= i < |Rows(neutralBackgrounds)| :: SectionOf(Rows(neutralBackgrounds)[i]) == neutralBackgrounds
  {
  }

  /** `RowsBelongToSection` for the two ten-row sections. */
  lemma MiddleRowsBelong(s: Section)
    requires s == brandBackgrounds || s == neutralForegrounds
    ensures forall i | 0 <= i < |Rows(s)| :: SectionOf(Rows(s)[i]) == s
  {
  }

  /** `RowsBelongToSection` for the three short sections. */
  lemma ShortRowsBelong(s: Section)
    requires s == brandForegrounds || s == neutralStrokes || s == brandStrokes
    ensures forall i | 0 <= i < |Rows(s)| :: SectionOf(Rows(s)[i]) == s
  {
  }

  /** Every token is a row of its own section. */
  lemma TokenListedInItsSection(t: ColorToken)
    ensures t in Rows(SectionOf(t))
  {
    if SectionOf(t) == neutralBackgrounds {
      NeutralBackgroundTokensListed(t);
    }
  }

  /** `TokenListedInItsSection` for the longest section. */
  lemma NeutralBackgroundTokensListed(t: ColorToken)
    requires SectionOf(t) == neutralBackgrounds
    ensures t in Rows(neutralBackgrounds)
  {
  }

  /** The row lists partition the tokens: a token is a row of a section
      exactly when that section is the token's own. */
  lemma RowsPartitionTokens(t: ColorToken, s: Section)
    ensures t in Rows(s) <==> SectionOf(t) == s
  {
    if t in Rows(s) {
      RowsBelongToSection(s);
      var i :| 0 <= i < |Rows(s)| && Rows(s)[i] == t;
    } else {
      TokenListedInItsSection(t);
    }
  }

  /** No section lists a token twice. */
  lemma RowsDistinct(s: Section)
    ensures Distinct(Rows(s))
  {
    if s == neutralBackgrounds {
      NeutralBackgroundRowsDistinct();
    }
  }

  /** `RowsDistinct` for the longest section. */
  lemma NeutralBackgroundRowsDistinct()
    ensures Distinct(Rows(neutralBackgrounds))
  {
  }

  /** The rows of all sections, in table order. */
  function AllRows(sections: seq<Section>): (r: seq<ColorToken>)
    ensures |sections| == 0 ==> r == []
  {
    if |sections| == 0 then [] else Rows(sections[0]) + AllRows(sections[1..])
  }

  /** The table lists 26 + 10 + 10 + 6 + 6 + 3 = 61 rows, which is every alias
      colour token exactly once. */
  lemma TableListsEveryTokenOnce()
    ensures |Rows(neutralBackgrounds)| == 26 && |Rows(brandBackgrounds)| == 10
    ensures |Rows(neutralForegrounds)| == 10 && |Rows(brandForegrounds)| == 6
    ensures |Rows(neutralStrokes)| == 6 && |Rows(brandStrokes)| == 3
    ensures |AllRows(AllSections)| == |AllColorTokens| == 61
    ensures forall t :: t in AllRows(AllSections)
    ensures Distinct(AllRows(AllSections))
  {
    var all := AllRows(AllSections);
    AllRowsInSectionOrder();
    forall t: ColorToken ensures t in all {
      TokenListedInItsSection(t);
    }
    ConcatenatedRowsDistinct(all);
  }

  /** The whole table is the sections' rows in section order. */
  lemma AllRowsInSectionOrder()
    ensures AllRows(AllSections) == Rows(neutralBackgrounds) + Rows(brandBackgrounds) + Rows(neutralForegrounds)
                                  + Rows(brandForegrounds) + Rows(neutralStrokes) + Rows(brandStrokes)
  {
    assert AllSections[1..] == [brandBackgrounds, neutralForegrounds, brandForegrounds, neutralStrokes, brandStrokes];
    assert AllSections[1..][1..] == [neutralForegrounds, brandForegrounds, neutralStrokes, brandStrokes];
    assert AllSections[1..][1..][1..] == [brandForegrounds, neutralStrokes, brandStrokes];
    assert AllSections[1..][1..][1..][1..] == [neutralStrokes, brandStrokes];
    assert AllSections[1..][1..][1..][1..][1..] == [brandStrokes];
    assert AllSections[1..][1..][1..][1..][1..][1..] == [];
  }

  /** No token appears at two positions of the whole table. */
  lemma ConcatenatedRowsDistinct(all: seq<ColorToken>)
    requires all == Rows(neutralBackgrounds) + Rows(brandBackgrounds) + Rows(neutralForegrounds)
                  + Rows(brandForegrounds) + Rows(neutralStrokes) + Rows(brandStrokes)
    ensures Distinct(all)
  {
    forall i, j | 0 <= i < j < |all| ensures all[i] != all[j] {
      LocateRow(all, i);
      LocateRow(all, j);
      var (si, ki) := Locate(i);
      var (sj, kj) := Locate(j);
      RowsBelongToSection(si);
      RowsBelongToSection(sj);
      if si == sj {
        RowsDistinct(si);
      }
    }
  }

  /** The section and row that a position of the whole table shows. */
  function Locate(i: int): (r: (Section, int))
    requires 0 <= i < 61
    ensures 0 <= r.1 <= i
  {
    if i < 26 then (neutralBackgrounds, i)
    else if i < 36 then (brandBackgrounds, i - 26)
    else if i < 46 then (neutralForegrounds, i - 36)
    else if i < 52 then (brandForegrounds, i - 46)
    else if i < 58 then (neutralStrokes, i - 52)
    else (brandStrokes, i - 58)
  }

  /** Each position of the whole table shows the row `Locate` names. */
  lemma LocateRow(all: seq<ColorToken>, i: int)
    requires all == Rows(neutralBackgrounds) + Rows(brandBackgrounds) + Rows(neutralForegrounds)
                  + Rows(brandForegrounds) + Rows(neutralStrokes) + Rows(brandStrokes)
    requires 0 <= i < |all|
    ensures |all| == 61
    ensures Locate(i).1 < |Rows(Locate(i).0)| && all[i] == Rows(Locate(i).0)[Locate(i).1]
  {
    var n1 := |Rows(neutralBackgrounds)|;
    var n2 := n1 + |Rows(brandBackgrounds)|;
    var n3 := n2 + |Rows(neutralForegrounds)|;
    var n4 := n3 + |Rows(brandForegrounds)|;
    var n5 := n4 + |Rows(neutralStrokes)|;
    assert n1 == 26 && n2 == 36 && n3 == 46 && n4 == 52 && n5 == 58;
    if i < n1 {
      assert all[i] == Rows(neutralBackgrounds)[i];
    } else if i < n2 {
      assert all[i] == Rows(brandBackgrounds)[i - n1];
    } else if i < n3 {
      assert all[i] == Rows(neutralForegrounds)[i - n2];
    } else if i < n4 {
      assert all[i] == Rows(brandForegrounds)[i - n3];
    } else if i < n5 {
      assert all[i] == Rows(neutralStrokes)[i - n4];
    } else {
      assert all[i] == Rows(brandStrokes)[i - n5];
    }
  }

  // ---------------------------------------------------------------------------
  // Row labels (`ColorsTokens.text`)
  // ---------------------------------------------------------------------------

  /** A label with a word break: it contains at least one space. */
  predicate HasWordBreak(s: string) {
    ' ' in s
  }

  /** The label table as the source writes it.  Two labels run their words
      together. */
  function TextAsWritten(t: ColorToken): (r: string)
    ensures t != backgroundLightStatic && t != backgroundLightStaticDisabled ==> r == Text(t)
    ensures |r| > 0
  {
    match t
    case backgroundLightStatic => "BackgroundLightStatic"
    case backgroundLightStaticDisabled => "BackgroundLightStaticDisabled"
    case _ => TextHasWordBreaks(t); Text(t)
  }

  /** The static light background label has no word break, where every
      other label has one. */
  lemma LightStaticLabelRunsWordsTogether()
    ensures !HasWordBreak(TextAsWritten(backgroundLightStatic))
  {
  }

  /** Nor has the disabled static light background label. */
  lemma LightStaticDisabledLabelRunsWordsTogether()
    ensures !HasWordBreak(TextAsWritten(backgroundLightStaticDisabled))
  {
  }

  /** The label of each token: its name, split into capitalised words. */
  function Text(t: ColorToken): string {
    match t
    case foreground1 => "Foreground 1"
    case foreground2 => "Foreground 2"
    case foreground3 => "Foreground 3"
    case foregroundDisabled1 => "Foreground Disabled 1"
    case foregroundDisabled2 => "Foreground Disabled 2"
    case foregroundOnColor => "Foreground On Color"
    case foregroundInverted1 => "Foreground Inverted 1"
    case foregroundInverted2 => "Foreground Inverted 2"
    case brandForeground1 => "Brand Foreground 1"
    case brandForeground1Pressed => "Brand Foreground 1 Pressed"
    case brandForeground1Selected => "Brand Foreground 1 Selected"
    case brandForegroundDisabled1 => "Brand Foreground Disabled 1"
    case brandForegroundDisabled2 => "Brand Foreground Disabled 2"
    case background1 => "Background 1"
    case background1Pressed => "Background 1 Pressed"
    case background1Selected => "Background 1 Selected"
    case background2 => "Background 2"
    case background2Pressed => "Background 2 Pressed"
    case background2Selected => "Background 2 Selected"
    case background3 => "Background 3"
    case background3Pressed => "Background 3 Pressed"
    case background3Selected => "Background 3 Selected"
    case background4 => "Background 4"
    case background4Pressed => "Background 4 Pressed"
    case background4Selected => "Background 4 Selected"
    case background5 => "Background 5"
    case background5Pressed => "Background 5 Pressed"
    case background5Selected => "Background 5 Selected"
    case background6 => "Background 6"
    case background6Pressed => "Background 6 Pressed"
    case background6Selected => "Background 6 Selected"
    case backgroundInverted => "Background Inverted"
    case backgroundDisabled => "Background Disabled"
    case brandBackground1 => "Brand Background 1"
    case brandBackground1Pressed => "Brand Background 1 Pressed"
    case brandBackground1Selected => "Brand Background 1 Selected"
    case brandBackground2 => "Brand Background 2"
    case brandBackground2Pressed => "Brand Background 2 Pressed"
    case brandBackground2Selected => "Brand Background 2 Selected"
    case brandBackground3 => "Brand Background 3"
    case brandBackground3Pressed => "Brand Background 3 Pressed"
    case brandBackgroundDisabled => "Brand Background Disabled"
    case brandBackgroundTint => "Brand Background Tint"
    case brandForegroundTint => "Brand Foreground Tint"
    case stencil1 => "Stencil 1"
    case stencil2 => "Stencil 2"
    case canvasBackground => "Canvas Background"
    case stroke1 => "Stroke 1"
    case stroke2 => "Stroke 2"
    case strokeDisabled => "Stroke Disabled"
    case strokeAccessible => "Stroke Accessible"
    case strokeFocus1 => "Stroke Focus 1"
    case strokeFocus2 => "Stroke Focus 2"
    case brandStroke1 => "Brand Stroke 1"
    case brandStroke1Pressed => "Brand Stroke 1 Pressed"
    case brandStroke1Selected => "Brand Stroke 1 Selected"
    case foregroundDarkStatic => "Foreground Dark Static"
    case foregroundLightStatic => "Foreground Light Static"
    case backgroundDarkStatic => "Background Dark Static"
    case backgroundLightStatic => "Background Light Static"
    case backgroundLightStaticDisabled => "Background Light Static Disabled"
  }

  /** Every corrected label is non-empty and contains a space. */
  lemma TextHasWordBreaks(t: ColorToken)
    ensures HasWordBreak(Text(t)) && |Text(t)| > 0
  {
    if t in {foreground1, foreground2, foreground3,
             foregroundDisabled1, foregroundDisabled2, foregroundOnColor,
             foregroundInverted1, foregroundInverted2} {
      NeutralForegroundLabelsBreakWords(t);
    } else if t in {brandForeground1, brandForeground1Pressed, brandForeground1Selected,
                    brandForegroundDisabled1, brandForegroundDisabled2} {
      BrandForegroundLabelsBreakWords(t);
    } else if t in {background1, background1Pressed, background1Selected,
                    background2, background2Pressed, background2Selected} {
      LowBackgroundStepLabelsBreakWords(t);
    } else if t in {background3, background3Pressed, background3Selected,
                    background4, background4Pressed, background4Selected} {
      MiddleBackgroundStepLabelsBreakWords(t);
    } else if t in {background5, background5Pressed, background5Selected,
                    background6, background6Pressed, background6Selected} {
      HighBackgroundStepLabelsBreakWords(t);
    } else if t in {brandBackground1, brandBackground1Pressed, brandBackground1Selected,
                    brandBackground2, brandBackground2Pressed, brandBackground2Selected} {
      BrandBackgroundStepLabelsBreakWords(t);
    } else if t in {brandBackground3, brandBackground3Pressed, brandBackgroundDisabled,
                    brandBackgroundTint, brandForegroundTint} {
      OtherBrandLabelsBreakWords(t);
    } else if t in {backgroundInverted, backgroundDisabled, stencil1,
                    stencil2, canvasBackground} {
      OtherBackgroundLabelsBreakWords(t);
    } else if t in {stroke1, stroke2, strokeDisabled,
                    strokeAccessible, strokeFocus1, strokeFocus2} {
      StrokeLabelsBreakWords(t);
    } else if t in {brandStroke1, brandStroke1Pressed, brandStroke1Selected,
                    foregroundDarkStatic, foregroundLightStatic} {
      BrandStrokeAndStaticForegroundLabelsBreakWords(t);
    } else {
      StaticBackgroundLabelsBreakWords(t);
    }
  }

  /** `TextHasWordBreaks` for the neutral foregrounds. */
  lemma NeutralForegroundLabelsBreakWords(t: ColorToken)
    requires t in {foreground1, foreground2, foreground3,
                   foregroundDisabled1, foregroundDisabled2, foregroundOnColor,
                   foregroundInverted1, foregroundInverted2}
    ensures HasWordBreak(Text(t))
  {
  }

  /** `TextHasWordBreaks` for the brand foregrounds. */
  lemma BrandForegroundLabelsBreakWords(t: ColorToken)
    requires t in {brandForeground1, brandForeground1Pressed, brandForeground1Selected,
                   brandForegroundDisabled1, brandForegroundDisabled2}
    ensures HasWordBreak(Text(t))
  {
  }

  /** `TextHasWordBreaks` for background steps 1 and 2. */
  lemma LowBackgroundStepLabelsBreakWords(t: ColorToken)
    requires t in {background1, background1Pressed, background1Selected,
                   background2, background2Pressed, background2Selected}
    ensures HasWordBreak(Text(t))
  {
  }

  /** `TextHasWordBreaks` for background steps 3 and 4. */
  lemma MiddleBackgroundStepLabelsBreakWords(t: ColorToken)
    requires t in {background3, background3Pressed, background3Selected,
                   background4, background4Pressed, background4Selected}
    ensures HasWordBreak(Text(t))
  {
  }

  /** `TextHasWordBreaks` for background steps 5 and 6. */
  lemma HighBackgroundStepLabelsBreakWords(t: ColorToken)
    requires t in {background5, background5Pressed, background5Selected,
                   background6, background6Pressed, background6Selected}
    ensures HasWordBreak(Text(t))
  {
  }

  /** `TextHasWordBreaks` for brand background steps 1 and 2. */
  lemma BrandBackgroundStepLabelsBreakWords(t: ColorToken)
    requires t in {brandBackground1, brandBackground1Pressed, brandBackground1Selected,
                   brandBackground2, brandBackground2Pressed, brandBackground2Selected}
    ensures HasWordBreak(Text(t))
  {
  }

  /** `TextHasWordBreaks` for the remaining brand backgrounds and the brand tints. */
  lemma OtherBrandLabelsBreakWords(t: ColorToken)
    requires t in {brandBackground3, brandBackground3Pressed, brandBackgroundDisabled,
                   brandBackgroundTint, brandForegroundTint}
    ensures HasWordBreak(Text(t))
  {
  }

  /** `TextHasWordBreaks` for the remaining neutral backgrounds. */
  lemma OtherBackgroundLabelsBreakWords(t: ColorToken)
    requires t in {backgroundInverted, backgroundDisabled, stencil1,
                   stencil2, canvasBackground}
    ensures HasWordBreak(Text(t))
  {
  }

  /** `TextHasWordBreaks` for the neutral strokes. */
  lemma StrokeLabelsBreakWords(t: ColorToken)
    requires t in {stroke1, stroke2, strokeDisabled,
                   strokeAccessible, strokeFocus1, strokeFocus2}
    ensures HasWordBreak(Text(t))
  {
  }

  /** `TextHasWordBreaks` for the brand strokes and static foregrounds. */
  lemma BrandStrokeAndStaticForegroundLabelsBreakWords(t: ColorToken)
    requires t in {brandStroke1, brandStroke1Pressed, brandStroke1Selected,
                   foregroundDarkStatic, foregroundLightStatic}
    ensures HasWordBreak(Text(t))
  {
  }

  /** `TextHasWordBreaks` for the static backgrounds. */
  lemma StaticBackgroundLabelsBreakWords(t: ColorToken)
    requires t in {backgroundDarkStatic, backgroundLightStatic, backgroundLightStaticDisabled}
    ensures HasWordBreak(Text(t))
  {
  }

  // ---------------------------------------------------------------------------
  // The table view's data source
  // ---------------------------------------------------------------------------

  function NumberOfSections(): (n: int)
    ensures n == 6
  {
    |AllSections|
  }

  function TitleForHeader(section: int): (r: string)
    requires 0 <= section < |AllSections|
    ensures r == Title(AllSections[section]) && |r| > 0
  {
    Title(AllSections[section])
  }

  function NumberOfRows(section: int): (n: int)
    requires 0 <= section < |AllSections|
    ensures n == |Rows(AllSections[section])|
    ensures 3 <= n <= 26
  {
    |Rows(AllSections[section])|
  }

  /** What a cell shows: its token as background, the token's label, and the
      label's colour. */
  datatype Cell = Cell(background: ColorToken, text: string, textColor: ColorToken)

  /** The cell at an index path; the index path is within the table.  The
      cell shows the label as written, so the two static light backgrounds
      are the only cells whose label runs its words together. */
  function CellForRow(section: int, row: int): (c: Cell)
    requires 0 <= section < |AllSections|
    requires 0 <= row < NumberOfRows(section)
    ensures c.background == Rows(AllSections[section])[row]
    ensures SectionOf(c.background) == AllSections[section]
    ensures c.text == TextAsWritten(c.background) && |c.text| > 0
    ensures HasWordBreak(c.text) <==> c.background != backgroundLightStatic && c.background != backgroundLightStaticDisabled
    ensures c.textColor == TextColor(c.background) && c.textColor != c.background
  {
    var token := Rows(AllSections[section])[row];
    RowsBelongToSection(AllSections[section]);
    NoTokenLabelsItself(token);
    TextHasWordBreaks(token);
    LightStaticLabelRunsWordsTogether();
    LightStaticDisabledLabelRunsWordsTogether();
    Cell(token, TextAsWritten(token), TextColor(token))
  }

  /** Every token is shown by some cell of the table. */
  lemma EveryTokenHasACell(t: ColorToken)
    ensures exists section, row | 0 <= section < |AllSections| && 0 <= row < NumberOfRows(section)
      :: CellForRow(section, row).background == t
  {
    TokenListedInItsSection(t);
    AllSectionsComplete(SectionOf(t));
    var section :| 0 <= section < |AllSections| && AllSections[section] == SectionOf(t);
    var row :| 0 <= row < |Rows(SectionOf(t))| && Rows(SectionOf(t))[row] == t;
    assert CellForRow(section, row).background == t;
  }
}
