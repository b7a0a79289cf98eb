/**
 * The graphics designer page: the default look, the four presets, and the
 * editor that writes single settings into the current settings tree by
 * their dotted names, saves the tree and pushes it to the overlays.
 */
module GfxDesigner {
  import opened Wrappers
  import opened Text
  import opened Settings

  // ---------------------------------------------------------------------------
  // Looks
  // ---------------------------------------------------------------------------

  /** The seven colours of a look, as `#rrggbb` strings. */
  datatype Palette = Palette(player1: string, player1Score: string, player2: string, player2Score: string,
                             separator: string, gameTimer: string, glow: string)

  /** The colour object of a look, in the order the page lists its colours. */
  function ColorsObject(player1: string, player1Score: string, player2: string, player2Score: string,
                        separator: string, gameTimer: string, glow: string): Json
  {
    JObj(map["player1" := JStr(player1), "player1Score" := JStr(player1Score),
             "player2" := JStr(player2), "player2Score" := JStr(player2Score),
             "separator" := JStr(separator), "gameTimer" := JStr(gameTimer), "glow" := JStr(glow)])
  }

  /** The settings tree of a look: colours, typography, effects and layout. */
  function Look(colors: Palette, fontFamily: string, playerNameSize: int, scoreSize: int, gameTimerSize: int,
                fontWeight: int, textShadowBlur: int, textShadowOpacity: int, letterSpacing: int,
                enableGlow: bool, spacingScores: int, spacingInfo: int, separatorSize: int): Json
  {
    JObj(map[
      "colors" := ColorsObject(colors.player1, colors.player1Score, colors.player2, colors.player2Score,
                               colors.separator, colors.gameTimer, colors.glow),
      "typography" := JObj(map[
        "fontFamily" := JStr(fontFamily), "playerNameSize" := JInt(playerNameSize),
        "scoreSize" := JInt(scoreSize), "gameTimerSize" := JInt(gameTimerSize),
        "fontWeight" := JInt(fontWeight)]),
      "effects" := JObj(map[
        "textShadowBlur" := JInt(textShadowBlur), "textShadowOpacity" := JInt(textShadowOpacity),
        "letterSpacing" := JInt(letterSpacing), "enableGlow" := JBool(enableGlow)]),
      "layout" := JObj(map[
        "spacingScores" := JInt(spacingScores), "spacingInfo" := JInt(spacingInfo),
        "separatorSize" := JInt(separatorSize)])])
  }

  const DefaultPalette := Palette("#ffffff", "#ffffff", "#ffffff", "#ffffff", "#ffffff", "#ffffff", "#ffd700")
  const BoldPalette := Palette("#ffff00", "#ffff00", "#00ffff", "#00ffff", "#ffffff", "#ffffff", "#ffff00")
  const ElegantPalette := Palette("#e8d5b7", "#ffffff", "#d4af37", "#ffffff", "#c9a961", "#e8d5b7", "#d4af37")
  const MinimalPalette := Palette("#ffffff", "#ffffff", "#ffffff", "#ffffff", "#cccccc", "#ffffff", "#ffffff")

  function DefaultSettings(): Json
  {
    Look(DefaultPalette, "'Arial Black', 'Arial Bold', Arial, sans-serif", 48, 120, 42, 900, 4, 80, 2, true, 40, 30, 80)
  }

  /** The presets by name; `default` is the default look. */
  function Presets(): (p: map<string, Json>)
    ensures p.Keys == {"default", "bold", "elegant", "minimal"}
    ensures p["default"] == DefaultSettings()
  {
    map[
      "default" := DefaultSettings(),
      "bold" := Look(BoldPalette, "Impact, Charcoal, sans-serif", 56, 140, 48, 900, 6, 100, 3, true, 50, 35, 100),
      "elegant" := Look(ElegantPalette, "Georgia, serif", 42, 110, 36, 700, 3, 60, 1, true, 35, 25, 70),
      "minimal" := Look(MinimalPalette, "'Helvetica Neue', Helvetica, Arial, sans-serif",
                        40, 100, 32, 600, 2, 40, 1, false, 30, 20, 60)
    ]
  }

  /** The colours each preset holds, leaf by leaf. */
  lemma PresetColors()
    ensures Lookup(Presets()["default"], ["colors"])
         == Some(ColorsObject("#ffffff", "#ffffff", "#ffffff", "#ffffff", "#ffffff", "#ffffff", "#ffd700"))
    ensures Lookup(Presets()["bold"], ["colors"])
         == Some(ColorsObject("#ffff00", "#ffff00", "#00ffff", "#00ffff", "#ffffff", "#ffffff", "#ffff00"))
    ensures Lookup(Presets()["elegant"], ["colors"])
         == Some(ColorsObject("#e8d5b7", "#ffffff", "#d4af37", "#ffffff", "#c9a961", "#e8d5b7", "#d4af37"))
    ensures Lookup(Presets()["minimal"], ["colors"])
         == Some(ColorsObject("#ffffff", "#ffffff", "#ffffff", "#ffffff", "#cccccc", "#ffffff", "#ffffff"))
  {
  }

  // ---------------------------------------------------------------------------
  // The settings the page's inputs edit
  // ---------------------------------------------------------------------------

  /** The settings bound to a colour picker and its text field. */
  const ColorPaths: seq<seq<string>> := [
    ["colors", "player1"], ["colors", "player1Score"], ["colors", "player2"], ["colors", "player2Score"],
    ["colors", "separator"], ["colors", "gameTimer"], ["colors", "glow"]]

  /** The settings bound to a range slider, in the order the page lists them. */
  const RangePaths: seq<seq<string>> := [
    ["typography", "playerNameSize"], ["typography", "scoreSize"], ["typography", "gameTimerSize"],
    ["effects", "textShadowBlur"], ["effects", "textShadowOpacity"], ["effects", "letterSpacing"],
    ["layout", "spacingScores"], ["layout", "spacingInfo"], ["layout", "separatorSize"]]

  /** The dotted names the sliders are bound to, parallel to `RangePaths`. */
  const RangeNames: seq<string> := [
    "typography.playerNameSize", "typography.scoreSize", "typography.gameTimerSize",
    "effects.textShadowBlur", "effects.textShadowOpacity", "effects.letterSpacing",
    "layout.spacingScores", "layout.spacingInfo", "layout.separatorSize"]

  /** The dotted name of a setting, as the page's inputs are bound to it. */
  function Dotted(path: seq<string>): string
  {
    Join(path, '.')
  }

  /** The colour text the text field accepts: `#` and six hexadecimal digits, in either case. */
  predicate IsHexColor(s: string)
  {
    |s| == 7 && s[0] == '#' && AllHexDigits(s[1..])
  }

  /** The check does not depend on the case of the digits. */
  lemma HexColorIgnoresCase(s: string)
    ensures IsHexColor(Upper(s)) <==> IsHexColor(s)
    ensures IsHexColor(Lower(s)) <==> IsHexColor(s)
  {
    if |s| == 7 {
      assert Upper(s)[1..] == Upper(s[1..]);
      assert Lower(s)[1..] == Lower(s[1..]);
      forall i | 0 <= i < 6 ensures IsHexDigit(Upper(s[1..])[i]) <==> IsHexDigit(s[1..][i]) { }
      forall i | 0 <= i < 6 ensures IsHexDigit(Lower(s[1..])[i]) <==> IsHexDigit(s[1..][i]) { }
    }
  }

  predicate HexAt(j: Json, path: seq<string>)
  {
    var v := Lookup(j, path);
    v.Some? && v.value.JStr? && IsHexColor(v.value.s)
  }

  predicate IntAt(j: Json, path: seq<string>)
  {
    var v := Lookup(j, path);
    v.Some? && v.value.JInt?
  }

  predicate ColorsWellFormed(j: Json)
  {
    forall k | 0 <= k < |ColorPaths| :: HexAt(j, ColorPaths[k])
  }

  predicate RangesWellFormed(j: Json)
  {
    forall k | 0 <= k < |RangePaths| :: IntAt(j, RangePaths[k])
  }

  /** Every colour input finds a colour and every slider finds a number. */
  predicate WellFormed(j: Json)
  {
    ColorsWellFormed(j) && RangesWellFormed(j)
  }

  predicate PaletteIsHex(c: Palette)
  {
    && IsHexColor(c.player1) && IsHexColor(c.player1Score) && IsHexColor(c.player2)
    && IsHexColor(c.player2Score) && IsHexColor(c.separator) && IsHexColor(c.gameTimer)
    && IsHexColor(c.glow)
  }

  lemma LookColors(colors: Palette, fontFamily: string, playerNameSize: int, scoreSize: int,
                   gameTimerSize: int, fontWeight: int, textShadowBlur: int, textShadowOpacity: int,
                   letterSpacing: int, enableGlow: bool, spacingScores: int, spacingInfo: int,
                   separatorSize: int)
    requires PaletteIsHex(colors)
    ensures ColorsWellFormed(Look(colors, fontFamily, playerNameSize, scoreSize, gameTimerSize, fontWeight,
                                  textShadowBlur, textShadowOpacity, letterSpacing, enableGlow, spacingScores,
                                  spacingInfo, separatorSize))
  {
  }

  lemma LookRanges(colors: Palette, fontFamily: string, playerNameSize: int, scoreSize: int,
                   gameTimerSize: int, fontWeight: int, textShadowBlur: int, textShadowOpacity: int,
                   letterSpacing: int, enableGlow: bool, spacingScores: int, spacingInfo: int,
                   separatorSize: int)
    ensures RangesWellFormed(Look(colors, fontFamily, playerNameSize, scoreSize, gameTimerSize, fontWeight,
                                  textShadowBlur, textShadowOpacity, letterSpacing, enableGlow, spacingScores,
                                  spacingInfo, separatorSize))
  {
  }

  /** A look built from hexadecimal colours suits every input of the page. */
  lemma LookWellFormed(colors: Palette, fontFamily: string, playerNameSize: int, scoreSize: int,
                       gameTimerSize: int, fontWeight: int, textShadowBlur: int, textShadowOpacity: int,
                       letterSpacing: int, enableGlow: bool, spacingScores: int, spacingInfo: int,
                       separatorSize: int)
    requires PaletteIsHex(colors)
    ensures WellFormed(Look(colors, fontFamily, playerNameSize, scoreSize, gameTimerSize, fontWeight,
                            textShadowBlur, textShadowOpacity, letterSpacing, enableGlow, spacingScores,
                            spacingInfo, separatorSize))
  {
    LookColors(colors, fontFamily, playerNameSize, scoreSize, gameTimerSize, fontWeight, textShadowBlur,
               textShadowOpacity, letterSpacing, enableGlow, spacingScores, spacingInfo, separatorSize);
    LookRanges(colors, fontFamily, playerNameSize, scoreSize, gameTimerSize, fontWeight, textShadowBlur,
               textShadowOpacity, letterSpacing, enableGlow, spacingScores, spacingInfo, separatorSize);
  }

  lemma PlainPalettesAreHex()
    ensures PaletteIsHex(DefaultPalette) && PaletteIsHex(BoldPalette) && PaletteIsHex(MinimalPalette)
  {
    assert IsHexColor("#ffffff") && IsHexColor("#ffd700") && IsHexColor("#ffff00");
    assert IsHexColor("#00ffff") && IsHexColor("#cccccc");
  }

  lemma ElegantPaletteIsHex()
    ensures PaletteIsHex(ElegantPalette)
  {
    assert IsHexColor("#ffffff") && IsHexColor("#e8d5b7") && IsHexColor("#d4af37") && IsHexColor("#c9a961");
  }

  /** The default look and every preset suit every input of the page. */
  lemma PresetsWellFormed()
    ensures WellFormed(DefaultSettings())
    ensures forall name | name in Presets() :: WellFormed(Presets()[name])
  {
    PlainPalettesAreHex();
    ElegantPaletteIsHex();
    LookWellFormed(DefaultPalette, "'Arial Black', 'Arial Bold', Arial, sans-serif",
                   48, 120, 42, 900, 4, 80, 2, true, 40, 30, 80);
    LookWellFormed(BoldPalette, "Impact, Charcoal, sans-serif", 56, 140, 48, 900, 6, 100, 3, true, 50, 35, 100);
    LookWellFormed(ElegantPalette, "Georgia, serif", 42, 110, 36, 700, 3, 60, 1, true, 35, 25, 70);
    LookWellFormed(MinimalPalette, "'Helvetica Neue', Helvetica, Arial, sans-serif",
                   40, 100, 32, 600, 2, 40, 1, false, 30, 20, 60);
  }

  /** The editable settings all sit two levels deep, under distinct names. */
  lemma EditablePathsDistinct()
    ensures forall k | 0 <= k < |ColorPaths| :: |ColorPaths[k]| == 2
    ensures forall k | 0 <= k < |RangePaths| :: |RangePaths[k]| == 2
    ensures forall k, m | 0 <= k < m < |ColorPaths| :: ColorPaths[k] != ColorPaths[m]
    ensures forall k, m | 0 <= k < m < |RangePaths| :: RangePaths[k] != RangePaths[m]
    ensures forall k, m | 0 <= k < |ColorPaths| && 0 <= m < |RangePaths| :: ColorPaths[k] != RangePaths[m]
  {
  }

  /** Two different paths of two keys each are never prefixes of one another. */
  lemma TwoKeyPathsUnrelated(p: seq<string>, q: seq<string>)
    requires |p| == 2 && |q| == 2 && p != q
    ensures !IsPrefix(p, q) && !IsPrefix(q, p)
  {
    assert q[..|p|] == q && p[..|q|] == p;
  }

  /**
   * Writing one editable setting leaves every other editable setting as it
   * was, and the written one reads back the value written.
   */
  lemma {:induction false} WriteEditable(j: Json, path: seq<string>, v: Json)
    requires WellFormed(j)
    requires path in ColorPaths || path in RangePaths
    ensures Put(j, path, v).Some?
    ensures Lookup(Put(j, path, v).value, path) == Some(v)
    ensures forall k | 0 <= k < |ColorPaths| && ColorPaths[k] != path ::
      Lookup(Put(j, path, v).value, ColorPaths[k]) == Lookup(j, ColorPaths[k])
    ensures forall k | 0 <= k < |RangePaths| && RangePaths[k] != path ::
      Lookup(Put(j, path, v).value, RangePaths[k]) == Lookup(j, RangePaths[k])
  {
    EditablePathsDistinct();
    assert Lookup(j, path).Some?;
    LookupAppend(j, path[..1], path[1..]);
    assert path[..1] + path[1..] == path;
    PutDefinedIff(j, path, v);
    PutThenLookup(j, path, v);
    forall k | 0 <= k < |ColorPaths| && ColorPaths[k] != path
      ensures Lookup(Put(j, path, v).value, ColorPaths[k]) == Lookup(j, ColorPaths[k])
    {
      TwoKeyPathsUnrelated(path, ColorPaths[k]);
      PutKeepsOtherPaths(j, path, v, ColorPaths[k]);
    }
    forall k | 0 <= k < |RangePaths| && RangePaths[k] != path
      ensures Lookup(Put(j, path, v).value, RangePaths[k]) == Lookup(j, RangePaths[k])
    {
      TwoKeyPathsUnrelated(path, RangePaths[k]);
      PutKeepsOtherPaths(j, path, v, RangePaths[k]);
    }
  }

  /** Accepted colour text written to a colour setting keeps the tree well formed. */
  lemma ColorEditKeepsWellFormed(j: Json, k: nat, color: string)
    requires WellFormed(j) && k < |ColorPaths| && IsHexColor(color)
    ensures Put(j, ColorPaths[k], JStr(color)).Some?
    ensures WellFormed(Put(j, ColorPaths[k], JStr(color)).value)
  {
    WriteEditable(j, ColorPaths[k], JStr(color));
  }

  /** A number written to a slider setting keeps the tree well formed. */
  lemma RangeEditKeepsWellFormed(j: Json, k: nat, n: int)
    requires WellFormed(j) && k < |RangePaths|
    ensures Put(j, RangePaths[k], JInt(n)).Some?
    ensures WellFormed(Put(j, RangePaths[k], JInt(n)).value)
  {
    WriteEditable(j, RangePaths[k], JInt(n));
  }

  /** No key of an editable setting holds a dot. */
  lemma EditableKeysUndotted()
    ensures forall k | 0 <= k < |ColorPaths| :: '.' !in ColorPaths[k][0] && '.' !in ColorPaths[k][1]
    ensures forall k | 0 <= k < |RangePaths| :: '.' !in RangePaths[k][0] && '.' !in RangePaths[k][1]
  {
  }

  /** The dotted name of a two-key setting splits back into its keys. */
  lemma DottedSplits(path: seq<string>)
    requires |path| == 2 && '.' !in path[0] && '.' !in path[1]
    ensures Split(Dotted(path), '.') == path
  {
    SplitJoin(path, '.');
  }

  /**
   * An editable setting, addressed by its dotted name, is reached by the
   * walk of the editor: its keys come back from the split, its container is
   * an object, and the write lands on it.
   */
  lemma EditableWriteLands(j: Json, path: seq<string>, v: Json)
    requires WellFormed(j)
    requires path in ColorPaths || path in RangePaths
    ensures Split(Dotted(path), '.') == path
    ensures Lookup(j, path[..|path| - 1]).Some? && Lookup(j, path[..|path| - 1]).value.JObj?
    ensures Put(j, path, v).Some? && Lookup(Put(j, path, v).value, path) == Some(v)
  {
    EditableKeysUndotted();
    DottedSplits(path);
    WriteEditable(j, path, v);
    PutDefinedIff(j, path, v);
  }

  // ---------------------------------------------------------------------------
  // The unit beside a slider
  // ---------------------------------------------------------------------------

  /** The unit the slider handler shows while the slider moves, as written: case-sensitive. */
  function RangeSuffix(path: string): (unit: string)
    ensures unit == "px" || unit == "%"
  {
    if Includes(path, "Size") || Includes(path, "Spacing") || Includes(path, "Blur") || Includes(path, "letter")
    then "px" else "%"
  }

  /** The unit the slider handler is meant to show: the layout spacings, named in lower case, are pixels too. */
  function IntendedRangeSuffix(path: string): (unit: string)
    ensures unit == "px" || unit == "%"
    ensures RangeSuffix(path) == "px" ==> unit == "px"
  {
    if Includes(path, "Size") || Includes(path, "Spacing") || Includes(path, "spacing")
       || Includes(path, "Blur") || Includes(path, "letter")
    then "px" else "%"
  }

  /** The unit the page shows beside each slider when it loads a look, parallel to `RangeNames`. */
  const LoadedUnits: seq<string> := ["px", "px", "px", "px", "%", "px", "px", "px", "px"]

  /**
   * While a layout spacing slider moves, the handler as written labels its
   * pixel value with `%`, although the same page shows `px` beside it
   * whenever it loads a look.
   */
  lemma SpacingShownAsPercent()
    ensures RangeNames[6] == "layout.spacingScores" && RangeSuffix(RangeNames[6]) == "%" != LoadedUnits[6]
    ensures RangeNames[7] == "layout.spacingInfo" && RangeSuffix(RangeNames[7]) == "%" != LoadedUnits[7]
  {
    var scores := "layout.spacingScores";
    NotIncluded(scores, "Size", 2, |scores|);
    NotIncluded(scores, "Spacing", 0, 14);
    NotIncluded(scores, "Blur", 0, |scores|);
    NotIncluded(scores, "letter", 1, 18);
    var info := "layout.spacingInfo";
    NotIncluded(info, "Size", 2, |info|);
    NotIncluded(info, "Spacing", 0, |info|);
    NotIncluded(info, "Blur", 0, |info|);
    NotIncluded(info, "letter", 1, |info|);
  }

  /** Neither spelling of any pixel word occurs in the shadow opacity's name. */
  lemma OpacityIsPercent()
    ensures RangeSuffix("effects.textShadowOpacity") == "%"
    ensures IntendedRangeSuffix("effects.textShadowOpacity") == "%"
  {
    var opacity := "effects.textShadowOpacity";
    NotIncluded(opacity, "Size", 2, |opacity|);
    NotIncluded(opacity, "Spacing", 6, |opacity|);
    NotIncluded(opacity, "spacing", 6, |opacity|);
    NotIncluded(opacity, "Blur", 0, |opacity|);
    NotIncluded(opacity, "letter", 0, |opacity|);
  }

  /** The sliders whose names end in `Size` are labelled in pixels. */
  lemma SizeSlidersArePixels()
    ensures RangeSuffix("typography.playerNameSize") == "px"
    ensures RangeSuffix("typography.scoreSize") == "px"
    ensures RangeSuffix("typography.gameTimerSize") == "px"
    ensures RangeSuffix("layout.separatorSize") == "px"
  {
    assert OccursAt("typography.playerNameSize", "Size", 21);
    assert OccursAt("typography.scoreSize", "Size", 16);
    assert OccursAt("typography.gameTimerSize", "Size", 20);
    assert OccursAt("layout.separatorSize", "Size", 16);
  }

  /**
   * The blur and letter-spacing sliders are labelled in pixels as written,
   * and the layout spacing sliders by the corrected unit.
   */
  lemma OtherSlidersArePixels()
    ensures RangeSuffix("effects.textShadowBlur") == "px"
    ensures RangeSuffix("effects.letterSpacing") == "px"
    ensures IntendedRangeSuffix("layout.spacingScores") == "px"
    ensures IntendedRangeSuffix("layout.spacingInfo") == "px"
  {
    assert OccursAt("effects.textShadowBlur", "Blur", 18);
    assert OccursAt("effects.letterSpacing", "letter", 8);
    assert OccursAt("layout.spacingScores", "spacing", 7);
    assert OccursAt("layout.spacingInfo", "spacing", 7);
  }

  /** The intended unit agrees with the unit shown on load for every slider of the page. */
  lemma IntendedSuffixMatchesLoad()
    ensures forall k | 0 <= k < |RangeNames| :: IntendedRangeSuffix(RangeNames[k]) == LoadedUnits[k]
  {
    SizeSlidersArePixels();
    OtherSlidersArePixels();
    OpacityIsPercent();
  }

  /**
   * The unit as written agrees with the unit shown on load for every slider
   * except the two layout spacings.
   */
  lemma RangeSuffixAgainstLoad()
    ensures forall k | 0 <= k < |RangeNames| :: RangeSuffix(RangeNames[k]) == LoadedUnits[k] <==> k != 6 && k != 7
  {
    SizeSlidersArePixels();
    OtherSlidersArePixels();
    OpacityIsPercent();
    SpacingShownAsPercent();
  }

  // ---------------------------------------------------------------------------
  // The editor
  // ---------------------------------------------------------------------------

  /** How a write by dotted name ended. */
  datatype WriteOutcome =
    | Written   // the container was an object and now holds the value
    | Ignored   // the container was a number, string, boolean or array: the write has no effect
    | Threw     // the walk met a missing key or null: a TypeError, nothing saved or pushed

  /** One step of the walk: `obj[key]`, where `None` is `undefined`. */
  function Step(obj: Json, key: string): Option<Json>
  {
    if obj.JObj? && key in obj.fields then Some(obj.fields[key]) else None
  }

  /**
   * What `updateSetting(path, value)` does to the page's state: how the
   * write ends, given the object the walk reaches before the last key; the
   * tree after it; and what is saved and pushed.
   */
  predicate WriteEffect(path: string, value: Json, outcome: WriteOutcome,
                        before: Json, storedBefore: Option<Json>, pushedBefore: seq<Json>,
                        after: Json, storedAfter: Option<Json>, pushedAfter: seq<Json>)
  {
    var parts := Split(path, '.');
    var container := Lookup(before, parts[..|parts| - 1]);
    && (outcome == Threw <==> container.None? || container.value.JNull?)
    && (outcome == Written <==> container.Some? && container.value.JObj?)
    && (outcome == Written ==> Some(after) == Put(before, parts, value))
    && (outcome != Written ==> after == before)
    && (outcome == Threw ==> storedAfter == storedBefore && pushedAfter == pushedBefore)
    && (outcome != Threw ==> storedAfter == Some(after) && pushedAfter == pushedBefore + [after])
  }

  /** The four groups `applySettingsToUI` reads its fields from. */
  const Groups: seq<string> := ["colors", "typography", "effects", "layout"]

  /**
   * `applySettingsToUI` does not throw: the tree is an object in which each
   * group is present and not null.
   */
  predicate UiReady(t: Json)
  {
    forall k | 0 <= k < |Groups| :: Lookup(t, [Groups[k]]).Some? && !Lookup(t, [Groups[k]]).value.JNull?
  }

  /** A tree on which every input finds its setting is one the page can show. */
  lemma WellFormedIsUiReady(t: Json)
    requires WellFormed(t)
    ensures UiReady(t)
  {
    assert HexAt(t, ColorPaths[0]) && IntAt(t, RangePaths[0]) && IntAt(t, RangePaths[3])
        && IntAt(t, RangePaths[6]);
  }

  /** The designer page's globals and what it has handed on. */
  class Designer {
    var currentSettings: Json
    /** The tree last written to local storage, if any. */
    var stored: Option<Json>
    /** The trees sent to the overlays, oldest first. */
    var pushed: seq<Json>

    constructor ()
      ensures currentSettings == DefaultSettings() && stored == None && pushed == []
    {
      currentSettings := DefaultSettings();
      stored := None;
      pushed := [];
    }

    /** `applySettingsToOverlay`: the tree is stored and sent to the overlays. */
    method ApplyToOverlay(settings: Json)
      modifies this`stored, this`pushed
      ensures stored == Some(settings) && pushed == old(pushed) + [settings]
    {
      stored := Some(settings);
      pushed := pushed + [settings];
    }

    /**
     * Page load. `saved` is what local storage holds: `None` when nothing
     * (or the empty string) is stored, `Some(None)` when it does not parse.
     * A parsed tree the page cannot show makes `applySettingsToUI` throw,
     * which the page handles as it handles text that does not parse.
     */
    method LoadSettings(saved: Option<Option<Json>>)
      modifies this
      ensures saved.None? ==>
        currentSettings == old(currentSettings) && stored == Some(DefaultSettings())
        && pushed == old(pushed) + [DefaultSettings()]
      ensures saved.Some? && saved.value.Some? && UiReady(saved.value.value) ==>
        currentSettings == saved.value.value && stored == saved.value
        && pushed == old(pushed) + [saved.value.value]
      ensures saved.Some? && (saved.value.None? || !UiReady(saved.value.value)) ==>
        currentSettings == DefaultSettings() && stored == old(stored) && pushed == old(pushed)
    {
      match saved {
        case None =>
          ApplyToOverlay(DefaultSettings());
        case Some(Some(settings)) =>
          currentSettings := settings;
          if UiReady(settings) {
            ApplyToOverlay(currentSettings);
          } else {
            currentSettings := DefaultSettings();
          }
        case Some(None) =>
          currentSettings := DefaultSettings();
      }
    }

    /**
     * `updateSetting`: walks the dotted `path` from the current tree and
     * sets its last key in the object the walk reaches. The walk throws on
     * a missing key or null before the last key; the write has no effect
     * on a container that is not an object. Unless it threw, the tree is
     * then saved and pushed.
     */
    method UpdateSetting(path: string, value: Json) returns (outcome: WriteOutcome)
      modifies this
      ensures WriteEffect(path, value, outcome, old(currentSettings), old(stored), old(pushed),
                          currentSettings, stored, pushed)
    {
      var parts := Split(path, '.');
      var n := |parts| - 1;
      var obj := Some(currentSettings);
      var i := 0;
      while i < n
        invariant 0 <= i <= n
        invariant obj == Lookup(currentSettings, parts[..i])
        invariant currentSettings == old(currentSettings) && stored == old(stored) && pushed == old(pushed)
      {
        if obj.None? || obj.value.JNull? {
          LookupAppend(currentSettings, parts[..i], parts[i..n]);
          assert parts[..i] + parts[i..n] == parts[..n];
          return Threw;
        }
        LookupAppend(currentSettings, parts[..i], [parts[i]]);
        assert parts[..i] + [parts[i]] == parts[..i + 1];
        obj := Step(obj.value, parts[i]);
        i := i + 1;
      }
      if obj.None? || obj.value.JNull? {
        return Threw;
      }
      if obj.value.JObj? {
        PutDefinedIff(currentSettings, parts, value);
        currentSettings := Put(currentSettings, parts, value).value;
        outcome := Written;
      } else {
        outcome := Ignored;
      }
      stored := Some(currentSettings);
      ApplyToOverlay(currentSettings);
    }

    /** The colour text field: only accepted colour text reaches the tree. */
    method OnColorText(path: string, text: string) returns (outcome: Option<WriteOutcome>)
      modifies this
      ensures outcome.None? <==> !IsHexColor(text)
      ensures outcome.None? ==>
        currentSettings == old(currentSettings) && stored == old(stored) && pushed == old(pushed)
      ensures outcome.Some? ==>
        WriteEffect(path, JStr(text), outcome.value, old(currentSettings), old(stored), old(pushed),
                    currentSettings, stored, pushed)
      ensures forall k | 0 <= k < |ColorPaths| ::
        path == Dotted(ColorPaths[k]) && IsHexColor(text) && WellFormed(old(currentSettings)) ==>
          outcome == Some(Written) && WellFormed(currentSettings)
          && Lookup(currentSettings, ColorPaths[k]) == Some(JStr(text))
    {
      if !IsHexColor(text) {
        return None;
      }
      ghost var before := currentSettings;
      var written := UpdateSetting(path, JStr(text));
      outcome := Some(written);
      forall k | 0 <= k < |ColorPaths| && path == Dotted(ColorPaths[k]) && WellFormed(before)
        ensures written == Written && WellFormed(currentSettings)
        ensures Lookup(currentSettings, ColorPaths[k]) == Some(JStr(text))
      {
        EditableWriteLands(before, ColorPaths[k], JStr(text));
        ColorEditKeepsWellFormed(before, k, text);
      }
    }

    /**
     * A slider moved: `parseInt` of its text is written (NaN as null) and
     * the unit to show beside it, as the handler computes it, is returned.
     */
    method OnRangeInput(path: string, text: string) returns (unit: string, outcome: WriteOutcome)
      modifies this
      ensures unit == RangeSuffix(path)
      ensures WriteEffect(path, if ParseInt(text).Some? then JInt(ParseInt(text).value) else JNull, outcome,
                          old(currentSettings), old(stored), old(pushed), currentSettings, stored, pushed)
      ensures forall k | 0 <= k < |RangePaths| ::
        path == Dotted(RangePaths[k]) && text != [] && AllDigits(text) && WellFormed(old(currentSettings)) ==>
          outcome == Written && WellFormed(currentSettings)
          && Lookup(currentSettings, RangePaths[k]) == Some(JInt(DigitsValue(text)))
    {
      var parsed := ParseInt(text);
      var value := if parsed.Some? then JInt(parsed.value) else JNull;
      unit := RangeSuffix(path);
      ghost var before := currentSettings;
      outcome := UpdateSetting(path, value);
      forall k | 0 <= k < |RangePaths| && path == Dotted(RangePaths[k]) && text != [] && AllDigits(text)
                 && WellFormed(before)
        ensures outcome == Written && WellFormed(currentSettings)
        ensures Lookup(currentSettings, RangePaths[k]) == Some(JInt(DigitsValue(text)))
      {
        EditableWriteLands(before, RangePaths[k], JInt(DigitsValue(text)));
        RangeEditKeepsWellFormed(before, k, DigitsValue(text));
      }
    }

    /** A preset button: a known preset becomes the current tree and is pushed; an unknown name does nothing. */
    method ApplyPreset(name: string)
      modifies this
      ensures name in Presets() ==>
        currentSettings == Presets()[name] && stored == Some(Presets()[name])
        && pushed == old(pushed) + [Presets()[name]]
      ensures name !in Presets() ==>
        currentSettings == old(currentSettings) && stored == old(stored) && pushed == old(pushed)
    {
      var presets := Presets();
      if name in presets {
        currentSettings := presets[name];
        ApplyToOverlay(currentSettings);
      }
    }

    /** The reset button: when the operator confirms, the default look becomes current and is pushed. */
    method ResetToDefaults(confirmed: bool)
      modifies this
      ensures confirmed ==>
        currentSettings == DefaultSettings() && stored == Some(DefaultSettings())
        && pushed == old(pushed) + [DefaultSettings()]
      ensures !confirmed ==>
        currentSettings == old(currentSettings) && stored == old(stored) && pushed == old(pushed)
    {
      if confirmed {
        currentSettings := DefaultSettings();
        ApplyToOverlay(currentSettings);
      }
    }

    /** The apply button pushes the current tree unchanged. */
    method ApplyClicked()
      modifies this`stored, this`pushed
      ensures stored == Some(currentSettings) && pushed == old(pushed) + [currentSettings]
    {
      ApplyToOverlay(currentSettings);
    }
  }
}
