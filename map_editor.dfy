/**
 * The tile-painting logic of the map editor's edit tab
 * (`com.unciv.ui.mapeditor.MapEditorEditTab`), without its widgets.
 *
 * The brush action, `normalizeToRuleset`, the ruleset's land/water
 * classification, the river generator and the tile area a brush covers are
 * collaborators that are not part of this model: they enter as parameters.
 */
module MapEditor {
  import opened Wrappers
  import KotlinInt

  datatype RoadStatus = None | Road | Railroad

  /** `MapEditorOptionsTab.TileMatchFuzziness`, in declaration order: later is looser. */
  datatype TileMatchFuzziness = CompleteMatch | NoImprovement | BaseAndFeatures | BaseTerrain | LandOrWater
  {
    function Ordinal(): nat {
      match this
      case CompleteMatch => 0
      case NoImprovement => 1
      case BaseAndFeatures => 2
      case BaseTerrain => 3
      case LandOrWater => 4
    }

    /** Kotlin's `<=` on enum values compares their ordinals. */
    predicate AtMost(other: TileMatchFuzziness) {
      Ordinal() <= other.Ordinal()
    }
  }

  /**
   * The fields of a `TileInfo` that the editor compares and copies. `isLand`
   * is a transient, recomputed from the base terrain by `setTerrainTransients`.
   */
  datatype TileContent = TileContent(
    baseTerrain: string,
    terrainFeatures: seq<string>,
    resource: Option<string>,
    improvement: Option<string>,
    naturalWonder: Option<string>,
    roadStatus: RoadStatus,
    hasBottomLeftRiver: bool,
    hasBottomRightRiver: bool,
    hasBottomRiver: bool,
    isLand: bool)

  function FeatureSet(features: seq<string>): set<string> {
    set f | f in features
  }

  /**
   * Field by field, what two tiles must share to be similar at a fuzziness:
   * road and natural wonder always, land or water always (it is checked up to
   * the loosest level), the base terrain up to `BaseTerrain`, the feature set up
   * to `BaseAndFeatures`, the resource up to `NoImprovement`, the improvement
   * only at `CompleteMatch`.
   */
  predicate AgreeAt(t: TileContent, other: TileContent, fuzziness: TileMatchFuzziness) {
    && t.roadStatus == other.roadStatus
    && t.naturalWonder == other.naturalWonder
    && t.isLand == other.isLand
    && (fuzziness.AtMost(BaseTerrain) ==> t.baseTerrain == other.baseTerrain)
    && (fuzziness.AtMost(BaseAndFeatures) ==> FeatureSet(t.terrainFeatures) == FeatureSet(other.terrainFeatures))
    && (fuzziness.AtMost(NoImprovement) ==> t.resource == other.resource)
    && (fuzziness.AtMost(CompleteMatch) ==> t.improvement == other.improvement)
  }

  /**
   * `TileInfo.isSimilarEnough`, with the tab's `tileMatchFuzziness` as a
   * parameter. In the first guard `&&` binds tighter than `||`, so a road
   * mismatch fails at every level.
   */
  function IsSimilarEnough(t: TileContent, other: TileContent, fuzziness: TileMatchFuzziness): (similar: bool)
    ensures similar <==> AgreeAt(t, other, fuzziness)
  {
    if (fuzziness.AtMost(CompleteMatch) && t.improvement != other.improvement)
       || t.roadStatus != other.roadStatus then false
    else if fuzziness.AtMost(NoImprovement) && t.resource != other.resource then false
    else if fuzziness.AtMost(BaseAndFeatures)
       && FeatureSet(t.terrainFeatures) != FeatureSet(other.terrainFeatures) then false
    else if fuzziness.AtMost(BaseTerrain) && t.baseTerrain != other.baseTerrain then false
    else if fuzziness.AtMost(LandOrWater) && t.isLand != other.isLand then false
    else t.naturalWonder == other.naturalWonder
  }

  /** Similar tiles share road and wonder; different roads are never similar. */
  lemma SimilarSharesRoadAndWonder(t: TileContent, other: TileContent, fuzziness: TileMatchFuzziness)
    ensures IsSimilarEnough(t, other, fuzziness) ==>
      t.roadStatus == other.roadStatus && t.naturalWonder == other.naturalWonder
    ensures t.roadStatus != other.roadStatus ==> !IsSimilarEnough(t, other, fuzziness)
  {
  }

  /** Every tile is similar to itself, and to any tile that lists the same features in another order. */
  lemma SimilarReflexive(t: TileContent, other: TileContent, fuzziness: TileMatchFuzziness)
    requires other == t.(terrainFeatures := other.terrainFeatures)
    requires FeatureSet(t.terrainFeatures) == FeatureSet(other.terrainFeatures)
    ensures IsSimilarEnough(t, other, fuzziness)
  {
  }

  lemma SimilarSymmetric(t: TileContent, other: TileContent, fuzziness: TileMatchFuzziness)
    ensures IsSimilarEnough(t, other, fuzziness) == IsSimilarEnough(other, t, fuzziness)
  {
  }

  /** Loosening the fuzziness never turns similar tiles into dissimilar ones. */
  lemma SimilarMonotone(t: TileContent, other: TileContent, strict: TileMatchFuzziness, loose: TileMatchFuzziness)
    requires strict.AtMost(loose)
    requires IsSimilarEnough(t, other, strict)
    ensures IsSimilarEnough(t, other, loose)
  {
  }

  /** The ruleset, as far as the tab uses it. */
  datatype Ruleset = Ruleset(
    isLandTerrain: string -> bool,                 // land or water, by base terrain
    normalizeToRuleset: TileContent -> TileContent)

  /** `setTerrainTransients`, as far as these fields go: `isLand` follows the base terrain. */
  function WithTransients(c: TileContent, ruleset: Ruleset): (t: TileContent)
    ensures t.isLand == ruleset.isLandTerrain(c.baseTerrain)
    ensures t.(isLand := c.isLand) == c
  {
    c.(isLand := ruleset.isLandTerrain(c.baseTerrain))
  }

  /** The transients of the tile agree with its base terrain. */
  predicate Consistent(c: TileContent, ruleset: Ruleset) {
    c.isLand == ruleset.isLandTerrain(c.baseTerrain)
  }

  /** A tile on the map: its position and the fields the editor changes in place. */
  class TileInfo {
    var position: (int, int)
    var baseTerrain: string
    var terrainFeatures: seq<string>
    var resource: Option<string>
    var improvement: Option<string>
    var naturalWonder: Option<string>
    var roadStatus: RoadStatus
    var hasBottomLeftRiver: bool
    var hasBottomRightRiver: bool
    var hasBottomRiver: bool
    var isLand: bool

    function Content(): TileContent
      reads this
    {
      TileContent(baseTerrain, terrainFeatures, resource, improvement, naturalWonder, roadStatus,
                  hasBottomLeftRiver, hasBottomRightRiver, hasBottomRiver, isLand)
    }

    constructor (position: (int, int), content: TileContent)
      ensures this.position == position && Content() == content
    {
      this.position := position;
      baseTerrain := content.baseTerrain;
      terrainFeatures := content.terrainFeatures;
      resource := content.resource;
      improvement := content.improvement;
      naturalWonder := content.naturalWonder;
      roadStatus := content.roadStatus;
      hasBottomLeftRiver := content.hasBottomLeftRiver;
      hasBottomRightRiver := content.hasBottomRightRiver;
      hasBottomRiver := content.hasBottomRiver;
      isLand := content.isLand;
    }

    /** What a collaborator acting on the tile (a brush, `normalizeToRuleset`) leaves in its fields. */
    method Set(content: TileContent)
      modifies this
      ensures Content() == content && position == old(position)
    {
      baseTerrain := content.baseTerrain;
      terrainFeatures := content.terrainFeatures;
      resource := content.resource;
      improvement := content.improvement;
      naturalWonder := content.naturalWonder;
      roadStatus := content.roadStatus;
      hasBottomLeftRiver := content.hasBottomLeftRiver;
      hasBottomRightRiver := content.hasBottomRightRiver;
      hasBottomRiver := content.hasBottomRiver;
      isLand := content.isLand;
    }

    method SetTerrainTransients(ruleset: Ruleset)
      modifies this
      ensures Content() == WithTransients(old(Content()), ruleset) && position == old(position)
    {
      isLand := ruleset.isLandTerrain(baseTerrain);
    }

    /** `applyFrom`: copy the nine editable fields of `other`, not the position, then recompute transients. */
    method ApplyFrom(other: TileContent, ruleset: Ruleset)
      modifies this
      ensures baseTerrain == other.baseTerrain && terrainFeatures == other.terrainFeatures
      ensures resource == other.resource && improvement == other.improvement
      ensures naturalWonder == other.naturalWonder && roadStatus == other.roadStatus
      ensures hasBottomLeftRiver == other.hasBottomLeftRiver
      ensures hasBottomRightRiver == other.hasBottomRightRiver
      ensures hasBottomRiver == other.hasBottomRiver
      ensures isLand == ruleset.isLandTerrain(other.baseTerrain)
      ensures position == old(position)
    {
      baseTerrain := other.baseTerrain;
      terrainFeatures := other.terrainFeatures;
      resource := other.resource;
      improvement := other.improvement;
      naturalWonder := other.naturalWonder;
      roadStatus := other.roadStatus;
      hasBottomLeftRiver := other.hasBottomLeftRiver;
      hasBottomRightRiver := other.hasBottomRightRiver;
      hasBottomRiver := other.hasBottomRiver;
      SetTerrainTransients(ruleset);
    }
  }

  // ---------------------------------------------------------------------------
  // Painting one tile
  // ---------------------------------------------------------------------------

  /** The painted clone: brush, then transients. */
  function Trial(saved: TileContent, brush: TileContent -> TileContent, ruleset: Ruleset): TileContent {
    WithTransients(brush(saved), ruleset)
  }

  /** The tile itself after brush, transients and `normalizeToRuleset`. */
  function Applied(saved: TileContent, brush: TileContent -> TileContent, ruleset: Ruleset): TileContent {
    ruleset.normalizeToRuleset(WithTransients(brush(saved), ruleset))
  }

  /** `paintTile` keeps the paint when the clone is similar enough to the normalized tile. */
  predicate KeepsPaint(saved: TileContent, brush: TileContent -> TileContent, ruleset: Ruleset,
                       fuzziness: TileMatchFuzziness) {
    IsSimilarEnough(Trial(saved, brush, ruleset), Applied(saved, brush, ruleset), fuzziness)
  }

  /** The fields `paintTile` leaves: the normalized painting, or the saved fields restored. */
  function Painted(saved: TileContent, brush: TileContent -> TileContent, ruleset: Ruleset,
                   fuzziness: TileMatchFuzziness): (c: TileContent)
    ensures KeepsPaint(saved, brush, ruleset, fuzziness) ==>
      c == Applied(saved, brush, ruleset) && IsSimilarEnough(Trial(saved, brush, ruleset), c, fuzziness)
    ensures !KeepsPaint(saved, brush, ruleset, fuzziness) ==>
      c.(isLand := saved.isLand) == saved && Consistent(c, ruleset)
    ensures !KeepsPaint(saved, brush, ruleset, fuzziness) && Consistent(saved, ruleset) ==> c == saved
    ensures Consistent(c, ruleset) || c == Applied(saved, brush, ruleset)
  {
    if KeepsPaint(saved, brush, ruleset, fuzziness) then Applied(saved, brush, ruleset)
    else WithTransients(saved, ruleset)
  }

  /** When normalizing changes nothing, painting is never reverted. */
  lemma NormalizedPaintIsKept(saved: TileContent, brush: TileContent -> TileContent, ruleset: Ruleset,
                              fuzziness: TileMatchFuzziness)
    requires ruleset.normalizeToRuleset(Trial(saved, brush, ruleset)) == Trial(saved, brush, ruleset)
    ensures KeepsPaint(saved, brush, ruleset, fuzziness)
    ensures Painted(saved, brush, ruleset, fuzziness) == Trial(saved, brush, ruleset)
  {
  }

  /** A painting kept at some fuzziness is kept at every looser one. */
  lemma KeepsPaintMonotone(saved: TileContent, brush: TileContent -> TileContent, ruleset: Ruleset,
                           strict: TileMatchFuzziness, loose: TileMatchFuzziness)
    requires strict.AtMost(loose)
    requires KeepsPaint(saved, brush, ruleset, strict)
    ensures KeepsPaint(saved, brush, ruleset, loose)
  {
  }

  // ---------------------------------------------------------------------------
  // Brush size
  // ---------------------------------------------------------------------------

  /** `brushSize` -1: the brush floods all similar connected tiles. */
  const FloodFill: int := -1

  /** The slider callback: the slider runs from 1 to 6 in steps of 1, and 6 means floodfill. */
  function BrushSizeForSlider(value: int): (size: int)
    requires 1 <= value <= 6
    ensures size == FloodFill <==> value == 6
    ensures size != FloodFill ==> size == value
  {
    if value > 5 then FloodFill else value
  }

  /**
   * The `brushSize` setter moves the slider: to its last position 6 for any
   * negative size (floodfill), otherwise to the size itself.
   */
  function SliderForBrushSize(size: int): (slider: int)
    ensures slider >= 0
    ensures size >= 0 ==> slider == size
    ensures slider == 6 <==> size < 0 || size == 6
  {
    if size < 0 then 6 else size
  }

  /**
   * `getBrushTip`: "Floodfill" past position 5, otherwise the position written
   * in decimal, which reads back as the same number.
   */
  function BrushTip(value: int): (tip: string)
    ensures value > 5 ==> tip == "Floodfill"
    ensures value <= 5 ==> tip == KotlinInt.IntToString(value)
    ensures value <= 5 && KotlinInt.InIntRange(value) ==> KotlinInt.ToIntOrNull(tip) == Some(value)
    ensures |tip| > 0
    ensures value <= 5 ==> tip[0] == '-' || KotlinInt.IsDigit(tip[0])
  {
    if value > 5 then "Floodfill" else KotlinInt.IntToString(value)
  }

  /**
   * The click guard of `tileClickHandler`: a click is handled only with a
   * handler chosen and a brush size of floodfill (-1) or 0 to 5.
   */
  predicate ClickIgnored(brushSize: int, handler: BrushHandlerType): (ignored: bool)
    ensures !ignored <==> handler != BrushHandlerType.None && (brushSize == FloodFill || 0 <= brushSize <= 5)
  {
    brushSize < -1 || brushSize > 5 || handler == BrushHandlerType.None
  }

  /**
   * Every slider position gives a brush size the click handler accepts, the
   * setter moves the slider back to the same position, and the tip names the
   * size: "Floodfill" exactly for floodfill, otherwise the size in digits.
   */
  lemma SliderBrushRoundTrip(value: int)
    requires 1 <= value <= 6
    ensures -1 <= BrushSizeForSlider(value) <= 5 && BrushSizeForSlider(value) != 0
    ensures SliderForBrushSize(BrushSizeForSlider(value)) == value
    ensures BrushTip(value) == "Floodfill" <==> BrushSizeForSlider(value) == FloodFill
    ensures BrushSizeForSlider(value) != FloodFill ==>
      BrushTip(value) == KotlinInt.IntToString(BrushSizeForSlider(value))
    ensures BrushSizeForSlider(value) != FloodFill ==>
      KotlinInt.ToIntOrNull(BrushTip(value)) == Some(BrushSizeForSlider(value))
  {
    if value <= 5 {
      KotlinInt.ParseIntToString(value);
      assert BrushTip(value)[0] != 'F';
    }
  }

  /** The sizes the keys set (1 to 5, and -1 for floodfill) survive a trip through the slider. */
  lemma BrushSizeSliderRoundTrip(size: int)
    requires size == FloodFill || 1 <= size <= 5
    ensures 1 <= SliderForBrushSize(size) <= 6
    ensures BrushSizeForSlider(SliderForBrushSize(size)) == size
  {
  }

  // ---------------------------------------------------------------------------
  // The tab
  // ---------------------------------------------------------------------------

  datatype BrushHandlerType = None | Direct | Tile | Road | River | RiverFromTo

  /** What one brush stroke leaves on one tile of its area, by handler type. */
  function BrushOutcome(handler: BrushHandlerType, brush: TileContent -> TileContent, ruleset: Ruleset,
                        fuzziness: TileMatchFuzziness, c: TileContent): (r: TileContent)
    ensures handler == Direct || handler == River ==> r == brush(c)
    ensures handler == Tile || handler == BrushHandlerType.Road ==> r == Painted(c, brush, ruleset, fuzziness)
    ensures handler == BrushHandlerType.None || handler == RiverFromTo ==> r == c
  {
    match handler
    case Direct => brush(c)
    case River => brush(c)
    case Tile => Painted(c, brush, ruleset, fuzziness)
    case Road => Painted(c, brush, ruleset, fuzziness)
    case _ => c
  }

  predicate Distinct(area: seq<TileInfo>) {
    forall i, j :: 0 <= i < j < |area| ==> area[i] != area[j]
  }

  class MapEditorEditTab {
    var brushHandlerType: BrushHandlerType
    /** Applies the current brush to one tile, without validation or transients. */
    var brushAction: TileContent -> TileContent
    /** 1 to 5: a hexagon of that radius; -1: floodfill. */
    var brushSize: int
    var tileMatchFuzziness: TileMatchFuzziness
    var ruleset: Ruleset
    /** The tile to run a river from; both ends are chosen with the same tool. */
    var riverStartTile: TileInfo?
    /** The tile to run a river to. */
    var riverEndTile: TileInfo?

    constructor (ruleset: Ruleset)
      ensures brushHandlerType == BrushHandlerType.None && brushSize == 1
      ensures tileMatchFuzziness == CompleteMatch && this.ruleset == ruleset
      ensures riverStartTile == null && riverEndTile == null
    {
      brushHandlerType := BrushHandlerType.None;
      brushAction := c => c;
      brushSize := 1;
      tileMatchFuzziness := CompleteMatch;
      this.ruleset := ruleset;
      riverStartTile := null;
      riverEndTile := null;
    }

    /** `setBrush`: choose how clicks are handled and what the brush does. */
    method SetBrush(handlerType: BrushHandlerType, applyAction: TileContent -> TileContent)
      modifies this`brushHandlerType, this`brushAction
      ensures brushHandlerType == handlerType && brushAction == applyAction
    {
      brushHandlerType := handlerType;
      brushAction := applyAction;
    }

    /** The `brushSize` chosen with the slider. */
    method SetBrushSizeFromSlider(value: int)
      requires 1 <= value <= 6
      modifies this`brushSize
      ensures brushSize == BrushSizeForSlider(value)
      ensures !ClickIgnored(brushSize, Direct)
    {
      brushSize := BrushSizeForSlider(value);
    }

    /**
     * `tileClickHandler`. `area` is the set of tiles the brush covers (the
     * floodfill of similar tiles or the hexagon around `tile`), and
     * `closestWater` the river generator's closest water tile to `tile`.
     * Returns the ends of the river handed to the generator, if any.
     */
    method TileClickHandler(tile: TileInfo, area: seq<TileInfo>, closestWater: TileInfo?)
      returns (river: Option<(TileInfo, TileInfo)>)
      requires Distinct(area)
      modifies this`riverStartTile, this`riverEndTile, set t | t in area
      ensures ClickIgnored(old(brushSize), old(brushHandlerType)) ==>
        river == Option.None && unchanged(this) &&
        forall i :: 0 <= i < |area| ==> area[i].Content() == old(area[i].Content())
      ensures !ClickIgnored(old(brushSize), old(brushHandlerType)) && brushHandlerType == RiverFromTo ==>
        RiverEndsChosen(tile, closestWater, river) &&
        forall i :: 0 <= i < |area| ==> area[i].Content() == old(area[i].Content())
      ensures !ClickIgnored(old(brushSize), old(brushHandlerType)) && brushHandlerType != RiverFromTo ==>
        river == Option.None && unchanged(this) &&
        forall i :: 0 <= i < |area| ==>
          area[i].Content() == BrushOutcome(brushHandlerType, brushAction, ruleset, tileMatchFuzziness, old(area[i].Content()))
      ensures forall i :: 0 <= i < |area| ==> area[i].position == old(area[i].position)
    {
      river := Option.None;
      if brushSize < -1 || brushSize > 5 || brushHandlerType == BrushHandlerType.None {
        return;
      }
      if brushHandlerType == RiverFromTo {
        river := SelectRiverFromOrTo(tile, closestWater);
      } else {
        PaintTilesWithBrush(area);
      }
    }

    /**
     * The river ends after a click on `tile`. A land tile becomes the start and
     * is joined to the remembered end; with no end remembered, the closest water
     * is remembered as the end and no river runs yet. A water tile becomes the
     * end and is joined to the remembered start, if any. A river that is run
     * leaves both ends forgotten.
     */
    twostate predicate RiverEndsChosen(tile: TileInfo, closestWater: TileInfo?, new river: Option<(TileInfo, TileInfo)>)
      reads this, tile
    {
      && (tile.isLand && old(riverEndTile) != null ==>
            river == Some((tile, old(riverEndTile))) && riverStartTile == null && riverEndTile == null)
      && (tile.isLand && old(riverEndTile) == null ==>
            river == Option.None && riverStartTile == tile && riverEndTile == closestWater)
      && (!tile.isLand && old(riverStartTile) != null ==>
            river == Some((old(riverStartTile), tile)) && riverStartTile == null && riverEndTile == null)
      && (!tile.isLand && old(riverStartTile) == null ==>
            river == Option.None && riverStartTile == null && riverEndTile == tile)
    }

    /**
     * `selectRiverFromOrTo`: a land tile becomes the start, a water tile the
     * end. The river runs only when the clicked tile completes an end that an
     * earlier click remembered; a land click that only picks the closest water
     * as the end runs nothing. A river that runs forgets both ends.
     */
    method SelectRiverFromOrTo(tile: TileInfo, closestWater: TileInfo?)
      returns (river: Option<(TileInfo, TileInfo)>)
      modifies this`riverStartTile, this`riverEndTile
      ensures RiverEndsChosen(tile, closestWater, river)
    {
      if tile.isLand {
        riverStartTile := tile;
        if riverEndTile != null {
          river := PaintRiverFromTo();
          return;
        }
        riverEndTile := closestWater;
        river := Option.None;
      } else {
        riverEndTile := tile;
        if riverStartTile != null {
          river := PaintRiverFromTo();
          return;
        }
        river := Option.None;
      }
    }

    /**
     * `paintRiverFromTo`: hand both ends to the river generator (whose failure
     * is caught) and forget them.
     */
    method PaintRiverFromTo() returns (river: Option<(TileInfo, TileInfo)>)
      requires riverStartTile != null && riverEndTile != null
      modifies this`riverStartTile, this`riverEndTile
      ensures river == Some((old(riverStartTile), old(riverEndTile)))
      ensures riverStartTile == null && riverEndTile == null
    {
      river := Some((riverStartTile, riverEndTile));
      riverStartTile := null;
      riverEndTile := null;
    }

    /** `paintTilesWithBrush`: apply the brush to every tile of the area, by handler type. */
    method PaintTilesWithBrush(area: seq<TileInfo>)
      requires Distinct(area)
      modifies set t | t in area
      ensures forall i :: 0 <= i < |area| ==>
        area[i].Content() == BrushOutcome(brushHandlerType, brushAction, ruleset, tileMatchFuzziness, old(area[i].Content()))
      ensures forall i :: 0 <= i < |area| ==> area[i].position == old(area[i].position)
    {
      var k := 0;
      while k < |area|
        invariant 0 <= k <= |area|
        invariant forall i :: 0 <= i < k ==>
          area[i].Content() == BrushOutcome(brushHandlerType, brushAction, ruleset, tileMatchFuzziness, old(area[i].Content()))
        invariant forall i :: k <= i < |area| ==> area[i].Content() == old(area[i].Content())
        invariant forall i :: 0 <= i < |area| ==> area[i].position == old(area[i].position)
      {
        var t := area[k];
        match brushHandlerType {
          case Direct =>
            DirectPaintTile(t);
          case River =>
            DirectPaintTile(t);
          case Tile =>
            var _ := PaintTile(t);
          case Road =>
            var _ := PaintTile(t);
          case _ =>  // the other handler types do not reach here
        }
        k := k + 1;
      }
    }

    /** `directPaintTile` (starting locations, and rivers): the brush alone, unchecked. */
    method DirectPaintTile(tile: TileInfo)
      modifies tile
      ensures tile.Content() == brushAction(old(tile.Content())) && tile.position == old(tile.position)
    {
      tile.Set(brushAction(tile.Content()));
    }

    /**
     * `paintTile`: paint a clone and the tile itself, normalize the tile, and
     * restore the saved fields when the two are no longer similar enough.
     */
    method PaintTile(tile: TileInfo) returns (painted: bool)
      modifies tile
      ensures painted == KeepsPaint(old(tile.Content()), brushAction, ruleset, tileMatchFuzziness)
      ensures tile.Content() == Painted(old(tile.Content()), brushAction, ruleset, tileMatchFuzziness)
      ensures tile.position == old(tile.position)
    {
      var savedTile := tile.Content();
      var paintedTile := WithTransients(brushAction(savedTile), ruleset);
      tile.Set(brushAction(tile.Content()));
      tile.SetTerrainTransients(ruleset);
      tile.Set(ruleset.normalizeToRuleset(tile.Content()));
      if !IsSimilarEnough(paintedTile, tile.Content(), tileMatchFuzziness) {
        tile.ApplyFrom(savedTile, ruleset);
        return false;
      }
      return true;
    }
  }
}
