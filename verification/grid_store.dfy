/** The grid store: one viewport over an ordered list of cards, with the
    drag, selection and expansion state that the interaction handlers update.
    The derived views (visible cards, padded content extent) are pure
    functions of the store's fields. */
module Grid {

  import opened Sequences
  import opened GridCalculations

  datatype CardType =
    // cards of the bio cluster (one of each)
    | Bio | Welcome | Skills | Experience | Medals | Ask | MiniGallery
    | TestimonialCarousel | FeaturedArticles | FeaturedSocialEmbeds | NewsTicker
    // cards of the content cluster (any number)
    | Blog | CaseStudy | Adventure | Testimonial | Snap | SocialEmbed | NewsUpdate

  datatype AnimationState = Idle | Hover | Expanded | Morphing

  /** A card's placement in grid space. */
  datatype GridPosition = GridPosition(x: real, y: real, width: real, height: real, zIndex: Option<int>) {
    function Rect(): Bounds {
      Bounds(x, y, width, height)
    }
  }

  datatype GridCard = GridCard(
    id: string,
    cardType: CardType,
    position: GridPosition,
    isVisible: bool,
    isActive: bool,
    animationState: Option<AnimationState>)

  /** A `Partial<GridCard>`: the fields present replace the card's own. */
  datatype GridCardUpdate = GridCardUpdate(
    id: Option<string>,
    cardType: Option<CardType>,
    position: Option<GridPosition>,
    isVisible: Option<bool>,
    isActive: Option<bool>,
    animationState: Option<Option<AnimationState>>)

  function ApplyCardUpdate(c: GridCard, u: GridCardUpdate): GridCard {
    GridCard(
      u.id.GetOr(c.id),
      u.cardType.GetOr(c.cardType),
      u.position.GetOr(c.position),
      u.isVisible.GetOr(c.isVisible),
      u.isActive.GetOr(c.isActive),
      u.animationState.GetOr(c.animationState))
  }

  /** A `Partial<GridViewport>`. */
  datatype ViewportUpdate = ViewportUpdate(
    x: Option<real>, y: Option<real>, zoom: Option<real>, width: Option<real>,
    height: Option<real>, minZoom: Option<real>, maxZoom: Option<real>)

  function ApplyViewportUpdate(v: GridViewport, u: ViewportUpdate): GridViewport {
    GridViewport(
      u.x.GetOr(v.x), u.y.GetOr(v.y), u.zoom.GetOr(v.zoom), u.width.GetOr(v.width),
      u.height.GetOr(v.height), u.minZoom.GetOr(v.minZoom), u.maxZoom.GetOr(v.maxZoom))
  }

  /** The content extent as the store reports it: corners, not a size. */
  datatype GridExtent = GridExtent(minX: real, minY: real, maxX: real, maxY: real)

  const Padding: real := 100.0
  const EmptyExtent: GridExtent := GridExtent(0.0, 0.0, 800.0, 600.0)
  /** The share of the viewport that `FitToGrid` fills. */
  const FitFraction: real := 0.9

  /** The cards the viewport shows: those not strictly beyond any of its four
      edges, in list order. A card that touches an edge is shown. */
  function VisibleCards(cards: seq<GridCard>, v: GridViewport): (r: seq<GridCard>)
    requires v.zoom != 0.0
    ensures IsSubsequence(r, cards)
    ensures forall c :: c in r <==> c in cards && Touches(c.position.Rect(), ViewportBounds(v))
    ensures forall c ::
      multiset(r)[c] == if Touches(c.position.Rect(), ViewportBounds(v)) then multiset(cards)[c] else 0
  {
    var left := -v.x / v.zoom;
    var top := -v.y / v.zoom;
    var right := left + v.width / v.zoom;
    var bottom := top + v.height / v.zoom;
    var shown := (c: GridCard) =>
      !(c.position.x > right || c.position.x + c.position.width < left ||
        c.position.y > bottom || c.position.y + c.position.height < top);
    var view := ViewportBounds(v);
    assert view.x == left && view.y == top && view.x + view.width == right && view.y + view.height == bottom;
    assert forall c :: shown(c) == Touches(c.position.Rect(), view);
    Filter(cards, shown)
  }

  /** The bounding box of all cards pushed out by `Padding` on every side, or
      a fixed default when there are no cards. */
  function GridBounds(cards: seq<GridCard>): (b: GridExtent)
    ensures cards == [] ==> b == EmptyExtent
    ensures forall c :: c in cards ==>
      b.minX + Padding <= c.position.x && c.position.x + c.position.width <= b.maxX - Padding &&
      b.minY + Padding <= c.position.y && c.position.y + c.position.height <= b.maxY - Padding
    ensures cards != [] ==>
      (exists c :: c in cards && c.position.x == b.minX + Padding) &&
      (exists c :: c in cards && c.position.y == b.minY + Padding) &&
      (exists c :: c in cards && c.position.x + c.position.width == b.maxX - Padding) &&
      (exists c :: c in cards && c.position.y + c.position.height == b.maxY - Padding)
  {
    if cards == [] then EmptyExtent
    else
      var lefts := Map(cards, (c: GridCard) => c.position.x);
      var tops := Map(cards, (c: GridCard) => c.position.y);
      var rights := Map(cards, (c: GridCard) => c.position.x + c.position.width);
      var bottoms := Map(cards, (c: GridCard) => c.position.y + c.position.height);
      var minX, minY, maxX, maxY := MinOf(lefts), MinOf(tops), MaxOf(rights), MaxOf(bottoms);
      assert forall c :: c in cards ==>
        minX <= c.position.x && c.position.x + c.position.width <= maxX &&
        minY <= c.position.y && c.position.y + c.position.height <= maxY by {
        forall c | c in cards
          ensures minX <= c.position.x && c.position.x + c.position.width <= maxX
          ensures minY <= c.position.y && c.position.y + c.position.height <= maxY
        {
          var i :| 0 <= i < |cards| && cards[i] == c;
          assert lefts[i] == c.position.x && tops[i] == c.position.y;
          assert rights[i] == c.position.x + c.position.width;
          assert bottoms[i] == c.position.y + c.position.height;
        }
      }
      AttainedByCard(cards, lefts, minX);
      AttainedByCard(cards, tops, minY);
      AttainedByCard(cards, rights, maxX);
      AttainedByCard(cards, bottoms, maxY);
      GridExtent(minX - Padding, minY - Padding, maxX + Padding, maxY + Padding)
  }

  /** A value picked from a list mapped from the cards comes from some card. */
  lemma AttainedByCard(cards: seq<GridCard>, values: seq<real>, m: real)
    requires |values| == |cards| && m in values
    ensures exists i :: 0 <= i < |cards| && values[i] == m
  {
  }

  /** With non-negative card sizes the content extent is at least twice the
      padding across, so `FitToGrid` never divides by zero. */
  lemma GridBoundsNonDegenerate(cards: seq<GridCard>)
    requires forall c :: c in cards ==> c.position.width >= 0.0 && c.position.height >= 0.0
    ensures GridBounds(cards).maxX - GridBounds(cards).minX >= 2.0 * Padding
    ensures GridBounds(cards).maxY - GridBounds(cards).minY >= 2.0 * Padding
  {
    if cards != [] {
      assert cards[0] in cards;
    }
  }

  /** `Math.max(minZoom, Math.min(maxZoom, zoom))`. */
  function ClampZoom(zoom: real, minZoom: real, maxZoom: real): (r: real)
    ensures minZoom <= r
    ensures minZoom <= maxZoom ==> r <= maxZoom
    ensures minZoom <= zoom <= maxZoom ==> r == zoom
    ensures zoom < minZoom ==> r == minZoom
    ensures minZoom <= maxZoom < zoom ==> r == maxZoom
  {
    Max(minZoom, Min(maxZoom, zoom))
  }

  lemma {:induction false} ClampZoomIdempotent(zoom: real, minZoom: real, maxZoom: real)
    ensures ClampZoom(ClampZoom(zoom, minZoom, maxZoom), minZoom, maxZoom) == ClampZoom(zoom, minZoom, maxZoom)
  {
    if maxZoom < minZoom {
      assert ClampZoom(zoom, minZoom, maxZoom) == minZoom;
    }
  }

  /** The new screen offset along one axis when zooming from `oldZoom` to
      `newZoom` about the screen coordinate `center`. */
  function ZoomedOffset(center: real, offset: real, oldZoom: real, newZoom: real): (r: real)
    requires oldZoom != 0.0
    ensures newZoom == oldZoom ==> r == offset
  {
    assert oldZoom / oldZoom == 1.0;
    center - (center - offset) * (newZoom / oldZoom)
  }

  /** Zooming about a screen point keeps the grid point under it. */
  lemma ZoomKeepsGridPoint(center: real, offset: real, oldZoom: real, newZoom: real)
    requires oldZoom != 0.0 && newZoom != 0.0
    ensures (center - ZoomedOffset(center, offset, oldZoom, newZoom)) / newZoom == (center - offset) / oldZoom
  {
    var d := center - offset;
    assert center - ZoomedOffset(center, offset, oldZoom, newZoom) == d * (newZoom / oldZoom);
    assert d * (newZoom / oldZoom) / newZoom == d / oldZoom;
  }

  lemma NegatedProduct(u: real, w: real)
    ensures -u * w == -(u * w)
  {
  }

  /** The zoom `FitToGrid` asks for before clamping. */
  function FitScale(v: GridViewport, e: GridExtent): real
    requires e.maxX - e.minX != 0.0 && e.maxY - e.minY != 0.0
  {
    Min(v.width / (e.maxX - e.minX), v.height / (e.maxY - e.minY)) * FitFraction
  }

  function ExtentCenter(e: GridExtent): Position {
    Position(e.minX + (e.maxX - e.minX) / 2.0, e.minY + (e.maxY - e.minY) / 2.0)
  }

  /** A JavaScript number with NaN, enough to follow `fitToGrid` as written. */
  datatype JsNumber = Num(value: real) | NaN

  /** `Math.min` of two numbers: NaN as soon as either is NaN. */
  function JsMin(a: JsNumber, b: JsNumber): (r: JsNumber)
    ensures r.Num? <==> a.Num? && b.Num?
    ensures r.Num? ==> r.value <= a.value && r.value <= b.value && (r == a || r == b)
  {
    if a.Num? && b.Num? then Num(Min(a.value, b.value)) else NaN
  }

  /** `Math.max` of two numbers: NaN as soon as either is NaN. */
  function JsMax(a: JsNumber, b: JsNumber): (r: JsNumber)
    ensures r.Num? <==> a.Num? && b.Num?
    ensures r.Num? ==> r.value >= a.value && r.value >= b.value && (r == a || r == b)
  {
    if a.Num? && b.Num? then Num(Max(a.value, b.value)) else NaN
  }

  /** `a / b` and `a * b` with NaN operands; division by zero (an infinity)
      is outside this model. */
  function JsDiv(a: JsNumber, b: JsNumber): (r: JsNumber)
    requires b != Num(0.0)
    ensures r.Num? <==> a.Num? && b.Num?
  {
    if a.Num? && b.Num? then Num(a.value / b.value) else NaN
  }

  function JsMul(a: JsNumber, b: JsNumber): (r: JsNumber)
    ensures r.Num? <==> a.Num? && b.Num?
  {
    if a.Num? && b.Num? then Num(a.value * b.value) else NaN
  }

  /** The zoom `fitToGrid` computes as written. `gridBounds` is declared as
      `$derived(() => ...)`, so it holds the derivation function and not the
      extent: `bounds.maxX`, `bounds.minX`, `bounds.maxY` and `bounds.minY` are
      `undefined`, and `undefined - undefined` is NaN. */
  function FitZoomAsWritten(v: GridViewport): (z: JsNumber)
    ensures z == NaN
  {
    var gridWidth := NaN;   // bounds.maxX - bounds.minX
    var gridHeight := NaN;  // bounds.maxY - bounds.minY
    var scale := JsMul(JsMin(JsDiv(Num(v.width), gridWidth), JsDiv(Num(v.height), gridHeight)), Num(FitFraction));
    JsMax(Num(v.minZoom), JsMin(Num(v.maxZoom), scale))
  }

  /** Whatever the viewport and the cards, `fitToGrid` as written hands NaN to
      `zoomTo`, whose own clamp keeps it: the new zoom is no number at all,
      so it lies in no zoom range. */
  lemma FitToGridAsWrittenLosesZoom(v: GridViewport)
    ensures !JsMax(Num(v.minZoom), JsMin(Num(v.maxZoom), FitZoomAsWritten(v))).Num?
  {
  }

  /** `cards.findIndex(card => card.id === id)`. */
  function FindCard(cards: seq<GridCard>, id: string): (r: Option<nat>)
    ensures r.Some? ==> r.value < |cards| && cards[r.value].id == id
    ensures r.Some? ==> forall j :: 0 <= j < r.value ==> cards[j].id != id
    ensures r.None? <==> forall c :: c in cards ==> c.id != id
  {
    FirstIndex(cards, (c: GridCard) => c.id == id)
  }

  /** `cards.filter(card => card.id !== id)`. */
  function WithoutCard(cards: seq<GridCard>, id: string): (r: seq<GridCard>)
    ensures IsSubsequence(r, cards)
    ensures forall c :: c in r <==> c in cards && c.id != id
    ensures forall c :: multiset(r)[c] == if c.id != id then multiset(cards)[c] else 0
    ensures (forall c :: c in cards ==> c.id != id) ==> r == cards
  {
    var keep := (c: GridCard) => c.id != id;
    if forall c :: c in cards ==> c.id != id then
      FilterKeepsAll(cards, keep);
      Filter(cards, keep)
    else
      Filter(cards, keep)
  }

  /** The offset during a drag: the offset at the start of the drag moved by
      the pointer's displacement from where the drag started. The offset keeps
      its distance to the pointer, so the grid stays under the pointer, and
      bringing the pointer back to the anchor restores the start offset. */
  function DraggedOffset(start: Position, anchor: Position, pointer: Position): (r: Position)
    ensures r.x - pointer.x == start.x - anchor.x && r.y - pointer.y == start.y - anchor.y
    ensures pointer == anchor ==> r == start
  {
    Position(start.x + (pointer.x - anchor.x), start.y + (pointer.y - anchor.y))
  }

  /** The store itself: the fields are the module-level state of the
      TypeScript store, and each method is one of its exported actions. */
  class GridStore {
    var viewport: GridViewport
    var cards: seq<GridCard>
    var isDragging: bool
    var selectedCard: Option<string>
    var expandedCard: Option<string>
    var lastPointerPosition: Position
    var dragStartPosition: Position
    var isAnimating: bool

    constructor ()
      ensures viewport == GridViewport(0.0, 0.0, 1.0, 1200.0, 800.0, 0.5, 2.0)
      ensures cards == [] && !isDragging && !isAnimating
      ensures selectedCard == None && expandedCard == None
      ensures lastPointerPosition == Position(0.0, 0.0) && dragStartPosition == Position(0.0, 0.0)
    {
      viewport := GridViewport(0.0, 0.0, 1.0, 1200.0, 800.0, 0.5, 2.0);
      cards := [];
      isDragging := false;
      selectedCard := None;
      expandedCard := None;
      lastPointerPosition := Position(0.0, 0.0);
      dragStartPosition := Position(0.0, 0.0);
      isAnimating := false;
    }

    method SetViewport(u: ViewportUpdate)
      modifies this`viewport
      ensures viewport == ApplyViewportUpdate(old(viewport), u)
    {
      viewport := ApplyViewportUpdate(viewport, u);
    }

    method SetCards(newCards: seq<GridCard>)
      modifies this`cards
      ensures cards == newCards
    {
      cards := newCards;
    }

    method AddCard(card: GridCard)
      modifies this`cards
      ensures cards == old(cards) + [card]
    {
      cards := cards + [card];
    }

    /** Merges `u` into the first card with this id; no card changes when
        none has it. */
    method UpdateCard(id: string, u: GridCardUpdate)
      modifies this`cards
      ensures |cards| == |old(cards)|
      ensures FindCard(old(cards), id).None? ==> cards == old(cards)
      ensures FindCard(old(cards), id).Some? ==>
        var i := FindCard(old(cards), id).value;
        cards == old(cards)[i := ApplyCardUpdate(old(cards)[i], u)]
    {
      var index := FindCard(cards, id);
      if index.Some? {
        var i := index.value;
        cards := cards[i := ApplyCardUpdate(cards[i], u)];
      }
    }

    method RemoveCard(id: string)
      modifies this`cards
      ensures cards == WithoutCard(old(cards), id)
    {
      cards := WithoutCard(cards, id);
    }

    /** Centres the viewport on the grid point (gx, gy) at the current zoom. */
    method PanTo(gx: real, gy: real, animate: bool)
      modifies this`viewport, this`isAnimating
      ensures viewport == old(viewport).(
        x := -gx * old(viewport).zoom + old(viewport).width / 2.0,
        y := -gy * old(viewport).zoom + old(viewport).height / 2.0)
      ensures GridToScreen(Position(gx, gy), viewport) == Position(viewport.width / 2.0, viewport.height / 2.0)
      ensures isAnimating == (animate || old(isAnimating))
    {
      var v := viewport;
      NegatedProduct(gx, v.zoom);
      NegatedProduct(gy, v.zoom);
      viewport := v.(x := -gx * v.zoom + v.width / 2.0, y := -gy * v.zoom + v.height / 2.0);
      if animate {
        isAnimating := true;
      }
    }

    /** Sets the zoom to `zoom` clamped into the permitted range; when both
        screen coordinates of a centre are given, the grid point under that
        centre stays under it. */
    method ZoomTo(zoom: real, centerX: Option<real>, centerY: Option<real>, animate: bool)
      requires centerX.Some? && centerY.Some? ==> viewport.zoom != 0.0
      modifies this`viewport, this`isAnimating
      ensures viewport.zoom == ClampZoom(zoom, old(viewport).minZoom, old(viewport).maxZoom)
      ensures viewport.minZoom <= viewport.maxZoom ==> viewport.minZoom <= viewport.zoom <= viewport.maxZoom
      ensures viewport.width == old(viewport).width && viewport.height == old(viewport).height
      ensures viewport.minZoom == old(viewport).minZoom && viewport.maxZoom == old(viewport).maxZoom
      ensures !(centerX.Some? && centerY.Some?) ==> viewport.x == old(viewport).x && viewport.y == old(viewport).y
      ensures centerX.Some? && centerY.Some? ==>
        viewport.x == ZoomedOffset(centerX.value, old(viewport).x, old(viewport).zoom, viewport.zoom) &&
        viewport.y == ZoomedOffset(centerY.value, old(viewport).y, old(viewport).zoom, viewport.zoom)
      ensures centerX.Some? && centerY.Some? && viewport.zoom != 0.0 ==>
        ScreenToGrid(Position(centerX.value, centerY.value), viewport) ==
        ScreenToGrid(Position(centerX.value, centerY.value), old(viewport))
      ensures viewport.zoom == old(viewport).zoom ==> viewport.x == old(viewport).x && viewport.y == old(viewport).y
      ensures isAnimating == (animate || old(isAnimating))
    {
      var newZoom := ClampZoom(zoom, viewport.minZoom, viewport.maxZoom);
      if centerX.Some? && centerY.Some? {
        var cx, cy := centerX.value, centerY.value;
        var oldZoom := viewport.zoom;
        if newZoom != 0.0 {
          ZoomKeepsGridPoint(cx, viewport.x, oldZoom, newZoom);
          ZoomKeepsGridPoint(cy, viewport.y, oldZoom, newZoom);
        }
        viewport := viewport.(
          x := ZoomedOffset(cx, viewport.x, oldZoom, newZoom),
          y := ZoomedOffset(cy, viewport.y, oldZoom, newZoom));
      }
      viewport := viewport.(zoom := newZoom);
      if animate {
        isAnimating := true;
      }
    }

    /** Zooms so that the padded content extent fills nine tenths of the
        viewport (within the zoom range) and centres it. This reads the
        extent itself; `FitZoomAsWritten` is what the TypeScript store computes. */
    method FitToGrid()
      requires GridBounds(cards).maxX - GridBounds(cards).minX != 0.0
      requires GridBounds(cards).maxY - GridBounds(cards).minY != 0.0
      modifies this`viewport, this`isAnimating
      ensures viewport.zoom == ClampZoom(FitScale(old(viewport), GridBounds(cards)), viewport.minZoom, viewport.maxZoom)
      ensures viewport.minZoom <= viewport.maxZoom ==> viewport.minZoom <= viewport.zoom <= viewport.maxZoom
      ensures viewport.width == old(viewport).width && viewport.height == old(viewport).height
      ensures viewport.minZoom == old(viewport).minZoom && viewport.maxZoom == old(viewport).maxZoom
      ensures GridToScreen(ExtentCenter(GridBounds(cards)), viewport) ==
        Position(viewport.width / 2.0, viewport.height / 2.0)
      ensures isAnimating
    {
      var bounds := GridBounds(cards);
      var scale := FitScale(viewport, bounds);
      var clampedZoom := ClampZoom(scale, viewport.minZoom, viewport.maxZoom);
      ClampZoomIdempotent(scale, viewport.minZoom, viewport.maxZoom);
      ZoomTo(clampedZoom, None, None, true);
      var center := ExtentCenter(bounds);
      PanTo(center.x, center.y, true);
    }

    method SelectCard(id: Option<string>)
      modifies this`selectedCard
      ensures selectedCard == id
    {
      selectedCard := id;
    }

    /** Records `id` as the expanded card and, when a non-empty id names a
        card, centres the viewport on the first such card. */
    method ExpandCard(id: Option<string>)
      modifies this`expandedCard, this`viewport, this`isAnimating
      ensures expandedCard == id
      ensures var target := if id.Some? && id.value != "" then FindCard(cards, id.value) else None;
        (target.None? ==> viewport == old(viewport) && isAnimating == old(isAnimating)) &&
        (target.Some? ==>
          GridToScreen(BoundsCenter(cards[target.value].position.Rect()), viewport) ==
            Position(viewport.width / 2.0, viewport.height / 2.0) &&
          viewport.zoom == old(viewport).zoom && viewport.width == old(viewport).width &&
          viewport.height == old(viewport).height && viewport.minZoom == old(viewport).minZoom &&
          viewport.maxZoom == old(viewport).maxZoom && isAnimating)
    {
      expandedCard := id;
      if id.Some? && id.value != "" {
        var index := FindCard(cards, id.value);
        if index.Some? {
          var center := BoundsCenter(cards[index.value].position.Rect());
          PanTo(center.x, center.y, true);
        }
      }
    }

    /** Anchors a drag at the pointer and at the current offset. */
    method StartDrag(pointerX: real, pointerY: real)
      modifies this`isDragging, this`lastPointerPosition, this`dragStartPosition
      ensures isDragging
      ensures lastPointerPosition == Position(pointerX, pointerY)
      ensures dragStartPosition == Position(viewport.x, viewport.y)
    {
      isDragging := true;
      lastPointerPosition := Position(pointerX, pointerY);
      dragStartPosition := Position(viewport.x, viewport.y);
    }

    /** Moves the offset by the pointer's displacement from where the drag
        started; the anchors are left alone, so the offset never drifts. */
    method UpdateDrag(pointerX: real, pointerY: real)
      modifies this`viewport
      ensures !isDragging ==> viewport == old(viewport)
      ensures isDragging ==> viewport == old(viewport).(
        x := DraggedOffset(dragStartPosition, lastPointerPosition, Position(pointerX, pointerY)).x,
        y := DraggedOffset(dragStartPosition, lastPointerPosition, Position(pointerX, pointerY)).y)
    {
      if !isDragging {
        return;
      }
      var offset := DraggedOffset(dragStartPosition, lastPointerPosition, Position(pointerX, pointerY));
      viewport := viewport.(x := offset.x, y := offset.y);
    }

    method EndDrag()
      modifies this`isDragging
      ensures !isDragging
    {
      isDragging := false;
    }
  }
}
