/**
 * The map's insight-card state: where the card opens next to the cursor,
 * which SOW record a polygon click selects, and when the card is visible.
 */
module MapView {
  import opened Host

  datatype Point = Point(x: real, y: real)

  const CardWidth: real := 400.0
  const CardHeight: real := 400.0
  const CursorOffset: real := 15.0

  /** `clientWidth || 0`: the container's size, 0 without a container. */
  function SizeOr0(size: Option<real>): (r: real)
    ensures size.Some? ==> r == size.value
    ensures size.None? ==> r == 0.0
  {
    if size.Some? && size.value != 0.0 then size.value else 0.0
  }

  /**
   * `calculateCardPosition`: the card opens 15 to the right of and below
   * the cursor; on an axis where it would pass the map's edge it opens 15
   * before the cursor instead; neither coordinate is negative.
   */
  method CalculateCardPosition(mouseX: real, mouseY: real, clientWidth: Option<real>, clientHeight: Option<real>)
      returns (p: Point)
    ensures p.x >= 0.0 && p.y >= 0.0
    ensures mouseX + CursorOffset + CardWidth <= SizeOr0(clientWidth) ==> p.x == Max(0.0, mouseX + CursorOffset)
    ensures mouseX + CursorOffset + CardWidth > SizeOr0(clientWidth) ==> p.x == Max(0.0, mouseX - CardWidth - CursorOffset)
    ensures mouseY + CursorOffset + CardHeight <= SizeOr0(clientHeight) ==> p.y == Max(0.0, mouseY + CursorOffset)
    ensures mouseY + CursorOffset + CardHeight > SizeOr0(clientHeight) ==> p.y == Max(0.0, mouseY - CardHeight - CursorOffset)
    ensures mouseX >= 0.0 && mouseX + CursorOffset + CardWidth <= SizeOr0(clientWidth) ==> p.x > mouseX && p.x + CardWidth <= SizeOr0(clientWidth)
    ensures mouseY >= 0.0 && mouseY + CursorOffset + CardHeight <= SizeOr0(clientHeight) ==> p.y > mouseY && p.y + CardHeight <= SizeOr0(clientHeight)
    ensures mouseX >= CardWidth + CursorOffset && mouseX + CursorOffset + CardWidth > SizeOr0(clientWidth) ==> p.x + CardWidth < mouseX
    ensures mouseY >= CardHeight + CursorOffset && mouseY + CursorOffset + CardHeight > SizeOr0(clientHeight) ==> p.y + CardHeight < mouseY
  {
    var mapWidth := SizeOr0(clientWidth);
    var mapHeight := SizeOr0(clientHeight);
    var adjustedX := mouseX + CursorOffset;
    var adjustedY := mouseY + CursorOffset;
    if adjustedX + CardWidth > mapWidth {
      adjustedX := mouseX - CardWidth - CursorOffset;
    }
    if adjustedY + CardHeight > mapHeight {
      adjustedY := mouseY - CardHeight - CursorOffset;
    }
    p := Point(Max(0.0, adjustedX), Max(0.0, adjustedY));
  }

  /** `properties.name || "Unknown"`. */
  function ClickedName(name: Value): (r: Value)
    ensures Truthy(r)
    ensures Truthy(name) ==> r == name
    ensures !Truthy(name) ==> r == Str("Unknown")
  {
    if Truthy(name) then name else Str("Unknown")
  }

  /** `record.getNamedReference()?.name === countryName`. */
  predicate NamedAs(r: Record, countryName: Value) {
    r.namedReference.Lookup? && r.namedReference.name.Some? && countryName == Str(r.namedReference.name.value)
  }

  /** The index of the last listed record named `countryName`, if any. */
  function LastNamed(ids: seq<string>, records: map<string, Record>, countryName: Value): (r: Option<nat>)
    requires forall i :: 0 <= i < |ids| ==> ids[i] in records
    ensures r.Some? ==> (r.value < |ids| && NamedAs(records[ids[r.value]], countryName)
                         && forall j :: r.value < j < |ids| ==> !NamedAs(records[ids[j]], countryName))
    ensures r.None? ==> forall j :: 0 <= j < |ids| ==> !NamedAs(records[ids[j]], countryName)
  {
    if ids == [] then None
    else if NamedAs(records[ids[|ids| - 1]], countryName) then Some(|ids| - 1)
    else LastNamed(ids[..|ids| - 1], records, countryName)
  }

  /** The SOW id of a click: the id of the last record named like the country, overwritten on each match. */
  method FindSowRecordId(ds: DataSet, countryName: Value) returns (sowRecordId: Option<string>)
    requires WellFormed(ds)
    ensures var k := LastNamed(ds.sortedRecordIds, ds.records, countryName);
      sowRecordId == if k.None? then None else Some(ds.sortedRecordIds[k.value])
  {
    var ids := ds.sortedRecordIds;
    sowRecordId := None;
    var i := 0;
    while i < |ids|
      invariant 0 <= i <= |ids|
      invariant var k := LastNamed(ids[..i], ds.records, countryName);
        sowRecordId == if k.None? then None else Some(ids[k.value])
    {
      assert ids[..i + 1][..i] == ids[..i];
      var record := ds.records[ids[i]];
      if NamedAs(record, countryName) {
        sowRecordId := Some(ids[i]);
      }
      i := i + 1;
    }
    assert ids[..i] == ids;
  }

  /** A click on the map: what the polygon layer answers for it. */
  datatype PolygonHit = PolygonHit(nameProperty: Value, position: Option<(real, real)>)

  /**
   * The card state of the map component. The polygon click handler is
   * registered when the map is created and keeps the `showCard` of that
   * render; the card shown is `cardVisible && showCard`.
   */
  class CardState {
    var cardVisible: bool
    var cardPosition: Point
    var selectedCountry: Option<Value>
    var selectedSowId: Option<string>
    var showCard: bool
    /** The `showCard` the click handler captured. */
    const clickShowCard: bool

    constructor(showCard: bool)
      ensures !cardVisible && cardPosition == Point(0.0, 0.0) && selectedCountry.None? && selectedSowId.None?
      ensures this.showCard == showCard && clickShowCard == showCard
    {
      cardVisible := false;
      cardPosition := Point(0.0, 0.0);
      selectedCountry := None;
      selectedSowId := None;
      this.showCard := showCard;
      clickShowCard := showCard;
    }

    /** The `isVisible` the card receives. */
    function CardShown(): (shown: bool)
      reads this
      ensures shown ==> cardVisible && showCard
      ensures !showCard || !cardVisible ==> !shown
    {
      cardVisible && showCard
    }

    /** A new `showCard` prop: turning it off hides the card. */
    method SetShowCard(showCard: bool)
      modifies this`showCard, this`cardVisible
      ensures this.showCard == showCard
      ensures !showCard ==> !cardVisible && !CardShown()
      ensures showCard ==> cardVisible == old(cardVisible)
    {
      this.showCard := showCard;
      if !showCard {
        cardVisible := false;
      }
    }

    /**
     * A click on a polygon: with the captured `showCard` on and a shape and
     * a position, selects the clicked country and its SOW record, places
     * the card at the cursor and makes it visible; otherwise nothing.
     */
    method PolygonClick(hit: Option<PolygonHit>, ds: DataSet, clientWidth: Option<real>, clientHeight: Option<real>)
      requires WellFormed(ds)
      modifies this`cardVisible, this`cardPosition, this`selectedCountry, this`selectedSowId
      ensures !clickShowCard || hit.None? || hit.value.position.None? ==> unchanged(this)
      ensures clickShowCard && hit.Some? && hit.value.position.Some? ==>
        var name := ClickedName(hit.value.nameProperty);
        var k := LastNamed(ds.sortedRecordIds, ds.records, name);
        && cardVisible
        && (CardShown() <==> showCard)
        && selectedCountry == Some(name)
        && selectedSowId == (if k.None? then None else Some(ds.sortedRecordIds[k.value]))
        && cardPosition.x >= 0.0 && cardPosition.y >= 0.0
    {
      if !clickShowCard {
        return;
      }
      if hit.None? || hit.value.position.None? {
        return;
      }
      var countryName := ClickedName(hit.value.nameProperty);
      var sowRecordId := FindSowRecordId(ds, countryName);
      selectedCountry := Some(countryName);
      selectedSowId := sowRecordId;
      var newPosition := CalculateCardPosition(hit.value.position.value.0, hit.value.position.value.1, clientWidth, clientHeight);
      cardPosition := newPosition;
      cardVisible := true;
    }

    /** A click on the map: with no polygon under it, hides the card and clears the country. */
    method MapClick(shapesUnderCursor: nat)
      modifies this`cardVisible, this`selectedCountry
      ensures shapesUnderCursor == 0 ==> !cardVisible && !CardShown() && selectedCountry.None?
      ensures shapesUnderCursor > 0 ==> unchanged(this)
    {
      if shapesUnderCursor == 0 {
        cardVisible := false;
        selectedCountry := None;
      }
    }

    /** `handleCardClose`: hides the card and clears the country. */
    method Close()
      modifies this`cardVisible, this`selectedCountry
      ensures !cardVisible && !CardShown() && selectedCountry.None?
      ensures selectedSowId == old(selectedSowId) && cardPosition == old(cardPosition)
    {
      cardVisible := false;
      selectedCountry := None;
    }
  }

  // ---------------------------------------------------------------------
  // Properties
  // ---------------------------------------------------------------------

  /** The last match wins: a later record of the same name replaces an earlier one. */
  lemma {:induction false} LaterMatchWins(ids: seq<string>, id: string, records: map<string, Record>, countryName: Value)
    requires id in records && forall i :: 0 <= i < |ids| ==> ids[i] in records
    requires NamedAs(records[id], countryName)
    ensures forall i :: 0 <= i < |ids + [id]| ==> (ids + [id])[i] in records
    ensures LastNamed(ids + [id], records, countryName) == Some(|ids|)
  {
    assert forall i :: 0 <= i < |ids + [id]| ==> (ids + [id])[i] in records by {
      forall i | 0 <= i < |ids + [id]| ensures (ids + [id])[i] in records {
        if i < |ids| { assert (ids + [id])[i] == ids[i]; }
      }
    }
  }
}
