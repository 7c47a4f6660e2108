/**
 * The home map screen: the height rules of the draggable bottom sheet, the
 * recentring of the map on Seoul after a drag, and the conversion of a map
 * location into the badge shown in the detail modal.
 *
 * Window heights, pointer positions, parsed ids and today's date are
 * parameters.  Heights and coordinates are exact reals.
 */
module SheetMap {
  import opened Common

  const MinSheetHeight: real := 200.0
  /** The list inside the sheet leaves 140 px for the handle and header, but keeps at least 120 px. */
  const ListChrome: real := 140.0
  const MinListHeight: real := 120.0

  // ---------------------------------------------------------------------
  // Sheet height rules
  // ---------------------------------------------------------------------

  /** The tallest the sheet may be in a window of height `h`: 85 % of it, and at least 120 px short of it. */
  function MaxSheetHeight(h: real): real
  {
    Min(h * 0.85, h - 120.0)
  }

  /** The height halfway between the two snap points. */
  function Midpoint(maxH: real): real
  {
    (MinSheetHeight + maxH) / 2.0
  }

  /** The sheet height while dragging: start height plus the upward pointer travel, clamped. */
  function DragHeight(startHeight: real, startY: real, y: real, maxH: real): real
  {
    Min(Max(startHeight + (startY - y), MinSheetHeight), maxH)
  }

  /** Where the sheet comes to rest on release. */
  function SnapHeight(current: real, maxH: real): real
  {
    if current < Midpoint(maxH) then MinSheetHeight else maxH
  }

  /** What a click on the handle does to the height. */
  function ToggleHeight(current: real, maxH: real): real
  {
    if current <= Midpoint(maxH) then maxH else MinSheetHeight
  }

  /** The height kept across a window resize, given the new maximum. */
  function Reclamp(prev: real, maxH: real): real
  {
    Min(Max(prev, MinSheetHeight), maxH)
  }

  /** The maximum height of the location list inside a sheet of the given height. */
  function ListMaxHeight(sheetHeight: real): real
  {
    Max(sheetHeight - ListChrome, MinListHeight)
  }

  /**
   * The maximum sheet height is 120 px short of the window up to 800 px and
   * 85 % of it from 800 px on; it admits the minimum height exactly when
   * the window is at least 320 px tall.
   */
  lemma MaxSheetHeightFacts(h: real)
    ensures MaxSheetHeight(h) <= h * 0.85 && MaxSheetHeight(h) <= h - 120.0
    ensures h <= 800.0 ==> MaxSheetHeight(h) == h - 120.0
    ensures h >= 800.0 ==> MaxSheetHeight(h) == h * 0.85
    ensures MinSheetHeight <= MaxSheetHeight(h) <==> h >= 320.0
  {
  }

  /**
   * A drag never takes the sheet above the maximum, nor below the minimum
   * when the maximum admits it; inside those bounds the sheet follows the
   * pointer exactly; and moving the pointer further up never lowers it.
   */
  lemma DragHeightFacts(startHeight: real, startY: real, y: real, maxH: real)
    ensures DragHeight(startHeight, startY, y, maxH) <= maxH
    ensures MinSheetHeight <= maxH ==> MinSheetHeight <= DragHeight(startHeight, startY, y, maxH)
    ensures MinSheetHeight <= startHeight + (startY - y) <= maxH ==>
              DragHeight(startHeight, startY, y, maxH) == startHeight + (startY - y)
    ensures forall y2 :: y2 <= y ==> DragHeight(startHeight, startY, y, maxH) <= DragHeight(startHeight, startY, y2, maxH)
  {
  }

  /**
   * Release always lands on one of the two snap points, the nearer one when
   * the maximum is at least the minimum; releasing again changes nothing.
   */
  lemma SnapHeightFacts(current: real, maxH: real)
    ensures current < Midpoint(maxH) ==> SnapHeight(current, maxH) == MinSheetHeight
    ensures current >= Midpoint(maxH) ==> SnapHeight(current, maxH) == maxH
    ensures SnapHeight(current, maxH) == MinSheetHeight || SnapHeight(current, maxH) == maxH
    ensures MinSheetHeight <= maxH ==>
              Abs(SnapHeight(current, maxH) - current) <= Abs(MinSheetHeight - current) &&
              Abs(SnapHeight(current, maxH) - current) <= Abs(maxH - current)
    ensures MinSheetHeight <= maxH ==> SnapHeight(SnapHeight(current, maxH), maxH) == SnapHeight(current, maxH)
  {
  }

  /**
   * A click always lands on a snap point, the farther one when the maximum
   * is at least the minimum; from a snap point it goes to the other one, so
   * two clicks come back.
   */
  lemma ToggleHeightFacts(current: real, maxH: real)
    ensures current <= Midpoint(maxH) ==> ToggleHeight(current, maxH) == maxH
    ensures current > Midpoint(maxH) ==> ToggleHeight(current, maxH) == MinSheetHeight
    ensures ToggleHeight(current, maxH) == MinSheetHeight || ToggleHeight(current, maxH) == maxH
    ensures MinSheetHeight <= maxH ==>
              Abs(ToggleHeight(current, maxH) - current) >= Abs(MinSheetHeight - current) &&
              Abs(ToggleHeight(current, maxH) - current) >= Abs(maxH - current)
    ensures MinSheetHeight < maxH && (current == MinSheetHeight || current == maxH) ==>
              ToggleHeight(current, maxH) != current &&
              ToggleHeight(ToggleHeight(current, maxH), maxH) == current
  {
  }

  /**
   * A tap on the handle is a press, a release and a click: from a snapped
   * height the release leaves it where it is and the click flips it.
   */
  lemma TapFlips(current: real, maxH: real)
    requires MinSheetHeight < maxH
    requires current == MinSheetHeight || current == maxH
    ensures SnapHeight(current, maxH) == current
    ensures ToggleHeight(SnapHeight(current, maxH), maxH) == (if current == maxH then MinSheetHeight else maxH)
  {
  }

  /**
   * The resize clamp keeps the height between the minimum and the new
   * maximum when that range is non-empty, collapses to the maximum when it
   * is empty, leaves an in-range height alone, and is idempotent.
   */
  lemma ReclampFacts(prev: real, maxH: real)
    ensures MinSheetHeight <= maxH ==> MinSheetHeight <= Reclamp(prev, maxH) <= maxH
    ensures maxH < MinSheetHeight ==> Reclamp(prev, maxH) == maxH
    ensures MinSheetHeight <= prev <= maxH ==> Reclamp(prev, maxH) == prev
    ensures Reclamp(Reclamp(prev, maxH), maxH) == Reclamp(prev, maxH)
  {
  }

  /** The list is never shorter than 120 px and otherwise fills the sheet below its 140 px of chrome. */
  lemma ListMaxHeightFacts(sheetHeight: real)
    ensures ListMaxHeight(sheetHeight) >= MinListHeight
    ensures ListMaxHeight(sheetHeight) >= sheetHeight - ListChrome
    ensures ListMaxHeight(sheetHeight) == MinListHeight || ListMaxHeight(sheetHeight) == sheetHeight - ListChrome
    ensures sheetHeight >= ListChrome + MinListHeight ==> ListMaxHeight(sheetHeight) == sheetHeight - ListChrome
  {
  }

  // ---------------------------------------------------------------------
  // The sheet as a component
  // ---------------------------------------------------------------------

  /** A snapshot of the sheet's state and drag refs. */
  datatype Sheet = Sheet(sheetHeight: real, maxSheetHeight: real,
                         dragStartY: Option<real>, startHeight: real, isDragging: bool)

  class BottomSheet {
    var sheetHeight: real
    var maxSheetHeight: real
    /** dragStartYRef: None is null */
    var dragStartY: Option<real>
    /** startHeightRef */
    var startHeight: real
    /** isDraggingRef */
    var isDragging: bool

    function State(): Sheet
      reads this
    {
      Sheet(sheetHeight, maxSheetHeight, dragStartY, startHeight, isDragging)
    }

    /** Whenever the window admits the minimum height, the sheet lies between it and the maximum. */
    predicate InRange()
      reads this
    {
      MinSheetHeight <= maxSheetHeight ==> MinSheetHeight <= sheetHeight <= maxSheetHeight
    }

    /**
     * Mounting: the maximum is computed from the window height, the sheet
     * starts at the minimum, and the mount effect's first resize pass runs.
     */
    constructor (windowHeight: real)
      ensures InRange()
      ensures State() == Sheet(Reclamp(MinSheetHeight, MaxSheetHeight(windowHeight)), MaxSheetHeight(windowHeight),
                               None, MinSheetHeight, false)
    {
      maxSheetHeight := MaxSheetHeight(windowHeight);
      sheetHeight := MinSheetHeight;
      dragStartY := None;
      startHeight := MinSheetHeight;
      isDragging := false;
      new;
      Resize(windowHeight);
    }

    /** The resize listener: recompute the maximum and clamp the height into the new range. */
    method Resize(windowHeight: real)
      modifies this
      ensures InRange()
      ensures State() == old(State()).(maxSheetHeight := MaxSheetHeight(windowHeight),
                                       sheetHeight := Reclamp(old(sheetHeight), MaxSheetHeight(windowHeight)))
    {
      var height := MaxSheetHeight(windowHeight);
      maxSheetHeight := height;
      sheetHeight := Reclamp(sheetHeight, height);
      ReclampFacts(old(sheetHeight), height);
    }

    /** Pressing the handle records where the drag started and from what height. */
    method HandlePointerDown(y: real)
      requires InRange()
      modifies this
      ensures InRange()
      ensures State() == old(State()).(dragStartY := Some(y), startHeight := old(sheetHeight), isDragging := true)
    {
      dragStartY := Some(y);
      startHeight := sheetHeight;
      isDragging := true;
    }

    /**
     * A pointer move during a drag sets the height from the start height and
     * the current pointer position alone, so the path taken does not matter;
     * with no drag in progress it does nothing.
     */
    method HandlePointerMove(y: real)
      requires InRange()
      modifies this
      ensures InRange()
      ensures old(isDragging) && old(dragStartY).Some? ==>
                State() == old(State()).(sheetHeight := DragHeight(old(startHeight), old(dragStartY).value, y, old(maxSheetHeight)))
      ensures !(old(isDragging) && old(dragStartY).Some?) ==> State() == old(State())
    {
      if !isDragging || dragStartY.None? {
        return;
      }
      var delta := dragStartY.value - y;
      sheetHeight := Min(Max(startHeight + delta, MinSheetHeight), maxSheetHeight);
      DragHeightFacts(startHeight, dragStartY.value, y, maxSheetHeight);
    }

    /** Releasing ends the drag and snaps the height to the nearer snap point. */
    method HandlePointerUp()
      requires InRange()
      modifies this
      ensures InRange()
      ensures State() == old(State()).(isDragging := false, dragStartY := None,
                                       sheetHeight := SnapHeight(old(sheetHeight), old(maxSheetHeight)))
    {
      isDragging := false;
      dragStartY := None;
      sheetHeight := if sheetHeight < (MinSheetHeight + maxSheetHeight) / 2.0 then MinSheetHeight else maxSheetHeight;
    }

    /** A click on the handle flips between the two snap points. */
    method HandleClick()
      requires InRange()
      modifies this
      ensures InRange()
      ensures State() == old(State()).(sheetHeight := ToggleHeight(old(sheetHeight), old(maxSheetHeight)))
    {
      sheetHeight := if sheetHeight <= (MinSheetHeight + maxSheetHeight) / 2.0 then maxSheetHeight else MinSheetHeight;
    }
  }

  /** A tap on the collapsed sheet of a 1000 px window opens it to 850 px; a second tap closes it. */
  method TapScenario()
  {
    var s := new BottomSheet(1000.0);
    assert s.maxSheetHeight == 850.0 && s.sheetHeight == 200.0;
    s.HandlePointerDown(500.0);
    s.HandlePointerUp();
    s.HandleClick();
    assert s.sheetHeight == 850.0;
    s.HandlePointerDown(500.0);
    s.HandlePointerMove(480.0);
    s.HandlePointerMove(530.0);
    assert s.sheetHeight == 820.0;
    s.HandlePointerUp();
    s.HandleClick();
    assert s.sheetHeight == 200.0;
  }

  // ---------------------------------------------------------------------
  // Keeping the map on Seoul
  // ---------------------------------------------------------------------

  datatype LatLng = LatLng(lat: real, lng: real)

  const SeoulMinLat: real := 37.413294
  const SeoulMaxLat: real := 37.715133
  const SeoulMinLng: real := 126.734086
  const SeoulMaxLng: real := 127.269311

  predicate InSeoul(p: LatLng)
  {
    SeoulMinLat <= p.lat <= SeoulMaxLat && SeoulMinLng <= p.lng <= SeoulMaxLng
  }

  /** A coordinate clamped into [lo, hi], as `max(lo, min(hi, v))`. */
  function ClampTo(lo: real, hi: real, v: real): real
  {
    Max(lo, Min(hi, v))
  }

  /** The map centre after a drag ends: moved to the clamped point only if it left the box. */
  function CentreAfterDrag(c: LatLng): LatLng
  {
    if c.lat < SeoulMinLat || c.lat > SeoulMaxLat || c.lng < SeoulMinLng || c.lng > SeoulMaxLng
    then LatLng(ClampTo(SeoulMinLat, SeoulMaxLat, c.lat), ClampTo(SeoulMinLng, SeoulMaxLng, c.lng))
    else c
  }

  /**
   * After a drag the centre is always inside the Seoul box; a centre that
   * was inside is left exactly where it was; and the corrected centre is,
   * coordinate by coordinate, the point of the box nearest the old one.
   */
  lemma CentreAfterDragFacts(c: LatLng)
    ensures InSeoul(CentreAfterDrag(c))
    ensures InSeoul(c) <==> CentreAfterDrag(c) == c
    ensures forall p :: InSeoul(p) ==>
              Abs(CentreAfterDrag(c).lat - c.lat) <= Abs(p.lat - c.lat) &&
              Abs(CentreAfterDrag(c).lng - c.lng) <= Abs(p.lng - c.lng)
  {
  }

  // ---------------------------------------------------------------------
  // Locations, markers and badges
  // ---------------------------------------------------------------------

  /** A place on the map.  `kind` is the location's type, `date` may be absent. */
  datatype MapLocation = MapLocation(id: string, name: string, kind: string,
                                     location: LatLng, date: Option<string>)

  datatype Badge = Badge(id: int, name: string, location: LatLng, date: string,
                         color: string, emoji: string, tags: seq<string>)

  /** The colour class and icon of a location's marker. */
  datatype MarkerStyle = MarkerStyle(colorClass: string, icon: string)

  function IsPath(loc: MapLocation): bool
  {
    loc.kind == "path"
  }

  function MarkerStyleOf(loc: MapLocation): MarkerStyle
  {
    if IsPath(loc) then MarkerStyle("bg-green-500", "🚶") else MarkerStyle("bg-orange-500", "🎉")
  }

  /**
   * The badge opened from a location, given what `parseInt` made of its id
   * (None for NaN) and today's date as the Korean locale prints it.  Both
   * NaN and 0 are falsy and fall back to id 1; an absent or empty date falls
   * back to today.
   */
  function ToBadge(loc: MapLocation, parsedId: Option<int>, today: string): Badge
  {
    var path := IsPath(loc);
    Badge(
      if parsedId.Some? && parsedId.value != 0 then parsedId.value else 1,
      loc.name,
      loc.location,
      if loc.date.Some? && loc.date.value != "" then loc.date.value else today,
      if path then "green" else "orange",
      if path then "🚶" else "🎉",
      [if path then "산책로" else "축제"])
  }

  /**
   * The badge keeps the name and position, never has id 0, keeps a
   * non-empty date, and is classed as a walk exactly when the location is a
   * path — in agreement with the marker it was opened from.
   */
  lemma ToBadgeFacts(loc: MapLocation, parsedId: Option<int>, today: string)
    ensures var b := ToBadge(loc, parsedId, today);
            && b.name == loc.name && b.location == loc.location
            && b.id != 0
            && (parsedId.Some? && parsedId.value != 0 ==> b.id == parsedId.value)
            && (loc.date.Some? && loc.date.value != "" ==> b.date == loc.date.value)
            && (loc.date.None? || loc.date.value == "" ==> b.date == today)
            && |b.tags| == 1
            && (b.color == "green" <==> loc.kind == "path")
            && (b.tags[0] == "산책로" <==> loc.kind == "path")
            && b.emoji == MarkerStyleOf(loc).icon
            && (MarkerStyleOf(loc).colorClass == "bg-green-500" <==> loc.kind == "path")
  {
  }
}
