/**
 * Properties of the published-property operations across calls: pages of
 * bookings tile the owner's bookings, deletion and visibility behave as a
 * soft delete and a toggle, and the displayed room count stays derived from
 * the room list through every operation.
 */
module PropertyLemmas {
  import opened Results
  import opened PropertyTypes
  import opened PropertyRouter

  // ---------------------------------------------------------------------------
  // Pagination
  // ---------------------------------------------------------------------------

  /** No two rows share an id: the first row's id is not repeated, and so on down the list. */
  predicate UniqueIds(rows: seq<Booking>)
    decreases |rows|
  {
    |rows| == 0 ||
    ((forall j :: 1 <= j < |rows| ==> rows[j].id != rows[0].id) && UniqueIds(rows[1..]))
  }

  /** With unique ids, the cursor of row j selects exactly the rows from j on. */
  lemma {:induction false} FromCursorAt(rows: seq<Booking>, j: nat)
    requires UniqueIds(rows)
    requires j < |rows|
    ensures FromCursor(rows, rows[j].id) == rows[j..]
  {
    if j > 0 {
      assert rows[j].id != rows[0].id;
      FromCursorAt(rows[1..], j - 1);
      assert rows[1..][j - 1..] == rows[j..];
      assert rows[1..][j - 1] == rows[j];
    }
  }

  /**
   * Any row of a window is a row of the list, and the window reopened at
   * its row `limit` is the window without its first `limit` rows.
   */
  lemma WindowTiles(rows: seq<Booking>, cursor: Option<string>, limit: nat)
    requires UniqueIds(rows)
    ensures |Window(rows, cursor)| > limit ==>
              && Window(rows, cursor)[limit] in rows
              && Window(rows, Some(Window(rows, cursor)[limit].id)) == Window(rows, cursor)[limit..]
  {
    if |Window(rows, cursor)| > limit {
      var k := WindowIsSuffix(rows, cursor);
      SuffixShift(rows, k, limit);
      FromCursorAt(rows, k + limit);
    }
  }

  /** A window is a suffix of the rows; `k` is where it starts. */
  lemma WindowIsSuffix(rows: seq<Booking>, cursor: Option<string>) returns (k: nat)
    ensures k <= |rows| && Window(rows, cursor) == rows[k..]
  {
    k := |rows| - |Window(rows, cursor)|;
  }

  /** Shifting inside a suffix: row `j` of `s[k..]` is row `k + j` of `s`, and so are the rows after it. */
  lemma SuffixShift<T>(s: seq<T>, k: nat, j: nat)
    requires k + j < |s|
    ensures s[k..][j] == s[k + j] && s[k..][j..] == s[k + j..]
  {
  }

  /**
   * When a page reports a next cursor, asking for the next page with that
   * cursor reads exactly the rows after the page: the pages tile the
   * owner's bookings with no row skipped or repeated.
   */
  lemma NextPageFollowsPage(properties: PropertyStore, table: seq<Booking>, user: Uid, q: BookingsQuery)
    requires UniqueIds(OwnedBookings(properties, table, user))
    requires forall b :: b in table ==> b.id != ""
    ensures GetBookings(properties, table, user, q).Ok? && GetBookings(properties, table, user, q).value.nextCursor.Some? ==>
              var page := GetBookings(properties, table, user, q).value;
              var next := BookingsQuery(q.limit, page.nextCursor, None);
              var owned := OwnedBookings(properties, table, user);
              Window(owned, EffectiveCursor(q)) == page.bookings + Window(owned, EffectiveCursor(next))
  {
    if GetBookings(properties, table, user, q).Ok? && GetBookings(properties, table, user, q).value.nextCursor.Some? {
      var page := GetBookings(properties, table, user, q).value;
      var owned := OwnedBookings(properties, table, user);
      var window := Window(owned, EffectiveCursor(q));
      var limit := q.limit.GetOr(DefaultLimit);
      assert |window| > limit && page.bookings == window[..limit] && page.nextCursor == Some(window[limit].id);
      WindowTiles(owned, EffectiveCursor(q), limit);
      var next := BookingsQuery(q.limit, page.nextCursor, None);
      assert window[limit].id != "";
      assert EffectiveCursor(next) == page.nextCursor;
      PrefixAndSuffix(window, limit);
    }
  }

  /** A sequence is its prefix followed by its suffix. */
  lemma PrefixAndSuffix<T>(s: seq<T>, k: nat)
    requires k <= |s|
    ensures s == s[..k] + s[k..]
  {
  }

  // ---------------------------------------------------------------------------
  // Visibility and soft deletion
  // ---------------------------------------------------------------------------

  /** Deleting twice fails: the archived row is no longer found. */
  lemma SecondDeleteNotFound(properties: PropertyStore, user: Uid, uid: Uid)
    requires DeleteProperty(properties, user, uid).Ok?
    ensures var after := DeleteProperty(properties, user, uid).value.properties;
            && uid in after && after[uid].archived
            && DeleteProperty(after, user, uid) == Err(NotFound)
            && ToggleVisibility(after, user, uid) == Err(NotFound)
  {
  }

  /** A deleted property can no longer be duplicated. */
  lemma DeletedNotDuplicated(properties: PropertyStore, user: Uid, uid: Uid, newId: Uid)
    requires DeleteProperty(properties, user, uid).Ok?
    requires newId !in properties
    ensures Duplicate(DeleteProperty(properties, user, uid).value.properties, user, uid, newId) == Err(NotFound)
  {
  }

  /**
   * Toggling twice gives back the original visibility (a NULL column reads as
   * hidden), reports opposite values, and changes no other column.
   */
  lemma ToggleTwiceRestores(properties: PropertyStore, user: Uid, uid: Uid)
    requires ToggleVisibility(properties, user, uid).Ok?
    ensures var first := ToggleVisibility(properties, user, uid).value;
            var second := ToggleVisibility(first.properties, user, uid);
            && second.Ok?
            && second.value.value == !first.value
            && second.value.properties[uid].activeForListing.GetOr(false) == properties[uid].activeForListing.GetOr(false)
            && second.value.properties[uid] == properties[uid].(activeForListing := second.value.properties[uid].activeForListing)
  {
  }

  /** A hidden property becomes visible and is added to the search index rather than removed. */
  lemma ToggleHiddenIndexes(properties: PropertyStore, user: Uid, uid: Uid)
    requires FindProperty(properties, uid, user).Some?
    requires properties[uid].activeForListing == Some(false)
    ensures var r := ToggleVisibility(properties, user, uid);
            && r.Ok? && r.value.value
            && r.value.properties[uid].activeForListing == Some(true)
            && r.value.effects[0] == IndexAdd(properties[uid])
  {
  }

  // ---------------------------------------------------------------------------
  // The displayed room count stays derived from the rooms
  // ---------------------------------------------------------------------------

  /** The displayed room count of a row agrees with its room list. */
  predicate RoomCountDerived(p: Property) {
    p.noOfRooms == |CountedPositions(p.rooms)|
  }

  predicate AllRoomCountsDerived(properties: PropertyStore) {
    forall k :: k in properties ==> RoomCountDerived(properties[k])
  }

  /** Re-creating rooms by type keeps the count. */
  lemma {:induction false} CopyRoomsKeepsCount(rooms: seq<Room>)
    ensures CountedPositions(CopyRooms(rooms)) == CountedPositions(rooms)
  {
    var c := CopyRooms(rooms);
    forall i | 0 <= i < |rooms| ensures c[i].kind == rooms[i].kind {
    }
  }

  /** One call of any published-property mutation. */
  datatype PropertyCall =
    | Toggle(toggleUid: Uid)
    | Delete(deleteUid: Uid)
    | Copy(copyUid: Uid, newId: Uid)
    | Save1(e1: Edit1)
    | Save2(e2: Edit2)
    | Save4(e4: Edit4)
    | Save5(e5: Edit5)
    | Save6(e6: Edit6)
    | Save7(e7: Edit7)
    | Save8(e8: Edit8)

  /** The property table after a call; a failed call, or a copy onto a taken id, changes nothing. */
  function ApplyCall(properties: PropertyStore, municipalities: set<Uid>, user: Uid, call: PropertyCall)
    : PropertyStore
  {
    match call
    case Toggle(uid) => TableAfter(ToggleVisibility(properties, user, uid), properties)
    case Delete(uid) => TableAfter(DeleteProperty(properties, user, uid), properties)
    case Copy(uid, newId) =>
      if newId in properties then properties else TableAfter(Duplicate(properties, user, uid, newId), properties)
    case Save1(e) => TableAfter(SavePropertyStep1(properties, user, e), properties)
    case Save2(e) => TableAfter(SavePropertyStep2(properties, municipalities, user, e), properties)
    case Save4(e) => TableAfter(SavePropertyStep4(properties, user, e), properties)
    case Save5(e) => TableAfter(SavePropertyStep5(properties, user, e), properties)
    case Save6(e) => TableAfter(SavePropertyStep6(properties, user, e), properties)
    case Save7(e) => TableAfter(SavePropertyStep7(properties, user, e), properties)
    case Save8(e) => TableAfter(SavePropertyStep8(properties, user, e, (id: Uid) => id), properties)
  }

  function TableAfter<T>(r: Result<Done<T>, ErrorCode>, properties: PropertyStore): PropertyStore {
    match r
    case Ok(d) => d.properties
    case Err(_) => properties
  }

  function ReplayCalls(properties: PropertyStore, municipalities: set<Uid>, calls: seq<(Uid, PropertyCall)>)
    : PropertyStore
    decreases |calls|
  {
    if |calls| == 0 then properties
    else ReplayCalls(ApplyCall(properties, municipalities, calls[0].0, calls[0].1), municipalities, calls[1..])
  }

  /** Every operation keeps each row's room count derived from its rooms. */
  lemma CallKeepsRoomCounts(properties: PropertyStore, municipalities: set<Uid>, user: Uid, call: PropertyCall)
    requires AllRoomCountsDerived(properties)
    ensures AllRoomCountsDerived(ApplyCall(properties, municipalities, user, call))
  {
    match call
    case Toggle(uid) => ToggleKeepsRoomCounts(properties, user, uid);
    case Delete(uid) => DeleteKeepsRoomCounts(properties, user, uid);
    case Copy(uid, newId) => if newId !in properties { CopyKeepsRoomCounts(properties, user, uid, newId); }
    case Save1(e) => Step1KeepsRoomCounts(properties, user, e);
    case Save2(e) => Step2KeepsRoomCounts(properties, municipalities, user, e);
    case Save4(e) => Step4KeepsRoomCounts(properties, user, e);
    case Save5(e) => Step5KeepsRoomCounts(properties, user, e);
    case Save6(e) => Step6KeepsRoomCounts(properties, user, e);
    case Save7(e) => Step7KeepsRoomCounts(properties, user, e);
    case Save8(e) => Step8KeepsRoomCounts(properties, user, e);
  }

  lemma ToggleKeepsRoomCounts(properties: PropertyStore, user: Uid, uid: Uid)
    requires AllRoomCountsDerived(properties)
    ensures AllRoomCountsDerived(TableAfter(ToggleVisibility(properties, user, uid), properties))
  {
  }

  lemma DeleteKeepsRoomCounts(properties: PropertyStore, user: Uid, uid: Uid)
    requires AllRoomCountsDerived(properties)
    ensures AllRoomCountsDerived(TableAfter(DeleteProperty(properties, user, uid), properties))
  {
  }

  lemma CopyKeepsRoomCounts(properties: PropertyStore, user: Uid, uid: Uid, newId: Uid)
    requires AllRoomCountsDerived(properties)
    requires newId !in properties
    ensures AllRoomCountsDerived(TableAfter(Duplicate(properties, user, uid, newId), properties))
  {
    if FindProperty(properties, uid, user).Some? {
      CopyRoomsKeepsCount(properties[uid].rooms);
    }
  }

  lemma Step1KeepsRoomCounts(properties: PropertyStore, user: Uid, e: Edit1)
    requires AllRoomCountsDerived(properties)
    ensures AllRoomCountsDerived(TableAfter(SavePropertyStep1(properties, user, e), properties))
  {
  }

  lemma Step2KeepsRoomCounts(properties: PropertyStore, municipalities: set<Uid>, user: Uid, e: Edit2)
    requires AllRoomCountsDerived(properties)
    ensures AllRoomCountsDerived(TableAfter(SavePropertyStep2(properties, municipalities, user, e), properties))
  {
  }

  lemma Step4KeepsRoomCounts(properties: PropertyStore, user: Uid, e: Edit4)
    requires AllRoomCountsDerived(properties)
    ensures AllRoomCountsDerived(TableAfter(SavePropertyStep4(properties, user, e), properties))
  {
  }

  lemma Step5KeepsRoomCounts(properties: PropertyStore, user: Uid, e: Edit5)
    requires AllRoomCountsDerived(properties)
    ensures AllRoomCountsDerived(TableAfter(SavePropertyStep5(properties, user, e), properties))
  {
  }

  lemma Step6KeepsRoomCounts(properties: PropertyStore, user: Uid, e: Edit6)
    requires AllRoomCountsDerived(properties)
    ensures AllRoomCountsDerived(TableAfter(SavePropertyStep6(properties, user, e), properties))
  {
  }

  lemma Step7KeepsRoomCounts(properties: PropertyStore, user: Uid, e: Edit7)
    requires AllRoomCountsDerived(properties)
    ensures AllRoomCountsDerived(TableAfter(SavePropertyStep7(properties, user, e), properties))
  {
  }

  lemma Step8KeepsRoomCounts(properties: PropertyStore, user: Uid, e: Edit8)
    requires AllRoomCountsDerived(properties)
    ensures AllRoomCountsDerived(TableAfter(SavePropertyStep8(properties, user, e, (id: Uid) => id), properties))
  {
  }

  /** Over any sequence of calls, by any users, every row's room count stays derived from its rooms. */
  lemma {:induction false} RoomCountsStayDerived(
    properties: PropertyStore, municipalities: set<Uid>, calls: seq<(Uid, PropertyCall)>)
    requires AllRoomCountsDerived(properties)
    ensures AllRoomCountsDerived(ReplayCalls(properties, municipalities, calls))
    decreases |calls|
  {
    if |calls| > 0 {
      CallKeepsRoomCounts(properties, municipalities, calls[0].0, calls[0].1);
      RoomCountsStayDerived(ApplyCall(properties, municipalities, calls[0].0, calls[0].1), municipalities, calls[1..]);
    }
  }

  // ---------------------------------------------------------------------------
  // Amenities and rent type
  // ---------------------------------------------------------------------------

  /** Amenities are kept only on short-term rentals. */
  predicate AmenitiesOnlyShortTerm(p: Property) {
    !IsShortTerm(p.rentType) ==> p.amenities == []
  }

  /** Saving the amenity form always leaves the row consistent with its rent type. */
  lemma AmenityFormKeepsRule(properties: PropertyStore, user: Uid, e: Edit6)
    requires SavePropertyStep6(properties, user, e).Ok?
    ensures AmenitiesOnlyShortTerm(SavePropertyStep6(properties, user, e).value.properties[e.uid])
  {
  }

  /** A duplicate is consistent with its rent type whatever the original was. */
  lemma DuplicateKeepsRule(properties: PropertyStore, user: Uid, uid: Uid, newId: Uid)
    requires newId !in properties
    requires Duplicate(properties, user, uid, newId).Ok?
    ensures AmenitiesOnlyShortTerm(Duplicate(properties, user, uid, newId).value.properties[newId])
  {
  }

  /**
   * Changing the rent type in the first form does not clear the amenities:
   * a short-term rental with an amenity, switched to a long-term rental,
   * keeps its amenity until the amenity form is saved again.
   */
  lemma RentTypeEditKeepsAmenities(p: Property, user: Uid)
    requires p.userId == user && !p.archived
    requires p.rentType == Some(ShortTerm) && |p.amenities| == 1
    ensures var r := SavePropertyStep1(map[p.id := p], user, Edit1(p.id, 20, Location));
            && r.Ok?
            && !AmenitiesOnlyShortTerm(r.value.properties[p.id])
  {
  }
}
