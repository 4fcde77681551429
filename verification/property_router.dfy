/**
 * The owner's operations on published properties: booking pagination,
 * visibility toggle, soft deletion, duplication, and the per-form edits.
 *
 * The property table is a map from id to row. The search index and the
 * cache are not modelled as state: each handler returns the sequence of
 * side effects it issues on them, in order.
 */
module PropertyRouter {
  import opened Results
  import opened PropertyTypes

  type PropertyStore = map<Uid, Property>

  /** The cache entries the handlers invalidate. */
  datatype CacheKey = SingleProperty(id: Uid) | AllMunicipalities

  /** A side effect on the search index or the cache. */
  datatype Effect =
    | IndexAdd(indexed: Property)
    | IndexRemove(removedId: Uid)
    | Reindex(snapshot: Property)
    | Invalidate(key: CacheKey)

  /** What a mutation returns: the property table after it, its side effects, and its value. */
  datatype Done<T> = Done(properties: PropertyStore, effects: seq<Effect>, value: T)

  /** The two cache invalidations every edit ends with. */
  function InvalidateBoth(uid: Uid): seq<Effect> {
    [Invalidate(SingleProperty(uid)), Invalidate(AllMunicipalities)]
  }

  /** The lookup every handler starts with: the caller's property with this id, unless archived. */
  function FindProperty(properties: PropertyStore, uid: Uid, user: Uid): (r: Option<Property>)
    ensures r.Some? <==> uid in properties && properties[uid].userId == user && !properties[uid].archived
    ensures r.Some? ==> r.value == properties[uid]
  {
    if uid in properties && properties[uid].userId == user && !properties[uid].archived
    then Some(properties[uid]) else None
  }

  // ---------------------------------------------------------------------------
  // getBookings
  // ---------------------------------------------------------------------------

  datatype Booking = Booking(id: Uid, propertyId: Uid, dateOfReservation: Timestamp)

  /** The query input; every field may be absent. */
  datatype BookingsQuery = BookingsQuery(limit: Option<int>, cursor: Option<string>, initialCursor: Option<string>)

  datatype BookingsPage = BookingsPage(bookings: seq<Booking>, nextCursor: Option<Uid>)

  const DefaultLimit := 8

  /** The `where` filter of the bookings query: the booking's property is the caller's and not archived. */
  predicate OwnedBy(properties: PropertyStore, b: Booking, user: Uid) {
    b.propertyId in properties && properties[b.propertyId].userId == user && !properties[b.propertyId].archived
  }

  /** Bookings of the caller's non-archived properties, in the table's order. */
  function OwnedBookings(properties: PropertyStore, table: seq<Booking>, user: Uid): (r: seq<Booking>)
    ensures forall b :: b in r <==> b in table && OwnedBy(properties, b, user)
    ensures |r| <= |table|
  {
    if |table| == 0 then []
    else (if OwnedBy(properties, table[0], user) then [table[0]] else []) + OwnedBookings(properties, table[1..], user)
  }

  /** A single booking is kept exactly when it passes the filter. */
  lemma OwnedBookingsOne(properties: PropertyStore, b: Booking, user: Uid)
    ensures OwnedBookings(properties, [b], user) == if OwnedBy(properties, b, user) then [b] else []
  {
    assert [b][1..] == [];
  }

  /**
   * Filtering distributes over concatenation: the kept bookings keep the
   * table's order and each appears as often as in the table.
   */
  lemma {:induction false} OwnedBookingsAppend(properties: PropertyStore, t1: seq<Booking>, t2: seq<Booking>, user: Uid)
    ensures OwnedBookings(properties, t1 + t2, user) == OwnedBookings(properties, t1, user) + OwnedBookings(properties, t2, user)
    decreases |t1|
  {
    if |t1| == 0 {
      assert t1 + t2 == t2;
    } else {
      var t := t1 + t2;
      var head := if OwnedBy(properties, t1[0], user) then [t1[0]] else [];
      assert t[0] == t1[0] && t[1..] == t1[1..] + t2;
      assert OwnedBookings(properties, t, user) == head + OwnedBookings(properties, t1[1..] + t2, user);
      OwnedBookingsAppend(properties, t1[1..], t2, user);
      assert OwnedBookings(properties, t1, user) == head + OwnedBookings(properties, t1[1..], user);
    }
  }

  /** The rows from the one whose id is the cursor onwards (none if no row has that id). */
  function FromCursor(rows: seq<Booking>, cursor: Uid): (r: seq<Booking>)
    ensures |r| <= |rows|
    ensures r == [] || r == rows[|rows| - |r|..]
    ensures r != [] ==> r[0].id == cursor
    ensures r == [] <==> forall i :: 0 <= i < |rows| ==> rows[i].id != cursor
    ensures forall i :: 0 <= i < |rows| - |r| ==> rows[i].id != cursor
  {
    if |rows| == 0 then []
    else if rows[0].id == cursor then rows
    else
      var rest := FromCursor(rows[1..], cursor);
      assert rest == [] || rest == rows[|rows| - |rest|..];
      rest
  }

  /** The cursor the query uses: `cursor ?? initialCursor`, ignored when empty. */
  function EffectiveCursor(q: BookingsQuery): (c: Option<string>)
    ensures c.Some? ==> c.value != ""
    ensures q.cursor.Some? && q.cursor.value != "" ==> c == q.cursor
    ensures q.cursor.None? && q.initialCursor.Some? && q.initialCursor.value != "" ==> c == q.initialCursor
    ensures (q.cursor.Some? && q.cursor.value == "") ==> c.None?
    ensures c.Some? ==> c == q.cursor || (q.cursor.None? && c == q.initialCursor)
  {
    var c := if q.cursor.Some? then q.cursor else q.initialCursor;
    if c.Some? && c.value != "" then c else None
  }

  /** The rows the query reads from: the owned bookings, from the cursor row if there is one. */
  function Window(rows: seq<Booking>, cursor: Option<string>): seq<Booking> {
    if cursor.Some? then FromCursor(rows, cursor.value) else rows
  }

  /**
   * `getBookings`: read `limit + 1` rows; when more than `limit` come back,
   * the last one is dropped from the page and its id becomes the next cursor.
   * A limit outside 1..100 is refused by the input schema.
   */
  function GetBookings(properties: PropertyStore, table: seq<Booking>, user: Uid, q: BookingsQuery)
    : (r: Result<BookingsPage, ErrorCode>)
    ensures r.Err? <==> q.limit.Some? && !(1 <= q.limit.value <= 100)
    ensures r.Err? ==> r.error == BadRequest
    ensures r.Ok? ==>
              var limit := q.limit.GetOr(DefaultLimit);
              var window := Window(OwnedBookings(properties, table, user), EffectiveCursor(q));
              && |r.value.bookings| <= limit
              && |r.value.bookings| <= |window|
              && r.value.bookings == window[..|r.value.bookings|]
              && (r.value.nextCursor.Some? <==> |window| > limit)
              && (r.value.nextCursor.Some? ==> |r.value.bookings| == limit
                                                && r.value.nextCursor.value == window[limit].id)
              && (r.value.nextCursor.None? ==> r.value.bookings == window)
  {
    if q.limit.Some? && !(1 <= q.limit.value <= 100) then Err(BadRequest)
    else
      var limit := q.limit.GetOr(DefaultLimit);
      var window := Window(OwnedBookings(properties, table, user), EffectiveCursor(q));
      var fetched := if |window| <= limit + 1 then window else window[..limit + 1];
      if |fetched| > limit then Ok(BookingsPage(fetched[..limit], Some(fetched[limit].id)))
      else Ok(BookingsPage(fetched, None))
  }

  // ---------------------------------------------------------------------------
  // toggleVisibility, deleteProperty, duplicate
  // ---------------------------------------------------------------------------

  /** JavaScript's `!` on a nullable boolean column. */
  function Not(b: Option<bool>): bool {
    !b.GetOr(false)
  }

  /**
   * `toggleVisibility`: negate `activeForListing`; add the property to the
   * search index when it becomes visible, remove it when it becomes hidden.
   */
  function ToggleVisibility(properties: PropertyStore, user: Uid, uid: Uid): (r: Result<Done<bool>, ErrorCode>)
    ensures r.Err? <==> FindProperty(properties, uid, user).None?
    ensures r.Err? ==> r.error == NotFound
    ensures r.Ok? ==>
              var before := properties[uid];
              var isActive := r.value.value;
              && (isActive <==> !(before.activeForListing == Some(true)))
              && r.value.properties == properties[uid := before.(activeForListing := Some(isActive))]
              && |r.value.effects| == 3
              && (isActive ==> r.value.effects[0] == IndexAdd(before))
              && (!isActive ==> r.value.effects[0] == IndexRemove(uid))
              && r.value.effects[1..] == InvalidateBoth(uid)
  {
    match FindProperty(properties, uid, user)
    case None => Err(NotFound)
    case Some(p) =>
      var newVisibility := Not(p.activeForListing);
      var indexEffect := if !newVisibility then IndexRemove(uid) else IndexAdd(p);
      Ok(Done(properties[uid := p.(activeForListing := Some(newVisibility))],
              [indexEffect] + InvalidateBoth(uid), Not(p.activeForListing)))
  }

  /** `deleteProperty`: a soft delete that archives the row and drops it from the index. */
  function DeleteProperty(properties: PropertyStore, user: Uid, uid: Uid): (r: Result<Done<()>, ErrorCode>)
    ensures r.Err? <==> FindProperty(properties, uid, user).None?
    ensures r.Err? ==> r.error == NotFound
    ensures r.Ok? ==> r.value.properties == properties[uid := properties[uid].(archived := true)]
    ensures r.Ok? ==> r.value.effects == [IndexRemove(uid)] + InvalidateBoth(uid)
  {
    match FindProperty(properties, uid, user)
    case None => Err(NotFound)
    case Some(p) =>
      Ok(Done(properties[uid := p.(archived := true)], [IndexRemove(uid)] + InvalidateBoth(uid), ()))
  }

  /** Duplicated terms: all copied, except that only a short-term rental keeps its period. */
  function DuplicateTerms(t: Terms, rentType: Option<RentType>): (r: Terms)
    ensures r.housingPeriod == if IsShortTerm(rentType) then t.housingPeriod else Some(30)
    ensures r == t.(housingPeriod := r.housingPeriod)
  {
    t.(housingPeriod := if rentType == Some(ShortTerm) then t.housingPeriod else Some(30))
  }

  /** The rows of a room list re-created by type. */
  function CopyRooms(rooms: seq<Room>): (r: seq<Room>)
    ensures |r| == |rooms|
    ensures forall i :: 0 <= i < |rooms| ==> r[i].kind == rooms[i].kind
  {
    seq(|rooms|, i requires 0 <= i < |rooms| => Room(rooms[i].kind))
  }

  /** The copy `duplicate` creates: same data, new id, active and not archived. */
  function DuplicateOf(p: Property, user: Uid, newId: Uid): (q: Property)
    ensures q.id == newId && q.userId == user
    ensures !q.archived && q.activeForListing == Some(true)
    ensures q.noOfRooms == p.noOfRooms
    ensures |q.rooms| == |p.rooms| && forall i :: 0 <= i < |p.rooms| ==> q.rooms[i].kind == p.rooms[i].kind
    ensures q.amenities == if IsShortTerm(p.rentType) then p.amenities else []
    ensures q.terms.housingPeriod == if IsShortTerm(p.rentType) then p.terms.housingPeriod else Some(30)
    ensures q.localityId.None?
    ensures q == p.(id := newId, userId := user, archived := false, activeForListing := Some(true),
                    localityId := None, terms := DuplicateTerms(p.terms, p.rentType),
                    rooms := CopyRooms(p.rooms), amenities := q.amenities)
  {
    Property(
      id := newId, userId := user, archived := false, activeForListing := Some(true),
      noOfRooms := p.noOfRooms, surfaceArea := p.surfaceArea, rentType := p.rentType,
      addressInstructions := p.addressInstructions, latitude := p.latitude, longitude := p.longitude,
      geoData := p.geoData, localityId := None, localityOsmId := p.localityOsmId,
      localityName := p.localityName, localityBbox := p.localityBbox, cityId := p.cityId,
      municipalityId := p.municipalityId, images := p.images,
      terms := DuplicateTerms(p.terms, p.rentType), rooms := CopyRooms(p.rooms),
      amenities := if p.rentType == Some(ShortTerm)
                   then seq(|p.amenities|, i requires 0 <= i < |p.amenities| => Amenity(p.amenities[i].name, p.amenities[i].kind))
                   else [])
  }

  /**
   * `duplicate`: create a copy of the caller's property under the id the
   * database generates, and index the copy.
   */
  function Duplicate(properties: PropertyStore, user: Uid, uid: Uid, newId: Uid): (r: Result<Done<bool>, ErrorCode>)
    requires newId !in properties
    ensures r.Err? <==> FindProperty(properties, uid, user).None?
    ensures r.Err? ==> r.error == NotFound
    ensures r.Ok? ==> r.value.properties.Keys == properties.Keys + {newId}
    ensures r.Ok? ==> forall k :: k in properties ==> r.value.properties[k] == properties[k]
    ensures r.Ok? ==> r.value.properties[newId] == DuplicateOf(properties[uid], user, newId)
    ensures r.Ok? ==> r.value.effects == [IndexAdd(r.value.properties[newId])]
  {
    match FindProperty(properties, uid, user)
    case None => Err(NotFound)
    case Some(p) =>
      var copy := DuplicateOf(p, user, newId);
      Ok(Done(properties[newId := copy], [IndexAdd(copy)], true))
  }

  // ---------------------------------------------------------------------------
  // The per-form edits of a published property
  // ---------------------------------------------------------------------------

  datatype Edit1 = Edit1(uid: Uid, surfaceArea: int, rentType: RentType)

  datatype Edit2 = Edit2(
    uid: Uid, localityOsmId: string, boundingBox: seq<real>, cityUid: Uid, municipalityUid: Uid,
    longitude: real, latitude: real, geoJson: GeoJson, localityName: string)

  datatype Edit4 = Edit4(uid: Uid, addressInstructions: string)

  datatype Edit5 = Edit5(uid: Uid, additionalRooms: seq<Room>)

  datatype Edit6 = Edit6(uid: Uid, amenities: seq<AmenityInput>)

  datatype Edit7 = Edit7(uid: Uid, images: seq<Image>)

  datatype Edit8 = Edit8(uid: Uid, details: ListingDetails)

  /**
   * The common tail of every edit: the row is rewritten, the index is
   * refreshed with the row as it was read before the write, and both cache
   * entries are invalidated.
   */
  predicate EditedOnly<T>(properties: PropertyStore, uid: Uid, d: Done<T>, written: Property) {
    && uid in properties
    && d.properties == properties[uid := written]
    && d.effects == [Reindex(properties[uid])] + InvalidateBoth(uid)
  }

  function Edited<T>(properties: PropertyStore, uid: Uid, written: Property, value: T): (d: Done<T>)
    requires uid in properties
    ensures EditedOnly(properties, uid, d, written)
  {
    Done(properties[uid := written], [Reindex(properties[uid])] + InvalidateBoth(uid), value)
  }

  /** `savePropertyStep1`: surface area and rent type. */
  function SavePropertyStep1(properties: PropertyStore, user: Uid, input: Edit1): (r: Result<Done<()>, ErrorCode>)
    ensures r.Err? <==> FindProperty(properties, input.uid, user).None?
    ensures r.Err? ==> r.error == NotFound
    ensures r.Ok? ==> EditedOnly(properties, input.uid, r.value,
              properties[input.uid].(surfaceArea := Some(input.surfaceArea), rentType := Some(input.rentType)))
  {
    match FindProperty(properties, input.uid, user)
    case None => Err(NotFound)
    case Some(p) =>
      Ok(Edited(properties, input.uid, p.(surfaceArea := Some(input.surfaceArea), rentType := Some(input.rentType)), ()))
  }

  /** `savePropertyStep2`: the address; the municipality must exist. */
  function SavePropertyStep2(properties: PropertyStore, municipalities: set<Uid>, user: Uid, input: Edit2)
    : (r: Result<Done<()>, ErrorCode>)
    ensures FindProperty(properties, input.uid, user).None? ==> r == Err(NotFound)
    ensures FindProperty(properties, input.uid, user).Some? && input.municipalityUid !in municipalities
            ==> r == Err(BadRequest)
    ensures r.Ok? <==> FindProperty(properties, input.uid, user).Some? && input.municipalityUid in municipalities
    ensures r.Ok? ==> EditedOnly(properties, input.uid, r.value,
              properties[input.uid].(
                localityOsmId := Some(input.localityOsmId), localityBbox := Some(input.boundingBox),
                cityId := Some(input.cityUid), municipalityId := Some(input.municipalityUid),
                longitude := Some(input.longitude), latitude := Some(input.latitude),
                geoData := Some(input.geoJson), localityName := Some(input.localityName)))
  {
    match FindProperty(properties, input.uid, user)
    case None => Err(NotFound)
    case Some(p) =>
      if input.municipalityUid !in municipalities then Err(BadRequest)
      else
        Ok(Edited(properties, input.uid, p.(
          localityOsmId := Some(input.localityOsmId), localityBbox := Some(input.boundingBox),
          cityId := Some(input.cityUid), municipalityId := Some(input.municipalityUid),
          longitude := Some(input.longitude), latitude := Some(input.latitude),
          geoData := Some(input.geoJson), localityName := Some(input.localityName)), ()))
  }

  /** `savePropertyStep4`: the address instructions. */
  function SavePropertyStep4(properties: PropertyStore, user: Uid, input: Edit4): (r: Result<Done<()>, ErrorCode>)
    ensures r.Err? <==> FindProperty(properties, input.uid, user).None?
    ensures r.Err? ==> r.error == NotFound
    ensures r.Ok? ==> EditedOnly(properties, input.uid, r.value,
              properties[input.uid].(addressInstructions := Some(input.addressInstructions)))
  {
    match FindProperty(properties, input.uid, user)
    case None => Err(NotFound)
    case Some(p) =>
      Ok(Edited(properties, input.uid, p.(addressInstructions := Some(input.addressInstructions)), ()))
  }

  /**
   * `savePropertyStep5`: the room list, replaced wholesale, with the room
   * count recomputed over the new list; returns the rent type.
   */
  function SavePropertyStep5(properties: PropertyStore, user: Uid, input: Edit5)
    : (r: Result<Done<Option<RentType>>, ErrorCode>)
    ensures r.Err? <==> FindProperty(properties, input.uid, user).None?
    ensures r.Err? ==> r.error == NotFound
    ensures r.Ok? ==> input.uid in r.value.properties
    ensures r.Ok? ==>
              var written := r.value.properties[input.uid];
              && EditedOnly(properties, input.uid, r.value, written)
              && written.rooms == input.additionalRooms
              && written.noOfRooms == |CountedPositions(input.additionalRooms)|
              && written == properties[input.uid].(rooms := written.rooms, noOfRooms := written.noOfRooms)
              && r.value.value == properties[input.uid].rentType
  {
    match FindProperty(properties, input.uid, user)
    case None => Err(NotFound)
    case Some(p) =>
      CountRoomsIsCardinality(input.additionalRooms);
      var updated := p.(noOfRooms := CountRooms(input.additionalRooms), rooms := input.additionalRooms);
      Ok(Edited(properties, input.uid, updated, updated.rentType))
  }

  /** `savePropertyStep6`: the amenities, replaced wholesale and normalised against the rent type. */
  function SavePropertyStep6(properties: PropertyStore, user: Uid, input: Edit6): (r: Result<Done<()>, ErrorCode>)
    ensures r.Err? <==> FindProperty(properties, input.uid, user).None?
    ensures r.Err? ==> r.error == NotFound
    ensures r.Ok? ==> EditedOnly(properties, input.uid, r.value,
              properties[input.uid].(amenities := NormalizeAmenities(properties[input.uid].rentType, input.amenities)))
  {
    match FindProperty(properties, input.uid, user)
    case None => Err(NotFound)
    case Some(p) =>
      Ok(Edited(properties, input.uid, p.(amenities := NormalizeAmenities(p.rentType, input.amenities)), ()))
  }

  /** `savePropertyStep7`: the images. */
  function SavePropertyStep7(properties: PropertyStore, user: Uid, input: Edit7): (r: Result<Done<()>, ErrorCode>)
    ensures r.Err? <==> FindProperty(properties, input.uid, user).None?
    ensures r.Err? ==> r.error == NotFound
    ensures r.Ok? ==> EditedOnly(properties, input.uid, r.value,
              properties[input.uid].(images := Some(input.images)))
  {
    match FindProperty(properties, input.uid, user)
    case None => Err(NotFound)
    case Some(p) =>
      Ok(Edited(properties, input.uid, p.(images := Some(input.images)), ()))
  }

  /**
   * `savePropertyStep8`: the listing terms; the housing period is forced to
   * 30 unless the stored rent type is short-term. Returns the short form of
   * the property id, computed by `shorten`.
   */
  function SavePropertyStep8(properties: PropertyStore, user: Uid, input: Edit8, shorten: Uid -> string)
    : (r: Result<Done<string>, ErrorCode>)
    ensures r.Err? <==> FindProperty(properties, input.uid, user).None?
    ensures r.Err? ==> r.error == NotFound
    ensures r.Ok? ==> input.uid in r.value.properties
    ensures r.Ok? ==>
              var p := properties[input.uid];
              var t := r.value.properties[input.uid].terms;
              && EditedOnly(properties, input.uid, r.value, p.(terms := t))
              && t.housingPeriod == Some(if IsShortTerm(p.rentType) then input.details.housingPeriod else 30)
              && t.agencyMonthsPaymentAdvance == Some(input.details.agencyMonthsPaymentAdvance)
              && t.cautionMonthsPaymentAdvance == Some(input.details.cautionMonthsPaymentAdvance)
              && t.availableFrom == Some(input.details.availableFrom)
              && t.description == Some(input.details.description)
              && t.housingFee == Some(input.details.housingFee)
              && r.value.value == shorten(p.id)
  {
    match FindProperty(properties, input.uid, user)
    case None => Err(NotFound)
    case Some(p) =>
      var d := input.details;
      var t := Terms(Some(d.agencyMonthsPaymentAdvance), Some(d.cautionMonthsPaymentAdvance),
                     Some(d.availableFrom), Some(d.description), Some(d.housingFee),
                     Some(if p.rentType == Some(ShortTerm) then d.housingPeriod else 30));
      Ok(Edited(properties, input.uid, p.(terms := t), shorten(p.id)))
  }
}
