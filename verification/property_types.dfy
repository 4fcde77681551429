/**
 * The records both owner routers share: rent and room types, rooms,
 * amenities, the published property row and the listing row, together with
 * the two derivations both routers repeat: the displayed room count and the
 * normalisation of the amenity form input.
 */
module PropertyTypes {
  import opened Results

  /** Record identifiers (UUID strings). */
  type Uid = string

  /** A GeoJSON value, kept opaque. */
  type GeoJson = string

  /** A point in time, kept opaque. */
  type Timestamp = int

  datatype RentType = Location | SharedAppartment | ShortTerm

  /**
   * The room types. The three that count towards the displayed total are
   * named; every other member of the enumeration is `OtherRoom`.
   */
  datatype RoomType = Bedroom | LivingRoom | Kitchen | OtherRoom(kind: string)

  datatype Room = Room(kind: RoomType)

  /** The amenity types: `OTHER`, or one of the listed kinds. */
  datatype AmenityType = OtherAmenity | Listed(code: string)

  /** A stored amenity: a custom amenity carries its name, a listed one none. */
  datatype Amenity = Amenity(name: Option<string>, kind: AmenityType)

  /**
   * An amenity as the form sends it: an `OTHER` amenity with its mandatory
   * name, or a listed kind with an optional name.
   */
  datatype AmenityInput = Custom(name: string) | Standard(code: string, givenName: Option<string>) {
    /** The `type` field of the input. */
    function Kind(): AmenityType {
      match this
      case Custom(_) => OtherAmenity
      case Standard(code, _) => Listed(code)
    }
  }

  datatype Image = Image(uri: string, name: string)

  /** The rental terms a listing carries (all columns nullable on a property). */
  datatype Terms = Terms(
    agencyMonthsPaymentAdvance: Option<int>,
    cautionMonthsPaymentAdvance: Option<int>,
    availableFrom: Option<Timestamp>,
    description: Option<string>,
    housingFee: Option<int>,
    housingPeriod: Option<int>)

  /** The terms the last step of either form submits. */
  datatype ListingDetails = ListingDetails(
    agencyMonthsPaymentAdvance: int,
    cautionMonthsPaymentAdvance: int,
    availableFrom: Timestamp,
    description: string,
    housingFee: int,
    housingPeriod: int)

  /** A published property row with its rooms and amenities. */
  datatype Property = Property(
    id: Uid,
    userId: Uid,
    archived: bool,
    activeForListing: Option<bool>,
    noOfRooms: nat,
    surfaceArea: Option<int>,
    rentType: Option<RentType>,
    addressInstructions: Option<string>,
    latitude: Option<real>,
    longitude: Option<real>,
    geoData: Option<GeoJson>,
    localityId: Option<Uid>,
    localityOsmId: Option<string>,
    localityName: Option<string>,
    localityBbox: Option<seq<real>>,
    cityId: Option<Uid>,
    municipalityId: Option<Uid>,
    images: Option<seq<Image>>,
    terms: Terms,
    rooms: seq<Room>,
    amenities: seq<Amenity>)

  /** A listing row: the terms under which a property is offered. */
  datatype Listing = Listing(id: Uid, propertyId: Uid, details: ListingDetails, active: bool)

  predicate IsShortTerm(rentType: Option<RentType>) {
    rentType == Some(ShortTerm)
  }

  // ---------------------------------------------------------------------------
  // Displayed room count
  // ---------------------------------------------------------------------------

  /** The room types counted in the displayed total: bedroom, living room, kitchen. */
  predicate CountedInTotal(kind: RoomType) {
    kind.Bedroom? || kind.LivingRoom? || kind.Kitchen?
  }

  /** The counting loop: how many rooms have a counted type. */
  function CountRooms(rooms: seq<Room>): (n: nat)
    ensures n <= |rooms|
    ensures n == 0 <==> forall i :: 0 <= i < |rooms| ==> !CountedInTotal(rooms[i].kind)
    ensures n == |rooms| <==> forall i :: 0 <= i < |rooms| ==> CountedInTotal(rooms[i].kind)
  {
    if |rooms| == 0 then 0
    else
      var rest := CountRooms(rooms[1..]);
      assert forall i :: 1 <= i < |rooms| ==> rooms[i] == rooms[1..][i - 1];
      (if CountedInTotal(rooms[0].kind) then 1 else 0) + rest
  }

  /** The positions of the counted rooms. */
  function CountedPositions(rooms: seq<Room>): set<int> {
    set i | 0 <= i < |rooms| && CountedInTotal(rooms[i].kind)
  }

  /** The count equals the number of positions holding a counted room. */
  lemma {:induction false} CountRoomsIsCardinality(rooms: seq<Room>)
    ensures CountRooms(rooms) == |CountedPositions(rooms)|
    decreases |rooms|
  {
    if |rooms| > 0 {
      var n := |rooms| - 1;
      var prefix := rooms[..n];
      assert prefix + [rooms[n]] == rooms;
      CountRoomsIsCardinality(prefix);
      CountRoomsAppend(prefix, [rooms[n]]);
      CountRoomsOne(rooms[n]);
      PositionsOfAppended(prefix, rooms[n]);
    }
  }

  /** A single room counts one exactly when its type is counted. */
  lemma CountRoomsOne(r: Room)
    ensures CountRooms([r]) == if CountedInTotal(r.kind) then 1 else 0
  {
    assert [r][1..] == [];
  }

  /** Appending a room adds its position to the counted positions exactly when its type is counted. */
  lemma PositionsOfAppended(prefix: seq<Room>, r: Room)
    ensures |CountedPositions(prefix + [r])|
            == |CountedPositions(prefix)| + if CountedInTotal(r.kind) then 1 else 0
  {
    var rooms := prefix + [r];
    var n := |prefix|;
    var last: set<int> := if CountedInTotal(r.kind) then {n} else {};
    assert CountedPositions(rooms) == CountedPositions(prefix) + last by {
      forall i | i in CountedPositions(rooms) && i < n ensures i in CountedPositions(prefix) {
        assert prefix[i] == rooms[i];
      }
      forall i | i in CountedPositions(prefix) ensures i in CountedPositions(rooms) {
        assert prefix[i] == rooms[i];
      }
    }
    assert n !in CountedPositions(prefix);
  }

  /** Counting distributes over concatenation of room lists. */
  lemma {:induction false} CountRoomsAppend(a: seq<Room>, b: seq<Room>)
    ensures CountRooms(a + b) == CountRooms(a) + CountRooms(b)
  {
    if |a| > 0 {
      CountRoomsAppend(a[1..], b);
      assert (a + b)[1..] == a[1..] + b;
    } else {
      assert a + b == b;
    }
  }

  // ---------------------------------------------------------------------------
  // Amenity normalisation
  // ---------------------------------------------------------------------------

  /** `isCustomAmenity`: the input is an `OTHER` amenity, and then it carries a name. */
  predicate IsCustomAmenity(a: AmenityInput)
    ensures IsCustomAmenity(a) <==> a.Custom?
  {
    a.Kind() == OtherAmenity
  }

  /**
   * The amenities saved by the amenity step: none unless the rent type is
   * short-term, otherwise one stored amenity per input, in order: a custom
   * amenity keeps its name with type `OTHER`, a listed one keeps its type
   * and loses any name.
   */
  function NormalizeAmenities(rentType: Option<RentType>, inputs: seq<AmenityInput>): (r: seq<Amenity>)
    ensures !IsShortTerm(rentType) ==> r == []
    ensures IsShortTerm(rentType) ==> |r| == |inputs|
    ensures IsShortTerm(rentType) ==> forall i :: 0 <= i < |inputs| ==>
              && (inputs[i].Custom? ==> r[i] == Amenity(Some(inputs[i].name), OtherAmenity))
              && (inputs[i].Standard? ==> r[i] == Amenity(None, Listed(inputs[i].code)))
  {
    if !IsShortTerm(rentType) || |inputs| == 0 then []
    else
      var a := inputs[0];
      var stored := if IsCustomAmenity(a) then Amenity(Some(a.name), OtherAmenity) else Amenity(None, a.Kind());
      var rest := NormalizeAmenities(rentType, inputs[1..]);
      assert forall i :: 1 <= i < |inputs| ==> inputs[i] == inputs[1..][i - 1];
      [stored] + rest
  }

  /** Every stored amenity is custom exactly when it carries a name. */
  lemma NormalizedAmenityNames(rentType: Option<RentType>, inputs: seq<AmenityInput>)
    ensures forall a :: a in NormalizeAmenities(rentType, inputs) ==> (a.kind == OtherAmenity <==> a.name.Some?)
  {
    var r := NormalizeAmenities(rentType, inputs);
    forall a | a in r ensures a.kind == OtherAmenity <==> a.name.Some? {
      var i :| 0 <= i < |r| && r[i] == a;
    }
  }
}
