/**
 * The owner's draft-listing wizard: a draft row filled in form by form, whose
 * `currentStep` marker moves through a fixed sequence of form steps, and
 * whose last step publishes a property and its listing.
 *
 * The database is a pair of maps from row id to row; every handler returns
 * the rows it writes, or the error it throws.
 */
module DraftRouter {
  import opened Results
  import opened PropertyTypes

  /** The form steps, in the order of the enumeration. */
  datatype FormStep =
    | RentTypeStep
    | AddressStep
    | InstructionsStep
    | RoomsStep
    | AmenitiesStep
    | ImagesStep
    | ListingDetailsStep
    | CompleteStep

  /** The position of a step in the enumeration. */
  function Rank(s: FormStep): nat {
    match s
    case RentTypeStep => 0
    case AddressStep => 1
    case InstructionsStep => 2
    case RoomsStep => 3
    case AmenitiesStep => 4
    case ImagesStep => 5
    case ListingDetailsStep => 6
    case CompleteStep => 7
  }

  /**
   * The wizard's transition table: the step that follows `s` once the form
   * of `s` is saved. Only short-term rentals visit the amenities step.
   */
  function Successor(s: FormStep, rentType: Option<RentType>): (r: FormStep)
    ensures s == CompleteStep ==> r == CompleteStep
    ensures s == RoomsStep && !IsShortTerm(rentType) ==> r == ImagesStep
    ensures s != CompleteStep && !(s == RoomsStep && !IsShortTerm(rentType)) ==> Rank(r) == Rank(s) + 1
  {
    match s
    case RentTypeStep => AddressStep
    case AddressStep => InstructionsStep
    case InstructionsStep => RoomsStep
    case RoomsStep => if IsShortTerm(rentType) then AmenitiesStep else ImagesStep
    case AmenitiesStep => ImagesStep
    case ImagesStep => ListingDetailsStep
    case ListingDetailsStep => CompleteStep
    case CompleteStep => CompleteStep
  }

  /** A successor never comes earlier, and comes strictly later except after completion. */
  lemma SuccessorMovesForward(s: FormStep, rentType: Option<RentType>)
    ensures Rank(Successor(s, rentType)) >= Rank(s)
    ensures s != CompleteStep ==> Rank(Successor(s, rentType)) > Rank(s)
  {
  }

  /** A draft row: the listing as filled in so far. */
  datatype Draft = Draft(
    id: Uid,
    userId: Uid,
    currentStep: FormStep,
    surfaceArea: Option<int>,
    rentType: Option<RentType>,
    localityName: Option<string>,
    municipalityName: Option<string>,
    cityName: Option<string>,
    localityId: Option<Uid>,
    cityId: Option<Uid>,
    municipalityId: Option<Uid>,
    longitude: Option<real>,
    latitude: Option<real>,
    geoData: Option<GeoJson>,
    addressInstructions: Option<string>,
    rooms: seq<Room>,
    amenities: seq<Amenity>,
    images: Option<seq<Image>>)

  type DraftStore = map<Uid, Draft>

  /** A locality row with the names of its municipality and city. */
  datatype Locality = Locality(name: string, municipalityName: string, cityName: string)

  /** What a step handler returns: the draft table after the write, and the written row. */
  datatype Saved = Saved(drafts: DraftStore, draft: Draft)

  // ---------------------------------------------------------------------------
  // newDraft and the lookup guard
  // ---------------------------------------------------------------------------

  /**
   * `newDraft`: a fresh draft owned by the caller, at the first step, with a
   * single bedroom. `freshId` is the id the database generates.
   */
  function NewDraft(drafts: DraftStore, user: Uid, freshId: Uid): (r: (DraftStore, Uid))
    requires freshId !in drafts
    ensures r.1 == freshId
    ensures r.0.Keys == drafts.Keys + {freshId}
    ensures forall k :: k in drafts ==> r.0[k] == drafts[k]
    ensures r.0[freshId].id == freshId && r.0[freshId].userId == user
    ensures r.0[freshId].rooms == [Room(Bedroom)]
    ensures r.0[freshId].currentStep == RentTypeStep
    ensures r.0[freshId].amenities == []
  {
    var d := Draft(freshId, user, RentTypeStep, None, None, None, None, None, None, None, None,
                   None, None, None, None, [Room(Bedroom)], [], None);
    (drafts[freshId := d], freshId)
  }

  /** The lookup every step starts with: the draft with this id, if the caller owns it. */
  function FindDraft(drafts: DraftStore, uid: Uid, user: Uid): (r: Option<Draft>)
    ensures r.Some? <==> uid in drafts && drafts[uid].userId == user
    ensures r.Some? ==> r.value == drafts[uid]
  {
    if uid in drafts && drafts[uid].userId == user then Some(drafts[uid]) else None
  }

  /** The marker update every step handler writes: advance only from its own step. */
  function AdvanceFrom(current: FormStep, expected: FormStep, next: FormStep): FormStep {
    if current == expected then next else current
  }

  /**
   * The marker rule stated through the transition table: from the step the
   * form belongs to, move to its successor; from any other step, stay.
   */
  predicate MarkerRule(before: FormStep, after: FormStep, formStep: FormStep, rentType: Option<RentType>) {
    after == if before == formStep then Successor(before, rentType) else before
  }

  /** A successful save writes one row, under its own id, for the same owner. */
  predicate WritesOnly(drafts: DraftStore, uid: Uid, saved: Saved) {
    && uid in drafts
    && saved.drafts == drafts[uid := saved.draft]
    && saved.draft.id == drafts[uid].id
    && saved.draft.userId == drafts[uid].userId
  }

  // ---------------------------------------------------------------------------
  // The step handlers
  // ---------------------------------------------------------------------------

  datatype Step1Input = Step1Input(uid: Uid, surfaceArea: int, rentType: RentType)

  datatype Step2Input = Step2Input(
    uid: Uid, localityUid: Uid, cityUid: Uid, municipalityUid: Uid,
    longitude: real, latitude: real, geoJson: GeoJson)

  datatype Step4Input = Step4Input(uid: Uid, addressInstructions: string)

  datatype Step5Input = Step5Input(uid: Uid, additionalRooms: seq<Room>)

  datatype Step6Input = Step6Input(uid: Uid, amenities: seq<AmenityInput>)

  datatype Step7Input = Step7Input(uid: Uid, images: seq<Image>)

  datatype Step8Input = Step8Input(uid: Uid, details: ListingDetails)

  /** `saveDraftStep1`: surface area and rent type. */
  function SaveDraftStep1(drafts: DraftStore, user: Uid, input: Step1Input): (r: Result<Saved, ErrorCode>)
    ensures r.Err? <==> FindDraft(drafts, input.uid, user).None?
    ensures r.Err? ==> r.error == NotFound
    ensures r.Ok? ==> WritesOnly(drafts, input.uid, r.value)
    ensures r.Ok? ==> MarkerRule(drafts[input.uid].currentStep, r.value.draft.currentStep, RentTypeStep, None)
    ensures r.Ok? ==> r.value.draft == drafts[input.uid].(
              surfaceArea := Some(input.surfaceArea), rentType := Some(input.rentType),
              currentStep := r.value.draft.currentStep)
  {
    match FindDraft(drafts, input.uid, user)
    case None => Err(NotFound)
    case Some(d) =>
      var d' := d.(surfaceArea := Some(input.surfaceArea), rentType := Some(input.rentType),
                   currentStep := AdvanceFrom(d.currentStep, RentTypeStep, AddressStep));
      Ok(Saved(drafts[input.uid := d'], d'))
  }

  /**
   * `saveDraftStep2`: the address. The locality must exist; the names are
   * copied from the locality row, the ids from the input.
   */
  function SaveDraftStep2(drafts: DraftStore, localities: map<Uid, Locality>, user: Uid, input: Step2Input)
    : (r: Result<Saved, ErrorCode>)
    ensures FindDraft(drafts, input.uid, user).None? ==> r == Err(NotFound)
    ensures FindDraft(drafts, input.uid, user).Some? && input.localityUid !in localities ==> r == Err(BadRequest)
    ensures r.Ok? <==> FindDraft(drafts, input.uid, user).Some? && input.localityUid in localities
    ensures r.Ok? ==> WritesOnly(drafts, input.uid, r.value)
    ensures r.Ok? ==> MarkerRule(drafts[input.uid].currentStep, r.value.draft.currentStep, AddressStep, None)
    ensures r.Ok? ==>
              var loc := localities[input.localityUid];
              r.value.draft == drafts[input.uid].(
                localityName := Some(loc.name), municipalityName := Some(loc.municipalityName),
                cityName := Some(loc.cityName), localityId := Some(input.localityUid),
                cityId := Some(input.cityUid), municipalityId := Some(input.municipalityUid),
                longitude := Some(input.longitude), latitude := Some(input.latitude),
                geoData := Some(input.geoJson), currentStep := r.value.draft.currentStep)
  {
    match FindDraft(drafts, input.uid, user)
    case None => Err(NotFound)
    case Some(d) =>
      if input.localityUid !in localities then Err(BadRequest)
      else
        var loc := localities[input.localityUid];
        var d' := d.(localityName := Some(loc.name), municipalityName := Some(loc.municipalityName),
                     cityName := Some(loc.cityName), localityId := Some(input.localityUid),
                     cityId := Some(input.cityUid), municipalityId := Some(input.municipalityUid),
                     longitude := Some(input.longitude), latitude := Some(input.latitude),
                     geoData := Some(input.geoJson),
                     currentStep := AdvanceFrom(d.currentStep, AddressStep, InstructionsStep));
        Ok(Saved(drafts[input.uid := d'], d'))
  }

  /** `saveDraftStep4`: the address instructions. */
  function SaveDraftStep4(drafts: DraftStore, user: Uid, input: Step4Input): (r: Result<Saved, ErrorCode>)
    ensures r.Err? <==> FindDraft(drafts, input.uid, user).None?
    ensures r.Err? ==> r.error == NotFound
    ensures r.Ok? ==> WritesOnly(drafts, input.uid, r.value)
    ensures r.Ok? ==> MarkerRule(drafts[input.uid].currentStep, r.value.draft.currentStep, InstructionsStep, None)
    ensures r.Ok? ==> r.value.draft == drafts[input.uid].(
              addressInstructions := Some(input.addressInstructions),
              currentStep := r.value.draft.currentStep)
  {
    match FindDraft(drafts, input.uid, user)
    case None => Err(NotFound)
    case Some(d) =>
      var d' := d.(addressInstructions := Some(input.addressInstructions),
                   currentStep := AdvanceFrom(d.currentStep, InstructionsStep, RoomsStep));
      Ok(Saved(drafts[input.uid := d'], d'))
  }

  /**
   * `saveDraftStep5`: the room list, replaced wholesale. From the rooms step
   * a short-term rental moves on to amenities, any other to images.
   */
  function SaveDraftStep5(drafts: DraftStore, user: Uid, input: Step5Input): (r: Result<Saved, ErrorCode>)
    ensures r.Err? <==> FindDraft(drafts, input.uid, user).None?
    ensures r.Err? ==> r.error == NotFound
    ensures r.Ok? ==> WritesOnly(drafts, input.uid, r.value)
    ensures r.Ok? ==> MarkerRule(drafts[input.uid].currentStep, r.value.draft.currentStep,
                                 RoomsStep, drafts[input.uid].rentType)
    ensures r.Ok? ==> r.value.draft == drafts[input.uid].(
              rooms := input.additionalRooms, currentStep := r.value.draft.currentStep)
  {
    match FindDraft(drafts, input.uid, user)
    case None => Err(NotFound)
    case Some(d) =>
      var next := if d.rentType == Some(ShortTerm) then AmenitiesStep else ImagesStep;
      var d' := d.(rooms := input.additionalRooms,
                   currentStep := AdvanceFrom(d.currentStep, RoomsStep, next));
      Ok(Saved(drafts[input.uid := d'], d'))
  }

  /**
   * `saveDraftStep6`: the amenities, normalised against the draft's rent
   * type (none are kept unless it is short-term).
   */
  function SaveDraftStep6(drafts: DraftStore, user: Uid, input: Step6Input): (r: Result<Saved, ErrorCode>)
    ensures r.Err? <==> FindDraft(drafts, input.uid, user).None?
    ensures r.Err? ==> r.error == NotFound
    ensures r.Ok? ==> WritesOnly(drafts, input.uid, r.value)
    ensures r.Ok? ==> MarkerRule(drafts[input.uid].currentStep, r.value.draft.currentStep, AmenitiesStep, None)
    ensures r.Ok? ==> !IsShortTerm(drafts[input.uid].rentType) ==> r.value.draft.amenities == []
    ensures r.Ok? ==> r.value.draft.amenities == NormalizeAmenities(drafts[input.uid].rentType, input.amenities)
    ensures r.Ok? ==> r.value.draft == drafts[input.uid].(
              amenities := r.value.draft.amenities, currentStep := r.value.draft.currentStep)
  {
    match FindDraft(drafts, input.uid, user)
    case None => Err(NotFound)
    case Some(d) =>
      var d' := d.(amenities := NormalizeAmenities(d.rentType, input.amenities),
                   currentStep := AdvanceFrom(d.currentStep, AmenitiesStep, ImagesStep));
      Ok(Saved(drafts[input.uid := d'], d'))
  }

  /** `saveDraftStep7`: the images. */
  function SaveDraftStep7(drafts: DraftStore, user: Uid, input: Step7Input): (r: Result<Saved, ErrorCode>)
    ensures r.Err? <==> FindDraft(drafts, input.uid, user).None?
    ensures r.Err? ==> r.error == NotFound
    ensures r.Ok? ==> WritesOnly(drafts, input.uid, r.value)
    ensures r.Ok? ==> MarkerRule(drafts[input.uid].currentStep, r.value.draft.currentStep, ImagesStep, None)
    ensures r.Ok? ==> r.value.draft == drafts[input.uid].(
              images := Some(input.images), currentStep := r.value.draft.currentStep)
  {
    match FindDraft(drafts, input.uid, user)
    case None => Err(NotFound)
    case Some(d) =>
      var d' := d.(images := Some(input.images),
                   currentStep := AdvanceFrom(d.currentStep, ImagesStep, ListingDetailsStep));
      Ok(Saved(drafts[input.uid := d'], d'))
  }

  /** The first write of `saveDraftStep8`: the draft is marked complete, from any step. */
  function CompleteDraft(drafts: DraftStore, user: Uid, uid: Uid): (r: Result<Saved, ErrorCode>)
    ensures r.Err? <==> FindDraft(drafts, uid, user).None?
    ensures r.Err? ==> r.error == NotFound
    ensures r.Ok? ==> WritesOnly(drafts, uid, r.value)
    ensures r.Ok? ==> r.value.draft == drafts[uid].(currentStep := CompleteStep)
  {
    match FindDraft(drafts, uid, user)
    case None => Err(NotFound)
    case Some(d) =>
      var d' := d.(currentStep := CompleteStep);
      Ok(Saved(drafts[uid := d'], d'))
  }

  /** Columns the creating call does not write start out NULL. */
  const NoTerms := Terms(None, None, None, None, None, None)

  /**
   * The property row built from a completed draft: the draft's rooms as they
   * are, the room count over them, and the amenities only for a short-term
   * rental.
   */
  function PropertyFromDraft(d: Draft, user: Uid, propertyId: Uid): (p: Property)
    ensures p.id == propertyId && p.userId == user && !p.archived
    ensures p.rooms == d.rooms
    ensures p.noOfRooms == |CountedPositions(p.rooms)|
    ensures IsShortTerm(d.rentType) ==> p.amenities == d.amenities
    ensures !IsShortTerm(d.rentType) ==> p.amenities == []
    ensures p.rentType == d.rentType && p.surfaceArea == d.surfaceArea
    ensures p.addressInstructions == d.addressInstructions
    ensures p.latitude == d.latitude && p.longitude == d.longitude && p.geoData == d.geoData
    ensures p.localityId == d.localityId && p.cityId == d.cityId && p.municipalityId == d.municipalityId
    ensures p.images == d.images
    ensures p.activeForListing.None? && p.terms == NoTerms
    ensures p.localityOsmId.None? && p.localityName.None? && p.localityBbox.None?
  {
    CountRoomsIsCardinality(d.rooms);
    Property(
      id := propertyId, userId := user, archived := false, activeForListing := None,
      noOfRooms := CountRooms(d.rooms), surfaceArea := d.surfaceArea, rentType := d.rentType,
      addressInstructions := d.addressInstructions, latitude := d.latitude, longitude := d.longitude,
      geoData := d.geoData, localityId := d.localityId, localityOsmId := None, localityName := None,
      localityBbox := None, cityId := d.cityId, municipalityId := d.municipalityId,
      images := d.images, terms := NoTerms, rooms := d.rooms,
      amenities := if d.rentType == Some(ShortTerm) then d.amenities else [])
  }

  /** The tables `saveDraftStep8` writes. */
  datatype DraftDb = DraftDb(drafts: DraftStore, properties: map<Uid, Property>, listings: map<Uid, Listing>)

  /** What `saveDraftStep8` returns: the tables after its three writes, and the listing id. */
  datatype Published = Published(db: DraftDb, listingUid: Uid)

  /**
   * `saveDraftStep8`: complete the draft, create the property from it, then
   * create the listing that offers it. `propertyId` and `listingId` are the
   * ids the database generates.
   */
  function SaveDraftStep8(db: DraftDb, user: Uid, input: Step8Input, propertyId: Uid, listingId: Uid)
    : (r: Result<Published, ErrorCode>)
    requires propertyId !in db.properties && listingId !in db.listings
    ensures r.Err? <==> FindDraft(db.drafts, input.uid, user).None?
    ensures r.Err? ==> r.error == NotFound
    ensures r.Ok? ==> r.value.listingUid == listingId
    ensures r.Ok? ==> r.value.db.drafts == db.drafts[input.uid := db.drafts[input.uid].(currentStep := CompleteStep)]
    ensures r.Ok? ==> r.value.db.properties.Keys == db.properties.Keys + {propertyId}
    ensures r.Ok? ==> forall k :: k in db.properties ==> r.value.db.properties[k] == db.properties[k]
    ensures r.Ok? ==> r.value.db.properties[propertyId] == PropertyFromDraft(db.drafts[input.uid], user, propertyId)
    ensures r.Ok? ==> r.value.db.listings == db.listings[listingId := Listing(listingId, propertyId, input.details, true)]
  {
    match CompleteDraft(db.drafts, user, input.uid)
    case Err(e) => Err(e)
    case Ok(saved) =>
      var property := PropertyFromDraft(saved.draft, user, propertyId);
      var listing := Listing(listingId, propertyId, input.details, true);
      Ok(Published(DraftDb(saved.drafts, db.properties[propertyId := property],
                           db.listings[listingId := listing]), listingId))
  }
}
