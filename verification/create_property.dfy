/**
 * The domain use case that creates a property: validate the request, look
 * up the owner, build the default property, save it, and hand the outcome
 * to the presenter.
 *
 * The request schema, the repositories and the presenter are the use case's
 * collaborators: the schema's parse is a parameter, the user repository is a
 * map, and the calls the use case makes on the property repository and the
 * presenter are returned as a trace.
 */
module CreatePropertyUseCase {
  import opened Results
  import opened PropertyTypes

  datatype User = User(id: Uid)

  datatype Coordinates = Coordinates(longitude: real, latitude: real)

  datatype BoundingBox = BoundingBox(minLongitude: real, minLatitude: real, maxLongitude: real, maxLatitude: real)

  /** The request the use case reads. */
  datatype CreatePropertyRequest = CreatePropertyRequest(
    ownerId: Uid,
    rentType: RentType,
    surfaceArea: real,
    commune: string,
    district: string,
    city: string,
    address: Option<string>,
    longitude: real,
    latitude: real,
    boundingBox: BoundingBox)

  datatype DomainRoom = DomainRoom(id: Uid, kind: RoomType)

  /** The domain's property entity. */
  datatype DomainProperty = DomainProperty(
    id: Uid,
    position: Coordinates,
    boundingBox: (Coordinates, Coordinates),
    rentType: RentType,
    surfaceArea: real,
    commune: string,
    district: string,
    city: string,
    address: Option<string>,
    owner: User,
    noOfRooms: nat,
    images: seq<Image>,
    rooms: seq<DomainRoom>,
    amenities: seq<Amenity>,
    archived: bool)

  /** Error messages per request field. */
  type FieldErrors = map<string, seq<string>>

  /** One problem the schema reports: the path of the offending field, and its message. */
  datatype Issue = Issue(path: seq<string>, message: string)

  /** `validate`: the parsed request, or the field errors of the failed parse. */
  datatype ValidateResult = Parsed(parsedRequest: CreatePropertyRequest) | Invalid(errors: FieldErrors)

  /** What the presenter receives. */
  datatype CreatePropertyResponse = CreatePropertyResponse(errors: Option<FieldErrors>, property: Option<DomainProperty>)

  /** A call the use case makes on a collaborator. */
  datatype Call = Save(saved: DomainProperty) | Present(response: CreatePropertyResponse)

  const OwnerNotFound: FieldErrors := map["ownerId" := ["This user does not exists."]]

  /**
   * `error.flatten().fieldErrors`: the issues are visited in order, and the
   * message of each one with a non-empty path is appended to the list under
   * the path's first key. Issues with an empty path are form errors, which
   * `validate` drops.
   */
  function FlattenFieldErrors(issues: seq<Issue>): (r: FieldErrors)
    ensures forall k :: k in r ==> r[k] != []
    decreases |issues|
  {
    if |issues| == 0 then map[]
    else
      var errors := FlattenFieldErrors(issues[..|issues| - 1]);
      var last := issues[|issues| - 1];
      if |last.path| == 0 then errors
      else
        var key := last.path[0];
        errors[key := (if key in errors then errors[key] else []) + [last.message]]
  }

  /** The messages of the issues whose path starts with `key`, in order. */
  function MessagesAt(issues: seq<Issue>, key: string): seq<string>
    decreases |issues|
  {
    if |issues| == 0 then []
    else
      (if |issues[0].path| > 0 && issues[0].path[0] == key then [issues[0].message] else [])
      + MessagesAt(issues[1..], key)
  }

  /** Collecting the messages for a key, one issue appended at the end. */
  lemma {:induction false} MessagesAtSnoc(issues: seq<Issue>, x: Issue, key: string)
    ensures MessagesAt(issues + [x], key)
            == MessagesAt(issues, key) + (if |x.path| > 0 && x.path[0] == key then [x.message] else [])
    decreases |issues|
  {
    if |issues| == 0 {
      assert issues + [x] == [x];
      assert [x][1..] == [];
    } else {
      assert (issues + [x])[0] == issues[0] && (issues + [x])[1..] == issues[1..] + [x];
      MessagesAtSnoc(issues[1..], x, key);
    }
  }

  /**
   * The flattened errors have an entry for exactly the keys some issue's
   * path starts with, and that entry lists those issues' messages in order.
   */
  lemma {:induction false} FlattenCollectsMessages(issues: seq<Issue>, key: string)
    ensures key in FlattenFieldErrors(issues) <==> MessagesAt(issues, key) != []
    ensures key in FlattenFieldErrors(issues) ==> FlattenFieldErrors(issues)[key] == MessagesAt(issues, key)
    decreases |issues|
  {
    if |issues| > 0 {
      var front := issues[..|issues| - 1];
      var last := issues[|issues| - 1];
      assert issues == front + [last];
      FlattenCollectsMessages(front, key);
      MessagesAtSnoc(front, last, key);
    }
  }

  /** `validate`: run the schema's parse and keep either the data or the flattened field errors. */
  function Validate(request: CreatePropertyRequest, safeParse: CreatePropertyRequest -> Result<CreatePropertyRequest, seq<Issue>>)
    : (r: ValidateResult)
    ensures r.Parsed? <==> safeParse(request).Ok?
    ensures r.Parsed? ==> r.parsedRequest == safeParse(request).value
    ensures r.Invalid? ==> forall key :: key in r.errors <==> MessagesAt(safeParse(request).error, key) != []
    ensures r.Invalid? ==> forall key :: key in r.errors ==> r.errors[key] == MessagesAt(safeParse(request).error, key)
  {
    match safeParse(request)
    case Ok(data) => Parsed(data)
    case Err(issues) =>
      var errors := FlattenFieldErrors(issues);
      assert forall key :: (key in errors <==> MessagesAt(issues, key) != [])
                           && (key in errors ==> errors[key] == MessagesAt(issues, key)) by {
        forall key ensures (key in errors <==> MessagesAt(issues, key) != [])
                           && (key in errors ==> errors[key] == MessagesAt(issues, key)) {
          FlattenCollectsMessages(issues, key);
        }
      }
      Invalid(errors)
  }

  /**
   * The property the use case creates for a valid request and an existing
   * owner: not archived, one bedroom, no image, no amenity, positioned at the
   * request's coordinates, and boxed by its two corners.
   */
  function DefaultProperty(req: CreatePropertyRequest, owner: User, propertyId: Uid, roomId: Uid): (p: DomainProperty)
    ensures !p.archived && p.noOfRooms == 1
    ensures p.rooms == [DomainRoom(roomId, Bedroom)]
    ensures p.images == [] && p.amenities == []
    ensures p.position == Coordinates(req.longitude, req.latitude)
    ensures p.boundingBox == (Coordinates(req.boundingBox.minLongitude, req.boundingBox.minLatitude),
                              Coordinates(req.boundingBox.maxLongitude, req.boundingBox.maxLatitude))
    ensures p.owner == owner && p.id == propertyId
    ensures p.rentType == req.rentType && p.surfaceArea == req.surfaceArea
    ensures p.commune == req.commune && p.district == req.district && p.city == req.city && p.address == req.address
  {
    DomainProperty(
      id := propertyId,
      position := Coordinates(req.longitude, req.latitude),
      boundingBox := (Coordinates(req.boundingBox.minLongitude, req.boundingBox.minLatitude),
                      Coordinates(req.boundingBox.maxLongitude, req.boundingBox.maxLatitude)),
      rentType := req.rentType, surfaceArea := req.surfaceArea,
      commune := req.commune, district := req.district, city := req.city, address := req.address,
      owner := owner, noOfRooms := 1, images := [], rooms := [DomainRoom(roomId, Bedroom)],
      amenities := [], archived := false)
  }

  function CountPresents(trace: seq<Call>): nat {
    if |trace| == 0 then 0 else (if trace[0].Present? then 1 else 0) + CountPresents(trace[1..])
  }

  function CountSaves(trace: seq<Call>): nat {
    if |trace| == 0 then 0 else (if trace[0].Save? then 1 else 0) + CountSaves(trace[1..])
  }

  /**
   * `execute`: the calls made on the property repository and the presenter,
   * in order. `propertyId` and `roomId` are the identifiers the use case
   * generates.
   */
  function Execute(
    request: CreatePropertyRequest,
    safeParse: CreatePropertyRequest -> Result<CreatePropertyRequest, seq<Issue>>,
    users: map<Uid, User>,
    propertyId: Uid,
    roomId: Uid): (trace: seq<Call>)
    ensures CountPresents(trace) == 1 && trace[|trace| - 1].Present?
    ensures CountSaves(trace) == (if safeParse(request).Ok? && safeParse(request).value.ownerId in users then 1 else 0)
    ensures safeParse(request).Err? ==>
              trace == [Present(CreatePropertyResponse(Some(FlattenFieldErrors(safeParse(request).error)), None))]
    ensures safeParse(request).Ok? && safeParse(request).value.ownerId !in users ==>
              trace == [Present(CreatePropertyResponse(Some(OwnerNotFound), None))]
    ensures safeParse(request).Ok? && safeParse(request).value.ownerId in users ==>
              var p := DefaultProperty(safeParse(request).value, users[safeParse(request).value.ownerId], propertyId, roomId);
              trace == [Save(p), Present(CreatePropertyResponse(None, Some(p)))]
  {
    match Validate(request, safeParse)
    case Invalid(errors) =>
      [Present(CreatePropertyResponse(Some(errors), None))]
    case Parsed(req) =>
      if req.ownerId in users then
        var p := DefaultProperty(req, users[req.ownerId], propertyId, roomId);
        var trace := [Save(p), Present(CreatePropertyResponse(None, Some(p)))];
        assert trace[1..] == [trace[1]] && trace[1..][1..] == [];
        assert CountPresents(trace[1..]) == 1 && CountSaves(trace[1..]) == 0;
        trace
      else
        [Present(CreatePropertyResponse(Some(OwnerNotFound), None))]
  }

  /**
   * Whenever the presenter receives a property it was saved first, and
   * whenever it receives errors nothing was saved.
   */
  lemma PresentedPropertyWasSaved(
    request: CreatePropertyRequest,
    safeParse: CreatePropertyRequest -> Result<CreatePropertyRequest, seq<Issue>>,
    users: map<Uid, User>, propertyId: Uid, roomId: Uid)
    ensures var trace := Execute(request, safeParse, users, propertyId, roomId);
            var response := trace[|trace| - 1].response;
            && (response.property.Some? <==> response.errors.None?)
            && (response.property.Some? ==> trace[0] == Save(response.property.value))
            && (response.errors.Some? ==> CountSaves(trace) == 0)
  {
  }

  /** The created property's room count agrees with the room list, as the listing routers count it. */
  lemma DefaultPropertyRoomCount(req: CreatePropertyRequest, owner: User, propertyId: Uid, roomId: Uid)
    ensures var p := DefaultProperty(req, owner, propertyId, roomId);
            p.noOfRooms == CountRooms(seq(|p.rooms|, i requires 0 <= i < |p.rooms| => Room(p.rooms[i].kind)))
  {
    var p := DefaultProperty(req, owner, propertyId, roomId);
    assert seq(|p.rooms|, i requires 0 <= i < |p.rooms| => Room(p.rooms[i].kind)) == [Room(Bedroom)];
  }
}
