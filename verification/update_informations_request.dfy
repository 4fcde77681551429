/**
 * The input schema of the use case that updates a property's information,
 * as a validity predicate over a decoded JSON object, together with the
 * parse that turns a valid object into a typed request.
 *
 * The UUID format check belongs to the validation library; it is a
 * parameter `isUuid` here.
 */
module UpdatePropertyInformationsRequest {
  import opened Results

  /** A decoded JSON value; booleans and arrays, which no field accepts, are `JOther`. */
  datatype Json = JNull | JNumber(n: real) | JString(s: string) | JObject(fields: map<string, Json>) | JOther

  type JsonObject = map<string, Json>

  datatype BoundingBox = BoundingBox(minLongitude: real, minLatitude: real, maxLongitude: real, maxLatitude: real)

  /** A request that passed the schema. */
  datatype UpdatePropertyInformations = UpdatePropertyInformations(
    propertyId: string,
    userId: string,
    longitude: real,
    latitude: real,
    surfaceArea: real,
    commune: string,
    district: string,
    city: string,
    address: Option<string>,
    boundingBox: BoundingBox)

  const MinSurfaceArea: real := 9.0

  predicate IsNumber(o: JsonObject, key: string) {
    key in o && o[key].JNumber?
  }

  predicate IsString(o: JsonObject, key: string) {
    key in o && o[key].JString?
  }

  predicate IsNonEmptyString(o: JsonObject, key: string) {
    IsString(o, key) && |o[key].s| >= 1
  }

  predicate IsUuidField(o: JsonObject, key: string, isUuid: string -> bool) {
    IsString(o, key) && isUuid(o[key].s)
  }

  /** A string or null, but present. */
  predicate IsNullableString(o: JsonObject, key: string) {
    key in o && (o[key].JNull? || o[key].JString?)
  }

  /** An object with the four numeric corners; their order is not checked. */
  predicate IsBoundingBox(o: JsonObject, key: string) {
    && key in o && o[key].JObject?
    && IsNumber(o[key].fields, "minLongitude") && IsNumber(o[key].fields, "minLatitude")
    && IsNumber(o[key].fields, "maxLongitude") && IsNumber(o[key].fields, "maxLatitude")
  }

  /** Whether the object passes the schema (keys the schema does not name are ignored). */
  predicate IsValid(o: JsonObject, isUuid: string -> bool) {
    && IsUuidField(o, "propertyId", isUuid)
    && IsUuidField(o, "userId", isUuid)
    && IsNumber(o, "longitude")
    && IsNumber(o, "latitude")
    && IsNumber(o, "surfaceArea") && o["surfaceArea"].n >= MinSurfaceArea
    && IsNonEmptyString(o, "commune")
    && IsNonEmptyString(o, "district")
    && IsNonEmptyString(o, "city")
    && IsNullableString(o, "address")
    && IsBoundingBox(o, "boundingBox")
  }

  /** The schema's parse: the typed request when the object is valid. */
  function Parse(o: JsonObject, isUuid: string -> bool): (r: Option<UpdatePropertyInformations>)
    ensures r.Some? <==> IsValid(o, isUuid)
    ensures r.Some? ==> r.value.surfaceArea >= 9.0
    ensures r.Some? ==> |r.value.commune| >= 1 && |r.value.district| >= 1 && |r.value.city| >= 1
    ensures r.Some? ==> isUuid(r.value.propertyId) && isUuid(r.value.userId)
  {
    if !IsValid(o, isUuid) then None
    else
      var box := o["boundingBox"].fields;
      Some(UpdatePropertyInformations(
        o["propertyId"].s, o["userId"].s, o["longitude"].n, o["latitude"].n, o["surfaceArea"].n,
        o["commune"].s, o["district"].s, o["city"].s,
        if o["address"].JNull? then None else Some(o["address"].s),
        BoundingBox(box["minLongitude"].n, box["minLatitude"].n, box["maxLongitude"].n, box["maxLatitude"].n)))
  }

  /** The constraints a typed request satisfies exactly when it would pass the schema. */
  predicate Acceptable(req: UpdatePropertyInformations, isUuid: string -> bool) {
    && isUuid(req.propertyId) && isUuid(req.userId)
    && req.surfaceArea >= MinSurfaceArea
    && |req.commune| >= 1 && |req.district| >= 1 && |req.city| >= 1
  }

  /** The JSON object a client sends for a typed request. */
  function Encode(req: UpdatePropertyInformations): JsonObject {
    map[
      "propertyId" := JString(req.propertyId),
      "userId" := JString(req.userId),
      "longitude" := JNumber(req.longitude),
      "latitude" := JNumber(req.latitude),
      "surfaceArea" := JNumber(req.surfaceArea),
      "commune" := JString(req.commune),
      "district" := JString(req.district),
      "city" := JString(req.city),
      "address" := if req.address.Some? then JString(req.address.value) else JNull,
      "boundingBox" := JObject(map[
        "minLongitude" := JNumber(req.boundingBox.minLongitude),
        "minLatitude" := JNumber(req.boundingBox.minLatitude),
        "maxLongitude" := JNumber(req.boundingBox.maxLongitude),
        "maxLatitude" := JNumber(req.boundingBox.maxLatitude)])]
  }

  /** Encoding then parsing gives the request back exactly when it is acceptable. */
  lemma ParseEncode(req: UpdatePropertyInformations, isUuid: string -> bool)
    ensures Parse(Encode(req), isUuid).Some? <==> Acceptable(req, isUuid)
    ensures Acceptable(req, isUuid) ==> Parse(Encode(req), isUuid) == Some(req)
  {
    EncodeValid(req, isUuid);
    EncodeLookups(req);
  }

  /** The encoded object passes the schema exactly when the request is acceptable. */
  lemma EncodeValid(req: UpdatePropertyInformations, isUuid: string -> bool)
    ensures IsValid(Encode(req), isUuid) <==> Acceptable(req, isUuid)
  {
    EncodeLookups(req);
  }

  /** The fields the schema checks, read back from the encoded object. */
  lemma EncodeLookups(req: UpdatePropertyInformations)
    ensures var o := Encode(req);
            && IsString(o, "propertyId") && o["propertyId"].s == req.propertyId
            && IsString(o, "userId") && o["userId"].s == req.userId
            && IsNumber(o, "longitude") && IsNumber(o, "latitude")
            && IsNumber(o, "surfaceArea") && o["surfaceArea"].n == req.surfaceArea
            && IsString(o, "commune") && o["commune"].s == req.commune
            && IsString(o, "district") && o["district"].s == req.district
            && IsString(o, "city") && o["city"].s == req.city
            && IsNullableString(o, "address") && IsBoundingBox(o, "boundingBox")
  {
  }

  /** A null address is accepted; a missing one is not. */
  lemma AddressNullableNotOptional(req: UpdatePropertyInformations, isUuid: string -> bool)
    requires Acceptable(req, isUuid) && req.address.None?
    ensures Encode(req)["address"] == JNull && IsValid(Encode(req), isUuid)
    ensures !IsValid(Encode(req) - {"address"}, isUuid)
  {
  }

  /** A surface area below 9 is refused whatever the other fields are. */
  lemma SmallSurfaceRefused(o: JsonObject, isUuid: string -> bool)
    requires IsNumber(o, "surfaceArea") && o["surfaceArea"].n < 9.0
    ensures Parse(o, isUuid).None?
  {
  }

  /** A bounding box whose minimum corner lies beyond its maximum is still accepted. */
  lemma InvertedBoxAccepted(req: UpdatePropertyInformations, isUuid: string -> bool)
    requires Acceptable(req, isUuid)
    requires req.boundingBox.minLongitude > req.boundingBox.maxLongitude
    ensures Parse(Encode(req), isUuid) == Some(req)
  {
    ParseEncode(req, isUuid);
  }
}
