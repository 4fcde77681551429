# locaci property listing core, in Dafny

This project models the decision logic of the locaci rental-listing site:

- **The draft wizard** (`draft.ts`). An owner creates a draft and fills in eight forms. Each form handler writes its fields and may move the draft's step marker forward: RENT_TYPE → ADDRESS → INSTRUCTIONS → ROOMS → [AMENITIES] → IMAGES → LISTING_DETAILS → COMPLETE. The last form publishes the draft as a property plus a listing.
- **Operations on published properties** (`property.ts`). These cover cursor pagination of bookings, the visibility toggle, soft deletion, duplication and the seven edit forms.
- **The domain layer.**
  - The use case that creates a property: it validates the request, looks up the owner, builds a default property, saves it and presents the result.
  - The input schema of the use case that updates a property's information.
- **The UI helpers** `clsx`, `range`, `getPageRange`, `getInitials` and `formatDateToSimpleDate`.

How the model represents the system:

- **Storage.** Each database table is a `map` from id to row.
- **Search index and cache.** The calls an operation makes on them are returned as an ordered list of effects (`PropertyRouter.Effect`).
- **Fresh identifiers.** Ids the database or `Uuid` would generate are parameters. Where the code creates a row, the parameter is required to be absent from the table.
- **Errors.** Every error the handlers themselves throw is an `Err(NotFound)` or `Err(BadRequest)` result, and a failed call changes no table. Failures of Prisma, Typesense or a repository are not modelled.
- **JavaScript semantics.** The model spells out `split`/`join` on one character, `padStart`, number `toString`, the whitespace set of `trim`, `!` on a nullable column, and `??` versus a falsy `""`.

Modules:

| file | module | models |
|---|---|---|
| results.dfy | `Results` | `Option`, `Result` and the two error codes |
| strings.dfy | `Strings` | `split`/`join` with one separator, decimal rendering and parsing, `padStart` |
| ui_functions.dfy | `UiFunctions` | `ui/src/lib/functions.ts` |
| property_types.dfy | `PropertyTypes` | rows, rent/room/amenity types, room counting, amenity normalisation |
| draft_router.dfy | `DraftRouter` | the draft wizard's handlers |
| draft_lemmas.dfy | `DraftLemmas` | properties of whole sequences of draft calls |
| property_router.dfy | `PropertyRouter` | the published-property handlers |
| property_lemmas.dfy | `PropertyLemmas` | pagination, toggle, deletion, room-count invariant |
| create_property.dfy | `CreatePropertyUseCase` | the create-property use case |
| update_informations_request.dfy | `UpdatePropertyInformationsRequest` | the update-information request schema |

## Model

| member | source | states |
|---|---|---|
| UiFunctions.TruthyKeysMembership | ui/src/lib/functions.ts:29-36 | a key is pushed for an object argument iff some entry for it is truthy |
| UiFunctions.ClassesMembership | ui/src/lib/functions.ts:18-41 | a class appears in the output list iff it is a non-empty string argument or a truthy key of an object argument |
| UiFunctions.ClassesAppend | ui/src/lib/functions.ts:22-39 | the classes of two argument lists are the classes of the first followed by those of the second (argument order is kept) |
| UiFunctions.ClassesOf | ui/src/lib/functions.ts:23-37 | one argument pushes a class iff it is that non-empty string or a key of the object whose value is truthy |
| UiFunctions.ClassesOne | ui/src/lib/functions.ts:22-39 | a single argument yields exactly the classes it pushes |
| UiFunctions.Clsx | ui/src/lib/functions.ts:18-41 | the collected classes joined by single spaces (`Join`, with its own length contract and round-trip lemmas); no classes give `""`; classes without spaces can be split back from the result |
| UiFunctions.ClsxIgnoresEmpty | ui/src/lib/functions.ts:23-28 | inserting `undefined` or `''` anywhere among the arguments leaves the result unchanged |
| UiFunctions.ClsxDocExample | ui/src/lib/functions.ts:5-14 | the documented call yields `"class1 class2 class3"` |
| UiFunctions.Range | ui/src/lib/functions.ts:56-68 | the result has length `end - start` (empty when negative) and element `i` is `start + i`; `range(1, 5) = [1, 2, 3, 4]` |
| UiFunctions.GetPageRangeWindow | ui/src/lib/functions.ts:81-93 | for `1 <= currentPage <= nbPages` the pages are consecutive, lie in `[1, nbPages]`, contain `currentPage`, and number `min(4, nbPages)`; when two pages fit before it and two after, the window is `[currentPage-2 .. currentPage+1]` |
| UiFunctions.GetPageRange | ui/src/lib/functions.ts:81-93 | for any arguments, at most four consecutive page numbers, each between 1 and `nbPages` |
| UiFunctions.GetPageRangeDocMismatch | ui/src/lib/functions.ts:74-77 | the code gives `[1..4]`, `[2..5]`, `[7..10]` where the documentation promises five pages |
| UiFunctions.GetPageRangeOfFiveWindow | ui/src/lib/functions.ts:70-73 | the corrected range is consecutive, within bounds, contains the current page and holds `min(5, nbPages)` pages; when two pages fit on each side, it is the centred `[currentPage-2 .. currentPage+2]` |
| UiFunctions.GetPageRangeOfFive | ui/src/lib/functions.ts:70-73 | for any arguments, at most five consecutive page numbers, each between 1 and `nbPages` |
| UiFunctions.GetPageRangeOfFiveDocExamples | ui/src/lib/functions.ts:74-77 | the corrected range gives the three documented lists |
| UiFunctions.NonEmpty | ui/src/lib/functions.ts:103 | `filter(Boolean)` leaves only non-empty words and never lengthens the list |
| UiFunctions.NonEmptyMembers | ui/src/lib/functions.ts:103 | a word survives `filter(Boolean)` iff it was in the list and is non-empty |
| UiFunctions.NonBlankWords | ui/src/lib/functions.ts:106-107 | the loop's `trim` test leaves only words that are not white space only, and never lengthens the list |
| UiFunctions.NonBlankWordsMembers | ui/src/lib/functions.ts:106-107 | a word survives the `trim` test iff it was in the list and is not white space only |
| UiFunctions.InitialsOf | ui/src/lib/functions.ts:106-112 | one upper-cased first character per non-blank word, in order |
| UiFunctions.GetInitials | ui/src/lib/functions.ts:102-113 | one initial per space-separated word that is not white space only |
| UiFunctions.GetInitialsWords | ui/src/lib/functions.ts:102-113 | the initials are the upper-cased first characters of the non-blank space-separated words |
| UiFunctions.GetInitialsOfJoinedNames | ui/src/lib/functions.ts:95-113 | for names without spaces joined by spaces, one initial per name, in order |
| UiFunctions.GetInitialsDocExample | ui/src/lib/functions.ts:99 | `getInitials("John Doe") = "JD"` |
| UiFunctions.FormatDateToSimpleDate | ui/src/lib/functions.ts:133-134 | no result iff the date is missing or the empty string |
| UiFunctions.TwoDigitsField | ui/src/lib/functions.ts:140-142 | a month or day from 1 to 99 renders as exactly two digits that read back as the number |
| UiFunctions.FormatDateRoundTrip | ui/src/lib/functions.ts:137-142 | the rendered `year-MM-DD` splits on `-` into three fields that read back as year, month and day |
| UiFunctions.FormatDateDocExample | ui/src/lib/functions.ts:127-128 | the epoch renders as `"1970-01-01"`, not the documented `"1970-1-1"` |
| Strings.PadStart | ui/src/lib/functions.ts:140-142 | the result has length `max(len, |s|)`, ends with `s`, and is filled with the pad character in front |
| Strings.SplitPartsFree | ui/src/lib/functions.ts:103 | no part of a split contains the separator |
| Strings.JoinSplit | ui/src/lib/functions.ts:103 | joining the parts of a split with the same separator gives back the string |
| Strings.SplitJoin | ui/src/lib/functions.ts:40 | splitting a join of separator-free parts gives back the parts |
| Strings.Split | ui/src/lib/functions.ts:103 | a split always yields at least one part |
| Strings.Join | ui/src/lib/functions.ts:40 | the joined string is the parts' lengths plus one separator between each two parts; no parts give `""` |
| Strings.IntToDecimalReadsBack | ui/src/lib/functions.ts:140-142 | a non-negative number renders as digits that read back as it; a negative one as `-` and the digits of its magnitude |
| Strings.SplitThree | ui/src/lib/functions.ts:137-142 | three dash-free fields joined by dashes split back into the same three fields |
| Strings.ParseNatToDecimal | ui/src/lib/functions.ts:140-142 | the decimal rendering of a number reads back as the number |
| PropertyTypes.CountRooms | web/src/server/trpc/router/owner/draft.ts:355-368 | the count is at most the number of rooms, zero iff no bedroom/living room/kitchen, all iff every room is one |
| PropertyTypes.CountRoomsIsCardinality | web/src/server/trpc/router/owner/property.ts:474-486 | the loop's count equals the number of positions holding a bedroom, living room or kitchen |
| PropertyTypes.IsCustomAmenity | web/src/server/trpc/router/owner/draft.ts:420-435 | holds iff the amenity's type is OTHER |
| PropertyTypes.NormalizeAmenities | web/src/server/trpc/router/owner/draft.ts:241-257 | empty unless short-term; otherwise one amenity per input, OTHER keeping its name and every other type a null name |
| PropertyTypes.NormalizedAmenityNames | web/src/server/trpc/router/owner/draft.ts:241-257 | a stored amenity has a name iff its type is OTHER |
| DraftRouter.SuccessorMovesForward | web/src/server/trpc/router/owner/draft.ts:94-97 | every declared transition goes to a later step, strictly later from every step but COMPLETE |
| DraftRouter.Successor | web/src/server/trpc/router/owner/draft.ts:94-299 | each form moves to the next step; from ROOMS a rental that is not short-term skips AMENITIES; COMPLETE stays |
| DraftRouter.NewDraft | web/src/server/trpc/router/owner/draft.ts:60-68 | a new draft owned by the caller, at the first step, with exactly one bedroom; no other draft changes |
| DraftRouter.FindDraft | web/src/server/trpc/router/owner/draft.ts:72-85 | found iff the id exists and belongs to the caller |
| DraftRouter.SaveDraftStep1 | web/src/server/trpc/router/owner/draft.ts:69-100 | NOT_FOUND iff no such draft of the caller; otherwise writes rent type and surface only, and moves RENT_TYPE to ADDRESS, any other step unchanged |
| DraftRouter.SaveDraftStep2 | web/src/server/trpc/router/owner/draft.ts:101-159 | NOT_FOUND, then BAD_REQUEST for an unknown locality, before any write; otherwise the address fields with names from the locality, ADDRESS to INSTRUCTIONS |
| DraftRouter.SaveDraftStep4 | web/src/server/trpc/router/owner/draft.ts:160-190 | NOT_FOUND iff no such draft; otherwise writes the instructions, INSTRUCTIONS to ROOMS |
| DraftRouter.SaveDraftStep5 | web/src/server/trpc/router/owner/draft.ts:191-222 | NOT_FOUND iff no such draft; otherwise replaces the rooms, ROOMS to AMENITIES for short-term and to IMAGES otherwise |
| DraftRouter.SaveDraftStep6 | web/src/server/trpc/router/owner/draft.ts:223-271 | NOT_FOUND iff no such draft; otherwise stores the normalised amenities, AMENITIES to IMAGES |
| DraftRouter.SaveDraftStep7 | web/src/server/trpc/router/owner/draft.ts:272-302 | NOT_FOUND iff no such draft; otherwise replaces the images, IMAGES to LISTING_DETAILS |
| DraftRouter.CompleteDraft | web/src/server/trpc/router/owner/draft.ts:306-328 | NOT_FOUND iff no such draft; otherwise sets COMPLETE from any step and writes nothing else |
| DraftRouter.PropertyFromDraft | web/src/server/trpc/router/owner/draft.ts:333-397 | the new id and owner, not archived; room count from the counted room types, rooms copied, amenities only for short-term; rent type, surface, address instructions, coordinates, geoData, locality, city and municipality ids and images copied; `activeForListing` and the OSM id, name and bbox of the locality null, and no terms |
| DraftRouter.SaveDraftStep8 | web/src/server/trpc/router/owner/draft.ts:303-417 | NOT_FOUND iff no such draft; otherwise the draft is COMPLETE, the new property is built from it and an active listing with the form's details points at it |
| DraftLemmas.CallNeverMovesBack | web/src/server/trpc/router/owner/draft.ts:94-97 | one call keeps the set of drafts, touches only its own draft, and never moves a marker back |
| DraftLemmas.StepNeverMovesBack | web/src/server/trpc/router/owner/draft.ts:153-156 | over any sequence of calls by any users, no draft's marker moves back |
| DraftLemmas.ReplayIsIdempotent | web/src/server/trpc/router/owner/draft.ts:184-187 | repeating a call with the same input changes nothing more |
| DraftLemmas.FailedCallChangesNothing | web/src/server/trpc/router/owner/draft.ts:119-137 | a call on a missing or foreign draft, or with an unknown locality, fails and leaves the table as it was |
| DraftLemmas.FormsInOrderReachListingDetails | web/src/server/trpc/router/owner/draft.ts:214-219 | forms 1 to 7 filled in order take a draft from RENT_TYPE to LISTING_DETAILS, through AMENITIES only when short-term |
| DraftLemmas.NewDraftFirstTwoSteps | web/src/server/trpc/router/owner/draft.ts:60-159 | a new draft, then forms 1 and 2, is at INSTRUCTIONS |
| DraftLemmas.NewDraftReachesListingDetails | web/src/server/trpc/router/owner/draft.ts:60-302 | for every input, a new draft followed by forms 1 to 7 is at LISTING_DETAILS, and every other draft is unchanged |
| PropertyRouter.FindProperty | web/src/server/trpc/router/owner/property.ts:98-118 | found iff the id exists, belongs to the caller and is not archived |
| PropertyRouter.OwnedBookings | web/src/server/trpc/router/owner/property.ts:56-62 | a booking is listed iff it is in the table and its property belongs to the caller and is not archived |
| PropertyRouter.OwnedBookingsOne | web/src/server/trpc/router/owner/property.ts:56-62 | one booking is kept alone iff its property is the caller's and not archived, else dropped |
| PropertyRouter.OwnedBookingsAppend | web/src/server/trpc/router/owner/property.ts:56-62 | filtering a concatenation concatenates the filtered parts, so order and repetitions are kept |
| PropertyRouter.FromCursor | web/src/server/trpc/router/owner/property.ts:68-72 | a suffix that starts at a row with the cursor id, with no such row before it; empty iff no row has that id |
| PropertyRouter.EffectiveCursor | web/src/server/trpc/router/owner/property.ts:53-54 | a present cursor is `cursor`, or `initialCursor` when `cursor` is absent; an empty string means no cursor |
| PropertyRouter.GetBookings | web/src/server/trpc/router/owner/property.ts:44-90 | default limit 8; at most `limit` rows, a prefix of the window; a next cursor iff more than `limit` rows remain, and then it is the id of the first row left out |
| PropertyRouter.ToggleVisibility | web/src/server/trpc/router/owner/property.ts:91-146 | NOT_FOUND iff not found; otherwise the flag is negated (null reads as hidden), the result is the new value, the row is indexed when it becomes visible and removed when hidden, and both caches are invalidated |
| PropertyRouter.DeleteProperty | web/src/server/trpc/router/owner/property.ts:147-187 | NOT_FOUND iff not found; otherwise only `archived` becomes true, the row leaves the index and both caches are invalidated |
| PropertyRouter.DuplicateTerms | web/src/server/trpc/router/owner/property.ts:235-244 | the housing period is kept for short-term and 30 otherwise; the other terms are copied |
| PropertyRouter.CopyRooms | web/src/server/trpc/router/owner/property.ts:264-270 | the same number of rooms with the same types, in order |
| PropertyRouter.DuplicateOf | web/src/server/trpc/router/owner/property.ts:219-279 | the copy has the new id and owner, is active and not archived, has no locality id, and copies every other column, its terms through the long-term housing-period rule; the same room count and room types; amenities only for short-term |
| PropertyRouter.Duplicate | web/src/server/trpc/router/owner/property.ts:188-297 | NOT_FOUND iff not found; otherwise adds only the copy under the new id and indexes it |
| PropertyRouter.SavePropertyStep1 | web/src/server/trpc/router/owner/property.ts:298-339 | NOT_FOUND iff not found; otherwise writes rent type and surface only, then reindexes and invalidates |
| PropertyRouter.SavePropertyStep2 | web/src/server/trpc/router/owner/property.ts:340-403 | NOT_FOUND, then BAD_REQUEST for an unknown municipality, before any write; otherwise writes the address fields only |
| PropertyRouter.SavePropertyStep4 | web/src/server/trpc/router/owner/property.ts:404-444 | NOT_FOUND iff not found; otherwise writes the instructions only |
| PropertyRouter.SavePropertyStep5 | web/src/server/trpc/router/owner/property.ts:445-513 | NOT_FOUND iff not found; otherwise replaces the rooms and recounts `noOfRooms`, returning the rent type |
| PropertyRouter.SavePropertyStep6 | web/src/server/trpc/router/owner/property.ts:514-576 | NOT_FOUND iff not found; otherwise stores the normalised amenities |
| PropertyRouter.SavePropertyStep7 | web/src/server/trpc/router/owner/property.ts:577-617 | NOT_FOUND iff not found; otherwise replaces the images |
| PropertyRouter.SavePropertyStep8 | web/src/server/trpc/router/owner/property.ts:618-673 | NOT_FOUND iff not found; otherwise writes the terms with the housing period forced to 30 unless short-term, and returns the shortened id |
| PropertyLemmas.FromCursorAt | web/src/server/trpc/router/owner/property.ts:68-72 | with unique ids, the cursor of a row selects exactly that row and the rows after it |
| PropertyLemmas.WindowTiles | web/src/server/trpc/router/owner/property.ts:68-84 | reopening a window at its row `limit` gives the window without its first `limit` rows |
| PropertyLemmas.NextPageFollowsPage | web/src/server/trpc/router/owner/property.ts:67-89 | with unique booking ids, the next page starts right after the current one: pages tile the bookings, none skipped or repeated |
| PropertyLemmas.SecondDeleteNotFound | web/src/server/trpc/router/owner/property.ts:154-179 | after a delete the row is archived, and deleting or toggling it again fails NOT_FOUND |
| PropertyLemmas.DeletedNotDuplicated | web/src/server/trpc/router/owner/property.ts:195-213 | a deleted property cannot be duplicated |
| PropertyLemmas.ToggleTwiceRestores | web/src/server/trpc/router/owner/property.ts:120-131 | toggling twice restores the visibility, reports opposite values and changes no other column |
| PropertyLemmas.ToggleHiddenIndexes | web/src/server/trpc/router/owner/property.ts:133-137 | a hidden property becomes visible and is added to the index |
| PropertyLemmas.CopyRoomsKeepsCount | web/src/server/trpc/router/owner/property.ts:264-270 | the copied rooms have the same counted positions as the original |
| PropertyLemmas.CallKeepsRoomCounts | web/src/server/trpc/router/owner/property.ts:488-501 | every operation keeps each row's `noOfRooms` equal to the count of its rooms |
| PropertyLemmas.RoomCountsStayDerived | web/src/server/trpc/router/owner/property.ts:474-501 | over any sequence of operations by any users, every `noOfRooms` stays derived from its rooms |
| PropertyLemmas.AmenityFormKeepsRule | web/src/server/trpc/router/owner/property.ts:514-576 | after the amenity form a long-term row has no amenities |
| PropertyLemmas.DuplicateKeepsRule | web/src/server/trpc/router/owner/property.ts:251-252 | a duplicate of a long-term row has no amenities |
| PropertyLemmas.RentTypeEditKeepsAmenities | web/src/server/trpc/router/owner/property.ts:298-339 | switching a short-term row with amenities to a long-term rental keeps the amenities |
| CreatePropertyUseCase.Validate | domain/src/usecases/CreateProperty/CreatePropertyUseCase.ts:80-94 | parsed iff the schema accepts, with its data; otherwise a field has errors iff some issue's path starts with it, and its list is those issues' messages in order |
| CreatePropertyUseCase.FlattenCollectsMessages | domain/src/usecases/CreateProperty/CreatePropertyUseCase.ts:84-88 | `flatten().fieldErrors` lists under each key, in issue order, the messages of the issues whose path starts with that key, and has no other keys |
| CreatePropertyUseCase.DefaultProperty | domain/src/usecases/CreateProperty/CreatePropertyUseCase.ts:35-65 | not archived, one room of type BEDROOM, `noOfRooms` 1, no images or amenities, position and box corners from the request |
| CreatePropertyUseCase.Execute | domain/src/usecases/CreateProperty/CreatePropertyUseCase.ts:20-78 | the presenter is called once and last; save is called iff the request parses and the owner exists; otherwise exactly the parse errors or `{ownerId: ["This user does not exists."]}` with no property |
| CreatePropertyUseCase.PresentedPropertyWasSaved | domain/src/usecases/CreateProperty/CreatePropertyUseCase.ts:66-77 | the presenter gets a property iff it gets no errors, and that property is the one saved |
| CreatePropertyUseCase.DefaultPropertyRoomCount | domain/src/usecases/CreateProperty/CreatePropertyUseCase.ts:55-62 | the default room count agrees with its one bedroom under the routers' counting rule |
| UpdatePropertyInformationsRequest.Parse | domain/src/usecases/UpdatePropertyInformations/UpdatePropertyInformationsRequest.ts:4-20 | accepted iff every field has its type, both ids are UUIDs, the surface is at least 9, the three place names are non-empty and the address is present |
| UpdatePropertyInformationsRequest.ParseEncode | domain/src/usecases/UpdatePropertyInformations/UpdatePropertyInformationsRequest.ts:4-24 | a typed request survives encoding and parsing iff it meets the schema's constraints |
| UpdatePropertyInformationsRequest.EncodeValid | domain/src/usecases/UpdatePropertyInformations/UpdatePropertyInformationsRequest.ts:4-20 | the object a client sends for a request passes the schema iff the request meets its constraints |
| UpdatePropertyInformationsRequest.AddressNullableNotOptional | domain/src/usecases/UpdatePropertyInformations/UpdatePropertyInformationsRequest.ts:13 | a null address is accepted, a missing one refused |
| UpdatePropertyInformationsRequest.SmallSurfaceRefused | domain/src/usecases/UpdatePropertyInformations/UpdatePropertyInformationsRequest.ts:9 | a surface below 9 is refused |
| UpdatePropertyInformationsRequest.InvertedBoxAccepted | domain/src/usecases/UpdatePropertyInformations/UpdatePropertyInformationsRequest.ts:14-19 | a box whose minimum longitude exceeds its maximum is accepted |

## Left out

- Prisma, Typesense and the cache are external I/O. Tables are maps, and index and cache calls are an effect list. Whether `reindex` re-reads the row is not part of this model.
- The booking table is given in the query's order, newest reservation first; the sort itself is not modelled.
- The `limit` input is an integer here; zod's `number()` would also admit fractions.
- Prisma's cursor on an id that is not in the result is modelled as an empty page. The database's real behaviour there is not visible in the source.
- The Prisma schema is not part of this model, so its column defaults are assumed. A new draft is taken to start at RENT_TYPE with `amenities` empty and every other optional column null (`DraftRouter.NewDraft`). A property published from a draft is taken to be not archived, with `activeForListing`, `localityOsmId`, `localityName` and `localityBbox` null and no rental terms (`NoTerms`).
- Room and amenity types other than BEDROOM, LIVING_ROOM, KITCHEN and OTHER are open constructors (`OtherRoom`, `Listed`), because their enum is not part of this model. `OtherRoom("BEDROOM")`, `OtherRoom("LIVING_ROOM")` and `OtherRoom("KITCHEN")` are second spellings the enum cannot produce, and `CountRooms` does not count them; callers are expected to use `Bedroom`, `LivingRoom` and `Kitchen`. `Listed("OTHER")` is a second spelling of OTHER that the enum cannot produce; `IsCustomAmenity` is false for it, and callers are expected to use `Other`.
- An object argument of `clsx` is a `Record`, a list of key and value pairs that may repeat a key, which a JavaScript object cannot; for such inputs the model pushes each truthy entry, where the object would hold only the last value of the key.
- The zod schemas of the router inputs, and `CreatePropertyRequestSchema`, are not part of this model. The routers take typed inputs, and the create use case takes the schema's parse as a parameter that yields the parsed request or a list of zod issues (path and message); the flattening of those issues into field errors is modelled.
- zod's UUID check is a parameter `isUuid`. zod's `NaN` rejection and JSON infinities do not arise with `real`.
- `Uuid`, `Uuid.short()` and the database's id generation are parameters.
- The transactional behaviour of draft step 8 is not modelled. A listing failure after the property is created has no rollback; the model writes both rows in sequence.
- `formatNumberToFCFA` and `formatDateToFrenchDate` are left out because they rely on `Intl` locale formatting.
- Inside `formatDateToSimpleDate`, the `Date` construction and time zone are left out. The model starts from (year, month, day) integers: the `Calendar` case is an argument that `new Date` reads as a valid date. A non-empty string `new Date` cannot read gives an Invalid Date, and the code then returns `"NaN-NaN-NaN"`; that case is not modelled.
- `getAll`, `getSingleDraft` and `getSingle` are left out: they are read-only lookups with no decision logic.
- The auth middleware and the tRPC plumbing are left out.
- UiFunctions.ToUpper: upper-cases ASCII letters only. JavaScript's `toUpperCase` covers all of Unicode, including letters that expand to two characters.
- UiFunctions.GetInitials: inherits the gaps of `ToUpper` and `InitialsOf`. In JavaScript, `getInitials("ßa b")` gives `"SSB"`, three characters for two words, so one initial per word holds only for words whose first character upper-cases to one character.
- UiFunctions.GetInitialsWords: the same gaps as `GetInitials`; the initials are the first characters upper-cased by `ToUpper`, not by Unicode case mapping.
- UiFunctions.GetInitialsOfJoinedNames: the same gaps as `GetInitials`.
- UiFunctions.IsTrimmed: tests single characters (Unicode scalar values) against the whitespace set of `trim`; every character in that set is a single UTF-16 code unit.
- UiFunctions.InitialsOf: takes a word's first character, a Unicode scalar value, where `charAt(0)` takes the first UTF-16 code unit. A word that starts outside the Basic Multilingual Plane gives half a surrogate pair in JavaScript and the whole character here.
- CreatePropertyUseCase.Execute: the code has no `try`/`catch`, so when `getUserById` or `save` rejects, the error propagates and the presenter is never called. Only the repository's successful answers are modelled.
- CreatePropertyUseCase.DefaultProperty: omits the request fields the object spread copies but the `Property` type does not declare (`ownerId`, `longitude`, `latitude`), and the `radius` that the `Position` type declares and the code never sets.

Behaviour of the code, recorded by lemmas or contracts, that the model keeps as written:

- The edit handlers of `property.ts` pass the row read before the update to `reindex` (property.ts:334, 398, 439, 504, 572, 612, 664).
- Draft step 8 writes the form's `housingPeriod` to the listing as given. Property step 8 and `duplicate` force it to 30 for long-term rentals.
- Draft step 8 runs from any step. Each call creates a new property and listing, and the draft row is kept.
- `duplicate` sets no `localityId` and invalidates no cache.
- Draft step 2 takes the city and municipality ids from the input, but the names from the locality row.
- Property step 1 changes the rent type without clearing amenities (`PropertyLemmas.RentTypeEditKeepsAmenities`).
- The documentation of `formatDateToSimpleDate` shows `"1970-1-1"`. The code pads to `"1970-01-01"` (`UiFunctions.FormatDateDocExample`); this is a documentation slip, not a code defect.

## Findings

| source | as written | input that shows it | evidently intended | confidence | as-written member | corrected member |
|---|---|---|---|---|---|---|
| ui/src/lib/functions.ts:81-93 | `end = start + 4` and `range(max(1, nbPages - 3), nbPages + 1)` give at most 4 pages, because `range` excludes its end | `getPageRange(1, 10)` gives `[1,2,3,4]`, not `[1,2,3,4,5]` | a window of five pages, `[1,2,3,4,5]`, `[2,3,4,5,6]`, `[6,7,8,9,10]` as documented | high; not executed | UiFunctions.GetPageRangeDocMismatch | UiFunctions.GetPageRangeOfFiveWindow |
