# Hotel booking API — a Dafny model

This project models the core of a small hotel-booking REST service. The service is an Express application over MongoDB, accessed through Mongoose. It has three collections:

- **hotels**: name, address, telephone, email, star rating and an `actif` flag;
- **rooms**: hotel, number, type, nightly price, availability and capacity;
- **reservations**: hotel, room, client, arrival and departure dates, total price and status.

The model covers:

- the three Mongoose schemas, with their casts, defaults and validators;
- the create routes, with the checks each runs before `Model.create`;
- the update and delete routes, which answer 404 on an unknown id;
- the list routes, with the query filters they build and the page/limit arithmetic;
- the advanced hotel search;
- the five aggregation pipelines: top star ratings, room statistics by type, most-booked rooms, reservation statistics by status, and reservations joined with their hotel and room.

Layout:

- `wrappers.dfy`: `Option` and map lookup.
- `js.dfy`: JSON bodies, query strings and JavaScript truthiness. It also holds `Host`, the primitives the service borrows from its platform: `parseInt`, `Number`, `new Date`, `new RegExp` and matching, the ObjectId cast, and `validator.isEmail`.
- `mongo.dfy`: the query-filter values and how Mongoose casts them, document matching, `find` and `skip`/`limit`.
- `seqs.dfy`: generic sequence operations used by the pipelines. These are filtering, grouping totals, a descending sort and ranking.
- `hotel.dfy`, `room.dfy`, `reservation.dfy`: the schemas. A body is cast into optional fields. Defaults are applied, then the validators are checked. `$set` updates are merged.
- `store.dfy`: a collection as a class. It holds a map from id to document and the insertion order. Its methods change both in place.
- `filters.dfy`: the query filters of the list and search routes, each as a specification function and as the imperative builder that the route code is, proved equal. It also holds the pagination arithmetic.
- `reports.dfy`: the aggregation pipelines as functions over the documents.
- `routes.dfy`: the route handlers. A reply has a status of 200, 201, 400, 404 or 500.

The service's own behaviour differs from a natural reading of it in a few places, and the model follows the code:

- A malformed id in a path or a query is not checked. The cast error it causes is answered 500, not 400.
- Updates run no validators.
- The create routes' presence checks use JavaScript truthiness on the raw body, before Mongoose casts it. A room with the number `prixNuit: 0` and a reservation with the number `prixTotal: 0` are therefore refused with "Champs manquants", although the schemas accept 0. The string `"0"` is truthy and is cast to 0, so a room priced `"0"` is created.
- The advanced search drops the `actif` condition for any `actif` value other than `"true"` or `"false"`.

## Model

| member | source | states |
|---|---|---|
| HotelModel.Trim | models/Hotel.js:7 | the `trim: true` setter: leading white space removed, then trailing white space; its properties are the lemmas below |
| HotelModel.TrimStart | models/Hotel.js:7 | the result is a suffix of the input that is empty or starts with a character that is not white space |
| HotelModel.TrimEnd | models/Hotel.js:7 | the result is a prefix of the input that is empty or ends with a character that is not white space |
| HotelModel.TrimSlice | models/Hotel.js:7 | the trimmed name is the contiguous part of the input starting where leading white space ends |
| HotelModel.TrimEdges | models/Hotel.js:7 | the trimmed name is empty or starts and ends with a character that is not white space |
| HotelModel.TrimStartDrops | models/Hotel.js:7 | every leading character removed is white space |
| HotelModel.TrimEndDrops | models/Hotel.js:7 | every trailing character removed is white space |
| HotelModel.TrimEndDropsAfter | models/Hotel.js:7 | every character of the input after the trimmed name is white space |
| HotelModel.TrimIdempotent | models/Hotel.js:7 | trimming a trimmed name changes nothing |
| HotelModel.Castable | models/Hotel.js:3-35 | every path the body gives casts to the type the schema declares for it |
| HotelModel.CastFields | models/Hotel.js:3-35 | each schema path holds the cast of the body's value, or nothing when the body leaves it out; the cast fails exactly when some given path does not cast (Castable) |
| HotelModel.ApplyDefaults | models/Hotel.js:13-35 | `actif` defaults to true and `adresse.pays` to "France"; a given value is kept and nothing else changes |
| HotelModel.Valid | models/Hotel.js:3-28 | the validators: required paths defined and non-empty, 1 <= etoiles <= 5 |
| HotelModel.Conforms | models/Hotel.js:3-28 | what a created hotel satisfies: the validators, a trimmed name and a country |
| HotelModel.Create | models/Hotel.js:3-35 | every hotel created conforms to the schema (required paths non-empty, trimmed name, 1 <= etoiles <= 5) |
| HotelModel.CreateTakesBody | models/Hotel.js:13-35 | a created hotel carries the body's etoiles and email, and its actif and pays are the given values or else the defaults |
| HotelModel.CreateAccepts | models/Hotel.js:3-35 | a body with every required path filled with values of the right types and 1 <= etoiles <= 5 is accepted |
| HotelModel.Merge | index.js:114 | an update sets each path it carries to its value and keeps every other path; an empty update changes nothing |
| HotelModel.MergeIdempotent | index.js:114 | applying the same update twice equals applying it once |
| HotelModel.UpdateSkipsValidators | index.js:114 | an update can store a hotel that violates the schema (nine stars) |
| HotelModel.MergeKeepsConformance | index.js:114 | an update whose values all satisfy the validators keeps a hotel conforming |
| RoomModel.Castable | models/Room.js:3-31 | every path the body gives casts to the type the schema declares for it |
| RoomModel.CastFields | models/Room.js:3-31 | each schema path holds the cast of the body's value, or nothing when the body leaves it out; the cast fails exactly when some given path does not cast (Castable) |
| RoomModel.ApplyDefaults | models/Room.js:23-26 | `disponible` defaults to true; a given value is kept and nothing else changes |
| RoomModel.Valid | models/Room.js:3-31 | the validators: required paths present, type in the enumeration, prixNuit >= 0, capacite >= 1 |
| RoomModel.Conforms | models/Room.js:3-31 | what a created room satisfies: non-empty number, known type, prixNuit >= 0, capacite >= 1 |
| RoomModel.Create | models/Room.js:3-31 | every room created conforms (type in the enumeration, prixNuit >= 0, capacite >= 1) and carries the body's price, capacity and availability or its default |
| RoomModel.ZeroCapacityRefused | models/Room.js:27-31 | a capacity of 0 is refused by the schema |
| RoomModel.CreateAccepts | models/Room.js:3-31 | a body with every required path of the right type, a known room type, prixNuit >= 0 and capacite >= 1 is accepted with that type |
| RoomModel.Merge | index.js:198 | an update sets each path it carries to its value and keeps every other path; an empty update changes nothing |
| RoomModel.MergeIdempotent | index.js:198 | applying the same update twice equals applying it once |
| RoomModel.UpdateSkipsValidators | index.js:198 | an update can store a room that violates the schema (capacity 0) |
| RoomModel.MergeKeepsConformance | index.js:198 | an update whose values all satisfy the validators keeps a room conforming |
| ReservationModel.Castable | models/Reservation.js:3-36 | every path the body gives casts to the type the schema declares for it |
| ReservationModel.CastFields | models/Reservation.js:3-36 | each schema path holds the cast of the body's value, or nothing when the body leaves it out; the cast fails exactly when some given path does not cast (Castable) |
| ReservationModel.ApplyDefaults | models/Reservation.js:32-36 | `statut` defaults to "en_attente"; a given value is kept and nothing else changes |
| ReservationModel.Valid | models/Reservation.js:3-36 | the validators: ids, the three client fields, both dates and prixTotal present, prixTotal >= 0, statut in the enumeration |
| ReservationModel.Conforms | models/Reservation.js:3-36 | what a created reservation satisfies: a complete client, prixTotal >= 0, a known status |
| ReservationModel.Create | models/Reservation.js:3-36 | every reservation created conforms and carries the body's price and dates, and the given status or else the default |
| ReservationModel.CreateAccepts | models/Reservation.js:3-36 | a body with both ids, a complete client, both dates, a number prixTotal >= 0 and a known or absent status is accepted, with that price and email |
| ReservationModel.DatesUnordered | models/Reservation.js:19-26 | the schema accepts a departure before the arrival |
| ReservationModel.Merge | index.js:306 | an update sets each path it carries to its value and keeps every other path; an empty update changes nothing |
| ReservationModel.MergeIdempotent | index.js:306 | applying the same update twice equals applying it once |
| ReservationModel.MergeKeepsConformance | index.js:306 | an update whose values all satisfy the validators keeps a reservation conforming |
| Mongo.CastPath | models/Hotel.js:3-35 | an absent path stays unset; a present path is set exactly when its value casts |
| Mongo.CastNumber | models/Room.js:18-22 | a Number path takes a number, a boolean as 1 or 0, and a non-empty string as `Number` reads it; anything else is refused |
| Mongo.Present | models/Room.js:9-12 | a required String path is defined and not empty |
| Mongo.CastValue | index.js:174 | numbers and dates cast exactly when they are not NaN; strings on ObjectId paths go through the ObjectId cast; other values are kept |
| Mongo.CastFilter | index.js:73-74 | a filter casts exactly when every condition casts; the cast filter has the same paths and each condition is cast |
| Mongo.Holds | index.js:174-183 | a field satisfies an equality, a case-insensitive pattern, or a $gte/$lte range |
| Mongo.Matches | index.js:102 | a document matches when every condition of the filter holds of its field |
| Mongo.Find | index.js:102 | the result holds exactly the documents that match the filter, taken from the collection |
| Mongo.FindCount | index.js:102 | a matching document is found as often as it is stored, any other never |
| Mongo.FindAppend | index.js:102 | the matches of two consecutive parts are the matches of the first, then those of the second: the collection's order |
| Mongo.FindOne | index.js:102 | a single document is found exactly when it matches |
| Mongo.Window | index.js:73 | a negative skip is refused; otherwise the result is the contiguous run starting at skip, of length limit (all of it for limit 0, the absolute value for a negative limit) |
| Filters.HotelListFilter | index.js:66-70 | actif is always required; adresse.ville is a case-insensitive pattern exactly when ville is given; etoiles is an equality exactly when etoiles is given; the filter fails exactly when the pattern does not compile |
| Filters.BuildHotelListFilter | index.js:66-70 | the route's step-by-step construction yields HotelListFilter |
| Filters.SearchFilter | index.js:85-100 | actif is required true when absent or "true", false when "false", and dropped otherwise; etoiles is a range exactly when a bound is given, with $gte and $lte from the given bounds |
| Filters.BuildSearchFilter | index.js:85-100 | the route's step-by-step construction yields SearchFilter |
| Filters.RoomListFilter | index.js:173-183 | hotelId, type and disponible are conditions exactly when given (disponible is true only for "true"); prixNuit is a range exactly when a bound is given |
| Filters.BuildRoomListFilter | index.js:173-183 | the route's step-by-step construction yields RoomListFilter |
| Filters.ReservationListFilter | index.js:282-290 | statut is an equality exactly when given; dateArrivee is a date range exactly when a bound is given |
| Filters.BuildReservationListFilter | index.js:282-290 | the route's step-by-step construction yields ReservationListFilter |
| Filters.Pagination | index.js:66-76 | page and limit default to 1 and 10; skip = (page - 1) * limit; the paging fails exactly when a given page or limit does not parse |
| Store.Collection.constructor | models/Hotel.js:40 | a new collection is empty |
| Store.Collection.Create | index.js:56 | the new id was unused; the document is stored under it and appended to the listing; nothing else changes |
| Store.Collection.UpdateById | index.js:114 | an existing document is replaced by its update and returned, in place in the listing; an unknown id changes nothing and returns nothing |
| Store.Collection.DeleteById | index.js:125 | an existing document is removed from the map and the listing and returned; an unknown id changes nothing |
| Routes.DecideHotel | index.js:53-57 | 400 "Email invalide" exactly when the email is rejected; insertion exactly when it is accepted and the schema accepts the body, and then the hotel conforms |
| Routes.RoomFieldsGiven | index.js:159-160 | the five fields the room route demands are all truthy |
| Routes.DecideRoom | index.js:159-163 | 400 "Champs manquants" exactly when a required field is missing or falsy; an inserted room conforms, has capacite >= 1, and has prixNuit > 0 when the body gave a number |
| Routes.FreeRoomRefused | index.js:160-162 | a room priced with the number 0 is refused as missing fields, although the schema allows it |
| Routes.QuotedFreeRoomCreated | index.js:160-163 | a room priced with the string "0" passes the check and is created with price 0 |
| Routes.ReservationFieldsGiven | index.js:265-266 | the six fields the reservation route demands are all truthy |
| Routes.DecideReservation | index.js:265-272 | missing fields are refused first; then 400 exactly when the client email is rejected; an inserted reservation conforms, and has prixTotal > 0 when the body gave a number |
| Routes.MissingBeforeEmail | index.js:266-271 | with a field missing, the reply does not depend on the email check |
| Routes.Perform | index.js:57-58 | a refusal leaves the collection unchanged; an insertion stores the document and answers 201 with it |
| Routes.CreateHotel | index.js:51-62 | status 201, 400 or 500; 400 exactly for a rejected email; 201 exactly when the decision inserts, with the stored hotel; otherwise nothing is stored |
| Routes.CreateRoom | index.js:157-168 | status 201, 400 or 500; 400 exactly for missing fields; 201 exactly when the decision inserts; otherwise nothing is stored |
| Routes.CreateReservation | index.js:263-277 | status 201, 400 or 500; missing fields give 400 "Champs manquants"; 201 exactly when the decision inserts; otherwise nothing is stored |
| Routes.UpdateReply | index.js:112-121 | 500 exactly when the id or the body does not cast; 404 exactly for an unknown id; 200 with the updated document otherwise |
| Routes.Update | index.js:112-121 | the reply is UpdateReply of the old documents; only a 200 changes the collection, storing the updated document under the id |
| Routes.DeleteReply | index.js:123-131 | 500 exactly when the id does not cast; 404 exactly for an unknown id; 200 otherwise |
| Routes.Delete | index.js:123-131 | the reply is DeleteReply of the old documents; only a 200 changes the collection, removing the document from the map and the listing |
| Routes.DeleteTwice | index.js:123-131 | deleting an existing document answers 200, and deleting it again answers 404 |
| Routes.UpdateAfterDelete | index.js:112-131 | an update after a successful delete answers 404 |
| Routes.HotelPatch | index.js:114 | an update body is usable exactly when it casts against the hotel schema |
| Routes.RoomPatch | index.js:198 | an update body is usable exactly when it casts against the room schema |
| Routes.ReservationPatch | index.js:306 | an update body is usable exactly when it casts against the reservation schema |
| Routes.UpdateHotel | index.js:112-121 | the hotel update route is Update with the hotel messages |
| Routes.DeleteHotel | index.js:123-131 | the hotel delete route is Delete with the hotel messages |
| Routes.UpdateRoom | index.js:196-208 | the room update route is Update with the room messages |
| Routes.DeleteRoom | index.js:210-219 | the room delete route is Delete with the room messages |
| Routes.UpdateReservation | index.js:304-315 | the reservation update route is Update with the reservation messages |
| Routes.DeleteReservation | index.js:317-326 | the reservation delete route is Delete with the reservation messages |
| Routes.PageOf | index.js:72-76 | the page is the skip/limit window of the matching documents; total counts all of them |
| Routes.Matching | index.js:73-74 | defined exactly when the filter casts; holds exactly the matching documents of the collection |
| Routes.MatchingOrder | index.js:73-74 | the matches keep the collection's order, and each matching document appears as often as it is stored |
| Routes.ListPage | index.js:64-80 | 200 exactly when the filter and the paging are well-formed, with the page of matching documents; 500 otherwise |
| Routes.ListPageMatches | index.js:73 | every listed document is in the collection and matches the filter |
| Routes.MatchesKey | index.js:73 | a document matching a filter satisfies each of its conditions |
| Routes.ListHotels | index.js:64-80 | 500 when ville is not a valid pattern or etoiles does not parse |
| Routes.ListHotelsSelects | index.js:67-70 | every listed hotel is active and has the requested star rating |
| Routes.SearchHotels | index.js:83-107 | 200 exactly when the filter is well-formed; count is the number of hotels found, which are exactly the matching ones |
| Routes.SearchHotelsActif | index.js:89-93 | actif absent or "true" finds only active hotels; "false" finds only inactive ones |
| Routes.SearchHotelsAnyActif | index.js:89-93 | any other actif value leaves actif unconstrained: a hotel that would match with its actif flipped is found as well |
| Routes.ListRooms | index.js:171-193 | 500 when hotelId is not a valid ObjectId |
| Routes.RoomFilterSelects | index.js:174-183 | a room that matches the room filter has the requested hotel, type, availability and price range |
| Routes.ListRoomsSelects | index.js:174-186 | every listed room has the requested hotel, type, availability and price range |
| Routes.ListReservations | index.js:280-301 | 500 when dateDebut is not a valid date |
| Routes.ReservationFilterSelects | index.js:283-290 | a reservation that matches the filter has the requested status and arrival range |
| Routes.ListReservationsSelects | index.js:283-294 | every listed reservation has the requested status and arrival range |
| Reports.Rated | index.js:137 | exactly the hotels with the given rating, from the collection |
| Reports.StarGroupOf | index.js:137-140 | the group of a rating carries that rating and counts its hotels |
| Reports.StarGroupMembers | index.js:137 | a group lists exactly the names of the hotels with its rating |
| Reports.TopEtoiles | index.js:136-141 | at most 5 groups, in strictly decreasing rating, each the non-empty group of its rating |
| Reports.TopEtoilesComplete | index.js:137-139 | every hotel's rating has a group, unless five higher ratings fill the result |
| Reports.TopEtoilesRatings | index.js:137-139 | the ratings shown are the first five distinct ratings of the hotels, largest first |
| Reports.Average | index.js:224 | `$avg`: the total divided by the count, 0 for an empty group |
| Reports.TypeStatOf | index.js:224 | the statistic of a type carries that type; its count and mean are stated by TypeStatMeaning |
| Reports.TypeStatMeaning | index.js:224 | nombre counts the rooms of the type, and prixMoyen is the mean of their prices |
| Reports.OfTypeTotals | index.js:224 | the group's count is the number of rooms of the type and its price total is the sum of their prices |
| Reports.AverageTimesCount | index.js:224 | a non-empty group's mean times its count gives back its total |
| Reports.TypeStatNonEmpty | index.js:224 | the statistic of a type some room has counts at least one room |
| Reports.RoomStats | index.js:223-227 | no more rows than rooms |
| Reports.RoomStatsRows | index.js:224-225 | rows are in non-increasing nombre, each the non-empty statistic of its type |
| Reports.RoomStatsCovers | index.js:224 | every room's type has a row |
| Reports.RoomStatsTotal | index.js:224 | the counts add up to the number of rooms |
| Reports.BookingsOf | index.js:240-245 | exactly the reservations of the room |
| Reports.BookingsOfCount | index.js:240-245 | each reservation of the room is counted as often as it is stored, and no other reservation is |
| Reports.RoomCountOf | index.js:247 | a room's row carries its id and counts its reservations |
| Reports.PlusReservees | index.js:238-250 | at most 10 rows; which rows, and their order, are stated by PlusReserveesCorrect and PlusReserveesTop |
| Reports.PlusReserveesCorrect | index.js:238-250 | min(10, rooms) rows, in non-increasing count, each the row of some room, and no room's row more often than the room is stored |
| Reports.PlusReserveesTop | index.js:248-249 | every room is listed unless ten rooms with at least as many reservations fill the result |
| Reports.WithStatut | index.js:332 | exactly the reservations with the status |
| Reports.StatutStatOf | index.js:332 | the statistic of a status carries that status; its count and revenue are stated by StatutStatMeaning |
| Reports.StatutStatMeaning | index.js:332 | nombre counts the reservations of the status and revenu sums their prices |
| Reports.ReservationStats | index.js:331-337 | total is the number of reservations and there are no more rows than reservations |
| Reports.StatutStatNonEmpty | index.js:332 | the statistic of a status some reservation has counts at least one reservation |
| Reports.ReservationStatsRows | index.js:332-333 | rows are in non-increasing nombre, each the statistic of its status with nombre > 0 |
| Reports.ReservationStatsCovers | index.js:332 | every reservation's status has a row |
| Reports.ReservationStatsTotals | index.js:332-337 | the counts add up to the total and the revenues to the sum of all prices |
| Reports.Joins | index.js:348-366 | no more rows than reservations; every reservation whose hotel and room exist gives its row |
| Reports.JoinsSource | index.js:348-366 | every row comes from a reservation whose hotel and room exist |
| Reports.JoinsCount | index.js:348-366 | a row appears as often as there are reservations that project to it |
| Reports.JoinsLength | index.js:348-366 | one row per reservation whose hotel and room exist |
| Reports.Completes | index.js:347-384 | nombre is the number of rows, no more than the reservations |
| Reports.CompletesCorrect | index.js:347-384 | rows are in non-increasing arrival date, and are exactly the rows of the reservations whose hotel and room exist; nombre is the number of those reservations |
| Reports.CompletesCount | index.js:347-384 | a row appears in the report as often as there are reservations that project to it |
| Seqs.SelectCount | index.js:240-245 | each element that satisfies the condition is selected as often as it occurs, any other never |
| Seqs.SelectAppend | index.js:240-245 | selection keeps the order: selecting from two parts is selecting from each in turn |
| Seqs.SortDescCorrect | index.js:225 | the descending sort is a permutation, non-increasing in its key, and keeps the sum of any measure |
| Seqs.Ranked | index.js:138 | the distinct keys in strictly decreasing order |
| Seqs.TakeSubMultiset | index.js:249 | $limit keeps a prefix, so no element appears more often than in its input |
| Seqs.TakeDecreasing | index.js:139 | after $limit n on strictly decreasing keys, a key is kept or is below the last kept one |
| Seqs.InsertSorted | index.js:225 | inserting into a non-increasing sequence keeps it non-increasing |
| Js.Truthy | index.js:160 | JavaScript truthiness: undefined, null, false, 0 and "" are falsy, everything else is truthy |

## Left out

- The HTTP layer is not modelled: Express, JSON parsing, CORS, the server start-up and the banner route (index.js:39-43). A handler takes the parsed body or query and the collection and returns a status with a payload.
- The database connection is left out, and so are failures of the store or the network; they would answer 500.
- `validator.isEmail`, `parseInt`, `Number`, `new Date`, `new RegExp` and its matching, and the string-to-ObjectId cast are parameters of the model (`Host`). Their own behaviour is not part of this model.
- `Host.isEmail` returns Accepts, Rejects or Throws. The model does not decide which of these a missing or non-string email gets.
- ObjectId generation is modelled as a counter; its format is not modelled.
- The `timestamps` option is left out: `createdAt` and `updatedAt` are not modelled.
- Numbers are unbounded integers. Fractional prices, floating-point averages and `$round` are not modelled.
- Reports.TypeStatOf: prixMoyen is the exact real average, not rounded to two decimals.
- Filters.Pagination: a page or limit that parses to NaN is modelled as a 500, because the cursor refuses it; the code does not check it.
- Mongoose casts are modelled as follows. A Number path takes a number, a boolean (as 1 or 0) or a non-empty string read by `Number`. A Boolean path takes true, false, 1, 0 and the strings "true", "1", "yes", "false", "0", "no". A Date path takes a date string or a number. An ObjectId path takes a string. Other coercions Mongoose makes are treated as cast failures. Among them are a String path given a number or a boolean, which Mongoose turns into its text, and arrays or objects given to a Number path. JSON `null`, and the empty string on a Number path, become null in Mongoose; here they are cast failures too.
- Reports.TopEtoiles, Reports.RoomStats, Reports.PlusReservees, Reports.ReservationStats, Reports.CompletesCorrect: the order among rows with equal sort keys is not stated, because the server does not fix it; the hotel names grouped by `$push` are in collection order.
- Update bodies holding `$`-operators are not modelled. Neither are the `populate('hotelId')` of the room listing and the `populate('hotelId').populate('roomId')` of the reservation listing: a listed document carries its ids, not the documents they name.
- A query key given several times (an array in Express) is not modelled: every query value is a string.
- Concurrency is not modelled: each handler runs alone, and nothing prevents two reservations of one room for the same dates (the code does not either).
- The aggregation routes' wrappers are not separate members. They only pass a collection's documents to the pipeline function and answer 200, or 500 on a store failure.
