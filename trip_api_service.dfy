/** Services/TripAPIService.swift without the HTTP call: the prompt's variable
    part, the classification of the reply into the `TripError` taxonomy, the
    strict decoding of the model's JSON into `TripJSON`, and the mapping of a
    decoded `TripJSON` onto a fresh `Trip`. */
module TripApi {
  import opened Basics
  import opened Json
  import opened Models
  import opened Completions
  import Identity

  // ---------------------------------------------------------------------------
  // The schema the model must answer with (TripJSON and its nested structs)

  /** `FlightJSON` and `HotelJSON`, which have the same three fields. */
  datatype BookingJson = BookingJson(title: string, price: string, url: string)

  datatype ItemJson = ItemJson(title: string, notes: Option<string>)

  datatype DayJson = DayJson(dayLabel: string, morning: string, afternoon: string, evening: string)

  datatype TripJson = TripJson(
    destination: string,
    flight: BookingJson,
    hotel: BookingJson,
    checklist: seq<ItemJson>,
    mustSee: seq<ItemJson>,
    days: seq<DayJson>)

  // ---------------------------------------------------------------------------
  // Errors

  datatype TripError =
    | Network(message: string)
    | BadStatus(code: int, body: string)
    | EmptyAIResponse
    | JsonDecode(detail: string)

  /** `errorDescription`. */
  function Description(e: TripError): (d: string)
  {
    match e
    case Network(m) => "Network error: " + m
    case BadStatus(code, body) => "Server error " + IntToString(code) + ": " + body
    case EmptyAIResponse => "Empty AI response"
    case JsonDecode(m) => "AI JSON parse failed: " + m
  }

  /** The first character of a description tells the kind of error. */
  function Tag(e: TripError): char {
    match e
    case Network(_) => 'N'
    case BadStatus(_, _) => 'S'
    case EmptyAIResponse => 'E'
    case JsonDecode(_) => 'A'
  }

  lemma DescriptionStartsWithTag(e: TripError)
    ensures Description(e) != [] && Description(e)[0] == Tag(e)
  {
  }

  /** The message shown to the user identifies the error: different errors are
      described differently, so the status code and body, or the message, can
      be read back from the text. */
  lemma DescriptionInjective(a: TripError, b: TripError)
    requires Description(a) == Description(b)
    ensures a == b
  {
    DescriptionStartsWithTag(a);
    DescriptionStartsWithTag(b);
    var d := Description(a);
    match a
    case Network(m) =>
      assert m == d[15..] == b.message;
    case JsonDecode(m) =>
      assert m == d[22..] == b.detail;
    case EmptyAIResponse =>
    case BadStatus(c1, b1) =>
      BadStatusInjective(c1, b1, b.code, b.body);
  }

  lemma BadStatusInjective(c1: int, b1: string, c2: int, b2: string)
    requires Description(BadStatus(c1, b1)) == Description(BadStatus(c2, b2))
    ensures c1 == c2 && b1 == b2
  {
    var d := Description(BadStatus(c1, b1));
    var s1 := IntToString(c1);
    var s2 := IntToString(c2);
    NoColonInInt(c1);
    NoColonInInt(c2);
    SameLengthRendering(d, s1, s2, b1, b2);
    assert s1 == d[13..13 + |s1|] == s2;
    IntToStringInjective(c1, c2);
    assert b1 == d[15 + |s1|..] == b2;
  }

  /** Two renderings followed by ": " inside the same text have the same length,
      since a rendering holds no ':' and ends where the ':' is. */
  lemma SameLengthRendering(d: string, s1: string, s2: string, b1: string, b2: string)
    requires forall i :: 0 <= i < |s1| ==> s1[i] != ':'
    requires forall i :: 0 <= i < |s2| ==> s2[i] != ':'
    requires d == "Server error " + s1 + ": " + b1
    requires d == "Server error " + s2 + ": " + b2
    ensures |s1| == |s2|
  {
    ColonEndsRendering(d, s1, b1);
    ColonEndsRendering(d, s2, b2);
  }

  lemma ColonEndsRendering(d: string, s: string, b: string)
    requires forall i :: 0 <= i < |s| ==> s[i] != ':'
    requires d == "Server error " + s + ": " + b
    ensures d[13 + |s|] == ':'
    ensures forall i :: 13 <= i < 13 + |s| ==> d[i] != ':'
  {
    assert forall i :: 13 <= i < 13 + |s| ==> d[i] == s[i - 13];
  }

  /** A rendered integer holds no ':'. */
  lemma NoColonInInt(c: int)
    ensures forall i :: 0 <= i < |IntToString(c)| ==> IntToString(c)[i] != ':'
  {
    var s := IntToString(c);
    forall i | 0 <= i < |s| ensures s[i] != ':' {
      if i > 0 {
        assert s[i] == s[1..][i - 1];
      }
    }
  }

  /** What `generateTrip` can throw: a `TripError`, or another error (from
      URLSession or from decoding the reply envelope) known by its description. */
  datatype Failure = TripFailure(error: TripError) | OtherFailure(description: string)

  /** `error.localizedDescription` as TripViewModel records it. */
  function FailureDescription(f: Failure): string {
    match f
    case TripFailure(e) => Description(e)
    case OtherFailure(d) => d
  }

  // ---------------------------------------------------------------------------
  // JSONDecoder on TripJSON: every field required and typed, `notes` optional,
  // unknown keys ignored, the first failing field reported

  /** The keys of `TripJSON`, all required. */
  const RequiredKeys: set<string> := {"destination", "flight", "hotel", "checklist", "mustSee", "days"}

  function Field(fields: map<string, Json>, key: string): Result<Json, string> {
    if key in fields then Ok(fields[key]) else Err("keyNotFound(" + key + ")")
  }

  function AsString(j: Json, key: string): Result<string, string> {
    if j.JString? then Ok(j.s) else Err("typeMismatch(String, " + key + ")")
  }

  function AsArray(j: Json, key: string): Result<seq<Json>, string> {
    if j.JArray? then Ok(j.items) else Err("typeMismatch(Array, " + key + ")")
  }

  function AsObject(j: Json, key: string): Result<map<string, Json>, string> {
    if j.JObject? then Ok(j.fields) else Err("typeMismatch(Dictionary, " + key + ")")
  }

  function StringField(fields: map<string, Json>, key: string): Result<string, string> {
    var j :- Field(fields, key);
    AsString(j, key)
  }

  /** `decodeIfPresent`: a missing key or `null` is nil, a string is kept, any
      other value fails. */
  function OptionalStringField(fields: map<string, Json>, key: string): Result<Option<string>, string> {
    if key !in fields || fields[key].JNull? then Ok(None)
    else if fields[key].JString? then Ok(Some(fields[key].s))
    else Err("typeMismatch(String, " + key + ")")
  }

  function DecodeBooking(j: Json): (r: Result<BookingJson, string>)
    ensures r.Ok? <==> j.JObject? && forall k :: k in {"title", "price", "url"} ==> k in j.fields && j.fields[k].JString?
    ensures r.Ok? ==> r.value == BookingJson(j.fields["title"].s, j.fields["price"].s, j.fields["url"].s)
  {
    var f :- AsObject(j, "booking");
    var title :- StringField(f, "title");
    var price :- StringField(f, "price");
    var url :- StringField(f, "url");
    Ok(BookingJson(title, price, url))
  }

  function DecodeItem(j: Json): (r: Result<ItemJson, string>)
    ensures r.Ok? <==> j.JObject? && "title" in j.fields && j.fields["title"].JString?
                       && ("notes" in j.fields ==> j.fields["notes"].JNull? || j.fields["notes"].JString?)
    ensures r.Ok? ==> r.value.title == j.fields["title"].s
    ensures r.Ok? && "notes" !in j.fields ==> r.value.notes == None
    ensures r.Ok? && "notes" in j.fields ==>
              r.value.notes == (if j.fields["notes"].JNull? then None else Some(j.fields["notes"].s))
  {
    var f :- AsObject(j, "item");
    var title :- StringField(f, "title");
    var notes :- OptionalStringField(f, "notes");
    Ok(ItemJson(title, notes))
  }

  function DecodeDay(j: Json): (r: Result<DayJson, string>)
    ensures r.Ok? <==> j.JObject? && forall k :: k in {"label", "morning", "afternoon", "evening"} ==> k in j.fields && j.fields[k].JString?
    ensures r.Ok? ==> r.value == DayJson(j.fields["label"].s, j.fields["morning"].s, j.fields["afternoon"].s, j.fields["evening"].s)
  {
    var f :- AsObject(j, "day");
    var dayLabel :- StringField(f, "label");
    var morning :- StringField(f, "morning");
    var afternoon :- StringField(f, "afternoon");
    var evening :- StringField(f, "evening");
    Ok(DayJson(dayLabel, morning, afternoon, evening))
  }

  /** Decodes an array element by element; the first failure fails the whole. */
  function DecodeEach<T>(js: seq<Json>, decode: Json -> Result<T, string>): (r: Result<seq<T>, string>)
    ensures r.Ok? <==> forall i :: 0 <= i < |js| ==> decode(js[i]).Ok?
    ensures r.Ok? ==> |r.value| == |js| && forall i :: 0 <= i < |js| ==> decode(js[i]) == Ok(r.value[i])
  {
    if js == [] then Ok([])
    else
      var head :- decode(js[0]);
      var tail :- DecodeEach(js[1..], decode);
      Ok([head] + tail)
  }

  function BookingField(fields: map<string, Json>, key: string): Result<BookingJson, string> {
    var j :- Field(fields, key);
    DecodeBooking(j)
  }

  /** A key holding an array, decoded element by element. */
  function ArrayField<T>(fields: map<string, Json>, key: string, decode: Json -> Result<T, string>): Result<seq<T>, string> {
    var j :- Field(fields, key);
    var a :- AsArray(j, key);
    DecodeEach(a, decode)
  }

  /** The keys are decoded in declaration order; the first failure is reported. */
  function DecodeTripJson(j: Json): (r: Result<TripJson, string>)
  {
    var f :- AsObject(j, "TripJSON");
    var destination :- StringField(f, "destination");
    var flight :- BookingField(f, "flight");
    var hotel :- BookingField(f, "hotel");
    var checklist :- ArrayField(f, "checklist", DecodeItem);
    var mustSee :- ArrayField(f, "mustSee", DecodeItem);
    var days :- ArrayField(f, "days", DecodeDay);
    Ok(TripJson(destination, flight, hotel, checklist, mustSee, days))
  }

  /** The JSON type each top-level key of `TripJSON` must have. */
  predicate TopLevelTyped(key: string, j: Json) {
    if key == "destination" then j.JString?
    else if key == "flight" || key == "hotel" then j.JObject?
    else j.JArray?
  }

  /** A reply missing a required key, or holding one of the wrong JSON type,
      does not decode. */
  lemma DecodeNeedsEveryField(j: Json)
    requires DecodeTripJson(j).Ok?
    ensures j.JObject?
    ensures forall k :: k in RequiredKeys ==> k in j.fields && TopLevelTyped(k, j.fields[k])
  {
  }

  /** Keys outside the schema are ignored. */
  lemma DecodeIgnoresUnknownKeys(f: map<string, Json>, key: string, v: Json)
    requires key !in RequiredKeys
    ensures DecodeTripJson(JObject(f[key := v])) == DecodeTripJson(JObject(f))
  {
    var g := f[key := v];
    forall k | k in RequiredKeys ensures Field(g, k) == Field(f, k) {
    }
  }

  // The encoding the schema describes, used to state that decoding is exact.

  function EncodeBooking(b: BookingJson): Json {
    JObject(map["title" := JString(b.title), "price" := JString(b.price), "url" := JString(b.url)])
  }

  /** An item without notes is written without a "notes" key. */
  function EncodeItem(i: ItemJson): Json {
    match i.notes
    case None => JObject(map["title" := JString(i.title)])
    case Some(n) => JObject(map["title" := JString(i.title), "notes" := JString(n)])
  }

  function EncodeDay(d: DayJson): Json {
    JObject(map["label" := JString(d.dayLabel), "morning" := JString(d.morning),
                "afternoon" := JString(d.afternoon), "evening" := JString(d.evening)])
  }

  function EncodeEach<T>(xs: seq<T>, encode: T -> Json): (r: seq<Json>)
    ensures |r| == |xs| && forall i :: 0 <= i < |xs| ==> r[i] == encode(xs[i])
  {
    if xs == [] then [] else [encode(xs[0])] + EncodeEach(xs[1..], encode)
  }

  function EncodeTripJson(p: TripJson): Json {
    JObject(map[
      "destination" := JString(p.destination),
      "flight" := EncodeBooking(p.flight),
      "hotel" := EncodeBooking(p.hotel),
      "checklist" := JArray(EncodeEach(p.checklist, EncodeItem)),
      "mustSee" := JArray(EncodeEach(p.mustSee, EncodeItem)),
      "days" := JArray(EncodeEach(p.days, EncodeDay))])
  }

  /** Decoding an array of encoded elements gives the elements back. */
  lemma {:induction false} DecodeEachEncoded<T>(xs: seq<T>, encode: T -> Json, decode: Json -> Result<T, string>)
    requires forall x :: decode(encode(x)) == Ok(x)
    ensures DecodeEach(EncodeEach(xs, encode), decode) == Ok(xs)
  {
    if xs != [] {
      DecodeEachEncoded(xs[1..], encode, decode);
      assert EncodeEach(xs, encode)[1..] == EncodeEach(xs[1..], encode);
      assert xs == [xs[0]] + xs[1..];
    }
  }

  lemma DecodeEncodeBooking(b: BookingJson)
    ensures DecodeBooking(EncodeBooking(b)) == Ok(b)
  {
    var f := EncodeBooking(b).fields;
    assert StringField(f, "title") == Ok(b.title);
    assert StringField(f, "price") == Ok(b.price);
    assert StringField(f, "url") == Ok(b.url);
  }

  lemma DecodeEncodeItem(i: ItemJson)
    ensures DecodeItem(EncodeItem(i)) == Ok(i)
  {
    var f := EncodeItem(i).fields;
    assert StringField(f, "title") == Ok(i.title);
    assert OptionalStringField(f, "notes") == Ok(i.notes);
  }

  lemma DecodeEncodeDay(d: DayJson)
    ensures DecodeDay(EncodeDay(d)) == Ok(d)
  {
    var f := EncodeDay(d).fields;
    assert StringField(f, "label") == Ok(d.dayLabel);
    assert StringField(f, "morning") == Ok(d.morning);
    assert StringField(f, "afternoon") == Ok(d.afternoon);
    assert StringField(f, "evening") == Ok(d.evening);
  }

  /** What each key of an encoded `TripJSON` holds. */
  lemma EncodedTripFields(p: TripJson)
    ensures var f := EncodeTripJson(p).fields;
      && Field(f, "destination") == Ok(JString(p.destination))
      && Field(f, "flight") == Ok(EncodeBooking(p.flight))
      && Field(f, "hotel") == Ok(EncodeBooking(p.hotel))
      && Field(f, "checklist") == Ok(JArray(EncodeEach(p.checklist, EncodeItem)))
      && Field(f, "mustSee") == Ok(JArray(EncodeEach(p.mustSee, EncodeItem)))
      && Field(f, "days") == Ok(JArray(EncodeEach(p.days, EncodeDay)))
  {
  }

  /** Every value of the schema, written as the schema describes, decodes to itself. */
  lemma DecodeEncodeTripJson(p: TripJson)
    ensures DecodeTripJson(EncodeTripJson(p)) == Ok(p)
  {
    var f := EncodeTripJson(p).fields;
    EncodedTripFields(p);
    DecodeEncodeBooking(p.flight);
    DecodeEncodeBooking(p.hotel);
    assert ArrayField(f, "checklist", DecodeItem) == Ok(p.checklist) by {
      forall i: ItemJson ensures DecodeItem(EncodeItem(i)) == Ok(i) {
        DecodeEncodeItem(i);
      }
      DecodeEachEncoded(p.checklist, EncodeItem, DecodeItem);
    }
    assert ArrayField(f, "mustSee", DecodeItem) == Ok(p.mustSee) by {
      forall i: ItemJson ensures DecodeItem(EncodeItem(i)) == Ok(i) {
        DecodeEncodeItem(i);
      }
      DecodeEachEncoded(p.mustSee, EncodeItem, DecodeItem);
    }
    assert ArrayField(f, "days", DecodeDay) == Ok(p.days) by {
      forall d: DayJson ensures DecodeDay(EncodeDay(d)) == Ok(d) {
        DecodeEncodeDay(d);
      }
      DecodeEachEncoded(p.days, EncodeDay, DecodeDay);
    }
  }

  // ---------------------------------------------------------------------------
  // Classifying the reply

  const NoHttpResponse := "No HTTPURLResponse"
  const DecodeFailedPrefix := "Failed to decode AI JSON: "
  /** The description of the decoder's error when the text is not JSON at all. */
  const NotJsonDetail := "dataCorrupted"

  /** The outcome of one generation round trip, given the reply and the JSON
      parser the decoder runs on the content text. */
  function Classify(reply: Reply, parse: string -> Option<Json>): (r: Result<TripJson, Failure>)
    ensures r == Err(TripFailure(Network(NoHttpResponse))) <==> reply.NotHttp?
    ensures reply.TransportFailure? ==> r == Err(OtherFailure(reply.description))
    ensures (r.Err? && r.error.TripFailure? && r.error.error.BadStatus?)
            <==> reply.Http? && !IsSuccessStatus(reply.status)
    ensures reply.Http? && !IsSuccessStatus(reply.status)
            ==> r.error.error == BadStatus(reply.status, if reply.body.utf8.Some? then reply.body.utf8.value else "?")
    ensures r == Err(TripFailure(EmptyAIResponse))
            <==> && reply.Http? && IsSuccessStatus(reply.status) && reply.body.envelope.Ok?
                 && var choices := reply.body.envelope.value;
                    choices == [] || AllWhitespace(choices[0].content)
    ensures reply.Http? && IsSuccessStatus(reply.status) && reply.body.envelope.Err?
            ==> r == Err(OtherFailure(reply.body.envelope.error))
    ensures reply.Http? && IsSuccessStatus(reply.status) && reply.body.envelope.Ok?
            && FirstChoiceText(reply.body.envelope.value).Some?
            ==> var text := FirstChoiceText(reply.body.envelope.value).value;
                && ((parse(text).Some? && DecodeTripJson(parse(text).value).Ok?)
                      ==> r == Ok(DecodeTripJson(parse(text).value).value))
                && ((parse(text).None? || DecodeTripJson(parse(text).value).Err?)
                      ==> r.Err? && r.error.TripFailure? && r.error.error.JsonDecode?)
    ensures (r.Err? && r.error.TripFailure? && r.error.error.JsonDecode?)
            ==> |r.error.error.detail| >= |DecodeFailedPrefix|
                && r.error.error.detail[..|DecodeFailedPrefix|] == DecodeFailedPrefix
    ensures r.Ok? ==> && reply.Http? && IsSuccessStatus(reply.status) && reply.body.envelope.Ok?
                      && var choices := reply.body.envelope.value;
                         && choices != [] && !AllWhitespace(choices[0].content)
                         && parse(choices[0].content).Some?
                         && DecodeTripJson(parse(choices[0].content).value) == Ok(r.value)
  {
    match reply
    case TransportFailure(d) => Err(OtherFailure(d))
    case NotHttp => Err(TripFailure(Network(NoHttpResponse)))
    case Http(status, body) =>
      if !IsSuccessStatus(status) then
        Err(TripFailure(BadStatus(status, if body.utf8.Some? then body.utf8.value else "?")))
      else
        match body.envelope
        case Err(d) => Err(OtherFailure(d))
        case Ok(choices) =>
          match FirstChoiceText(choices)
          case None => Err(TripFailure(EmptyAIResponse))
          case Some(text) =>
            match parse(text)
            case None => Err(TripFailure(JsonDecode(DecodeFailedPrefix + NotJsonDetail)))
            case Some(j) =>
              match DecodeTripJson(j)
              case Err(d) => Err(TripFailure(JsonDecode(DecodeFailedPrefix + d)))
              case Ok(p) => Ok(p)
  }

  // ---------------------------------------------------------------------------
  // From TripJSON to Trip

  /** The identifiers a generated trip receives, one per entity. */
  datatype TripIds = TripIds(
    trip: Uuid,
    flight: Uuid,
    hotel: Uuid,
    checklist: seq<Uuid>,
    mustSee: seq<Uuid>,
    days: seq<Uuid>)

  predicate IdsFit(ids: TripIds, p: TripJson) {
    |ids.checklist| == |p.checklist| && |ids.mustSee| == |p.mustSee| && |ids.days| == |p.days|
  }

  /** All identifiers, in the order the source draws them. */
  function AllIds(ids: TripIds): seq<Uuid> {
    [ids.flight, ids.hotel] + ids.checklist + ids.mustSee + ids.days + [ids.trip]
  }

  function MapItem(item: ItemJson, id: Uuid, kind: ChecklistItemType): ChecklistItem {
    ChecklistItem(id, item.title, item.notes, None, false, kind)
  }

  /** `.map` over the decoded items: same length and order, titles and notes
      copied, not done, no link, tagged `kind`. */
  function MapItems(items: seq<ItemJson>, ids: seq<Uuid>, kind: ChecklistItemType): (r: seq<ChecklistItem>)
    requires |ids| == |items|
    ensures |r| == |items|
    ensures forall i :: 0 <= i < |r| ==> r[i] == MapItem(items[i], ids[i], kind)
  {
    if items == [] then [] else [MapItem(items[0], ids[0], kind)] + MapItems(items[1..], ids[1..], kind)
  }

  function MapDay(d: DayJson, id: Uuid): DayPlan {
    DayPlan(id, d.dayLabel, d.morning, d.afternoon, d.evening)
  }

  function MapDays(days: seq<DayJson>, ids: seq<Uuid>): (r: seq<DayPlan>)
    requires |ids| == |days|
    ensures |r| == |days|
    ensures forall i :: 0 <= i < |r| ==> r[i] == MapDay(days[i], ids[i])
  {
    if days == [] then [] else [MapDay(days[0], ids[0])] + MapDays(days[1..], ids[1..])
  }

  function MapTrip(p: TripJson, startDate: Date, endDate: Date, ids: TripIds): Trip
    requires IdsFit(ids, p)
  {
    Trip(
      ids.trip,
      p.destination,
      startDate,
      endDate,
      Some(BookingSuggestion(ids.flight, p.flight.title, p.flight.price, p.flight.url)),
      Some(BookingSuggestion(ids.hotel, p.hotel.title, p.hotel.price, p.hotel.url)),
      MapItems(p.checklist, ids.checklist, PreTrip),
      MapItems(p.mustSee, ids.mustSee, InTrip),
      MapDays(p.days, ids.days),
      None)
  }

  /** What a generated trip looks like: the caller's dates, the model's
      destination, both suggestions copied, every list as long and in the same
      order as the array it comes from, fresh items not done and without a link,
      checklist items `preTrip` and must-see items `inTrip`, no remote id. */
  lemma GeneratedTripShape(p: TripJson, startDate: Date, endDate: Date, ids: TripIds)
    requires IdsFit(ids, p)
    ensures var t := MapTrip(p, startDate, endDate, ids);
      && t.startDate == startDate && t.endDate == endDate
      && t.destination == p.destination
      && t.flightInfo.Some? && t.flightInfo.value.title == p.flight.title
      && t.flightInfo.value.priceEstimate == p.flight.price && t.flightInfo.value.url == p.flight.url
      && t.hotelInfo.Some? && t.hotelInfo.value.title == p.hotel.title
      && t.hotelInfo.value.priceEstimate == p.hotel.price && t.hotelInfo.value.url == p.hotel.url
      && t.remoteObjectId.None?
      && |t.checklist| == |p.checklist| && |t.mustSeeList| == |p.mustSee| && |t.dayByDayPlan| == |p.days|
      && (forall i :: 0 <= i < |t.checklist| ==>
            && t.checklist[i].title == p.checklist[i].title && t.checklist[i].notes == p.checklist[i].notes
            && !t.checklist[i].isDone && t.checklist[i].link.None? && t.checklist[i].itemType == PreTrip)
      && (forall i :: 0 <= i < |t.mustSeeList| ==>
            && t.mustSeeList[i].title == p.mustSee[i].title && t.mustSeeList[i].notes == p.mustSee[i].notes
            && !t.mustSeeList[i].isDone && t.mustSeeList[i].link.None? && t.mustSeeList[i].itemType == InTrip)
      && (forall i :: 0 <= i < |t.dayByDayPlan| ==>
            && t.dayByDayPlan[i].dateLabel == p.days[i].dayLabel && t.dayByDayPlan[i].morning == p.days[i].morning
            && t.dayByDayPlan[i].afternoon == p.days[i].afternoon && t.dayByDayPlan[i].evening == p.days[i].evening)
  {
  }

  // Reading a trip back as the JSON it came from.

  function ItemJsonOf(item: ChecklistItem): ItemJson {
    ItemJson(item.title, item.notes)
  }

  function DayJsonOf(d: DayPlan): DayJson {
    DayJson(d.dateLabel, d.morning, d.afternoon, d.evening)
  }

  function BookingJsonOf(b: Option<BookingSuggestion>): BookingJson {
    match b
    case Some(s) => BookingJson(s.title, s.priceEstimate, s.url)
    case None => BookingJson("", "", "")
  }

  function ItemsJsonOf(items: seq<ChecklistItem>): (r: seq<ItemJson>)
    ensures |r| == |items| && forall i :: 0 <= i < |r| ==> r[i] == ItemJsonOf(items[i])
  {
    if items == [] then [] else [ItemJsonOf(items[0])] + ItemsJsonOf(items[1..])
  }

  function DaysJsonOf(days: seq<DayPlan>): (r: seq<DayJson>)
    ensures |r| == |days| && forall i :: 0 <= i < |r| ==> r[i] == DayJsonOf(days[i])
  {
    if days == [] then [] else [DayJsonOf(days[0])] + DaysJsonOf(days[1..])
  }

  function TripJsonOf(t: Trip): TripJson {
    TripJson(t.destination, BookingJsonOf(t.flightInfo), BookingJsonOf(t.hotelInfo),
             ItemsJsonOf(t.checklist), ItemsJsonOf(t.mustSeeList), DaysJsonOf(t.dayByDayPlan))
  }

  /** The mapping loses nothing the model said: the decoded JSON can be read
      back from the generated trip. */
  lemma MapTripLosesNothing(p: TripJson, startDate: Date, endDate: Date, ids: TripIds)
    requires IdsFit(ids, p)
    ensures TripJsonOf(MapTrip(p, startDate, endDate, ids)) == p
  {
    var t := MapTrip(p, startDate, endDate, ids);
    assert ItemsJsonOf(t.checklist) == p.checklist;
    assert ItemsJsonOf(t.mustSeeList) == p.mustSee;
    assert DaysJsonOf(t.dayByDayPlan) == p.days;
  }

  /** The identifiers a trip carries, read back. */
  function IdsOf(t: Trip): TripIds {
    TripIds(
      t.id,
      if t.flightInfo.Some? then t.flightInfo.value.id else 0,
      if t.hotelInfo.Some? then t.hotelInfo.value.id else 0,
      seq(|t.checklist|, i requires 0 <= i < |t.checklist| => t.checklist[i].id),
      seq(|t.mustSeeList|, i requires 0 <= i < |t.mustSeeList| => t.mustSeeList[i].id),
      seq(|t.dayByDayPlan|, i requires 0 <= i < |t.dayByDayPlan| => t.dayByDayPlan[i].id))
  }

  /** A generated trip is determined by the JSON, the dates and its identifiers:
      decoding the same reply twice yields trips that differ only in identity. */
  lemma MapTripDeterminedByIds(p: TripJson, startDate: Date, endDate: Date, ids: TripIds)
    requires IdsFit(ids, p)
    ensures IdsOf(MapTrip(p, startDate, endDate, ids)) == ids
  {
  }

  /** One batch of fresh identifiers, handed out in the order the source draws
      them: flight, hotel, checklist items, must-see items, days, then the trip. */
  function SplitIds(p: TripJson, s: seq<Uuid>): (ids: TripIds)
    requires |s| == 3 + |p.checklist| + |p.mustSee| + |p.days|
    ensures IdsFit(ids, p)
  {
    var c, m, d := |p.checklist|, |p.mustSee|, |p.days|;
    TripIds(s[2 + c + m + d], s[0], s[1], s[2..2 + c], s[2 + c..2 + c + m], s[2 + c + m..2 + c + m + d])
  }

  lemma SplitIdsInOrder(p: TripJson, s: seq<Uuid>)
    requires |s| == 3 + |p.checklist| + |p.mustSee| + |p.days|
    ensures AllIds(SplitIds(p, s)) == s
  {
    var c, m, d := |p.checklist|, |p.mustSee|, |p.days|;
    var n := 2 + c + m + d;
    assert s[..2] == [s[0], s[1]];
    assert s[..2 + c] == s[..2] + s[2..2 + c];
    assert s[..2 + c + m] == s[..2 + c] + s[2 + c..2 + c + m];
    assert s[..n] == s[..2 + c + m] + s[2 + c + m..n];
    assert s == s[..n] + [s[n]];
  }

  // ---------------------------------------------------------------------------
  // The request and the whole call

  /** `user?.name ?? "Traveler"`: the name the prompt addresses. */
  function RequesterName(user: Option<UserProfile>): (r: string)
    ensures user.Some? ==> r == user.value.name
    ensures user.None? ==> r == "Traveler"
  {
    match user
    case Some(u) => u.name
    case None => "Traveler"
  }

  /** The variable part of the prompt; the fixed instructions, the model name and
      the temperature are constants of the request. */
  datatype TripRequest = TripRequest(userName: string, origin: string, destination: string, startDate: Date, endDate: Date)

  /** `t` is the trip mapped from `p` under identifiers that are pairwise
      distinct and none of which is in `issued`. */
  ghost predicate GeneratedFrom(t: Trip, p: TripJson, startDate: Date, endDate: Date, issued: set<Uuid>) {
    var tids := IdsOf(t);
    && IdsFit(tids, p)
    && t == MapTrip(p, startDate, endDate, tids)
    && (forall i, j :: 0 <= i < j < |AllIds(tids)| ==> AllIds(tids)[i] != AllIds(tids)[j])
    && (forall i :: 0 <= i < |AllIds(tids)| ==> AllIds(tids)[i] !in issued)
  }

  /** Every identifier a trip carries, as a set. */
  function IdSet(t: Trip): (r: set<Uuid>)
    ensures forall u :: u in r <==> u in AllIds(IdsOf(t))
  {
    set u | u in AllIds(IdsOf(t))
  }

  /** A generated trip's own id is fresh. */
  lemma GeneratedIdFresh(t: Trip, p: TripJson, startDate: Date, endDate: Date, issued: set<Uuid>)
    requires GeneratedFrom(t, p, startDate, endDate, issued)
    ensures t.id !in issued
  {
    var all := AllIds(IdsOf(t));
    assert all[|all| - 1] == t.id;
  }

  /** A trip mapped from one batch of distinct identifiers, none of them in
      `issued`, is generated from the JSON, and adding the batch to `issued`
      adds exactly the trip's identifiers. */
  lemma MappedFromFreshBatch(
    p: TripJson, startDate: Date, endDate: Date, s: seq<Uuid>, issued: set<Uuid>, issued': set<Uuid>)
    requires |s| == 3 + |p.checklist| + |p.mustSee| + |p.days|
    requires forall i, j :: 0 <= i < j < |s| ==> s[i] != s[j]
    requires forall i :: 0 <= i < |s| ==> s[i] !in issued
    requires forall u :: u in issued' <==> u in issued || u in s
    ensures var t := MapTrip(p, startDate, endDate, SplitIds(p, s));
      GeneratedFrom(t, p, startDate, endDate, issued) && issued' == issued + IdSet(t)
  {
    var tids := SplitIds(p, s);
    SplitIdsInOrder(p, s);
    MappedFromFreshIds(p, startDate, endDate, tids, issued);
    BatchAdds(issued, issued', s, IdSet(MapTrip(p, startDate, endDate, tids)));
  }

  /** A trip mapped under distinct identifiers outside `issued` is generated
      from the JSON, and carries exactly those identifiers. */
  lemma MappedFromFreshIds(p: TripJson, startDate: Date, endDate: Date, tids: TripIds, issued: set<Uuid>)
    requires IdsFit(tids, p)
    requires forall i, j :: 0 <= i < j < |AllIds(tids)| ==> AllIds(tids)[i] != AllIds(tids)[j]
    requires forall i :: 0 <= i < |AllIds(tids)| ==> AllIds(tids)[i] !in issued
    ensures GeneratedFrom(MapTrip(p, startDate, endDate, tids), p, startDate, endDate, issued)
    ensures AllIds(IdsOf(MapTrip(p, startDate, endDate, tids))) == AllIds(tids)
  {
    MapTripDeterminedByIds(p, startDate, endDate, tids);
  }

  /** Adding a batch to a set adds exactly the batch's elements. */
  lemma BatchAdds(issued: set<Uuid>, issued': set<Uuid>, s: seq<Uuid>, x: set<Uuid>)
    requires forall u :: u in issued' <==> u in issued || u in s
    requires forall u :: u in x <==> u in s
    ensures issued' == issued + x
  {
  }

  /** `TripAPIService.generateTrip`: builds the request, and on a reply that
      classifies as a decoded `TripJSON` returns the trip mapped from it, whose
      identifiers are all fresh and pairwise distinct; otherwise the failure. */
  method GenerateTrip(
    destination: string, startDate: Date, endDate: Date, departureCity: string,
    user: Option<UserProfile>, reply: Reply, parse: string -> Option<Json>,
    ids: Identity.UuidSource)
    returns (request: TripRequest, r: Result<Trip, Failure>)
    requires ids.Valid()
    modifies ids
    ensures ids.Valid()
    ensures request == TripRequest(RequesterName(user), departureCity, destination, startDate, endDate)
    ensures Classify(reply, parse).Err? ==> r == Err(Classify(reply, parse).error) && ids.issued == old(ids.issued)
    ensures Classify(reply, parse).Ok? ==>
      && r.Ok? && GeneratedFrom(r.value, Classify(reply, parse).value, startDate, endDate, old(ids.issued))
      && ids.issued == old(ids.issued) + IdSet(r.value)
  {
    request := TripRequest(RequesterName(user), departureCity, destination, startDate, endDate);
    var outcome := Classify(reply, parse);
    if outcome.Err? {
      r := Err(outcome.error);
      return;
    }
    var p := outcome.value;
    var s := ids.FreshIds(3 + |p.checklist| + |p.mustSee| + |p.days|);
    var trip := MapTrip(p, startDate, endDate, SplitIds(p, s));
    MappedFromFreshBatch(p, startDate, endDate, s, old(ids.issued), ids.issued);
    r := Ok(trip);
  }
}
