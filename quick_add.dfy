/**
 * The quick-add endpoint (app/api/companies/quick-add/route.ts): the
 * required-field check, the stored address, the row and link construction, and
 * the status of each way the handler can end. The body parse, the geocoder and
 * the two inserts are inputs.
 */
module QuickAdd {
  import opened Wrappers
  import opened Records
  import opened Links

  /** The JSON body's fields; `specializations` is None when absent or not an array. */
  datatype Body = Body(
    name: Option<string>,
    city: Option<string>,
    address: Option<string>,
    description: Option<string>,
    email: Option<string>,
    phone: Option<string>,
    website: Option<string>,
    specializations: Option<seq<string>>)

  /** The row the endpoint inserts, with the store's id. */
  datatype QuickAddRow = QuickAddRow(
    id: string,
    name: string,
    city: string,
    address: string,
    latitude: real,
    longitude: real,
    description: string,
    email: string,
    phone: string,
    website: Option<string>)

  /** The JSON answer with its HTTP status; absent keys are None. */
  datatype Response = Response(
    status: int,
    success: Option<bool>,
    error: Option<string>,
    details: Option<string>,
    message: Option<string>,
    company: Option<QuickAddRow>,
    coordinates: Option<Coordinates>)

  const MissingFields := "Pflichtfelder fehlen: name, city, address, email"
  const InternalError := "Interner Serverfehler"
  const DatabaseError := "Datenbankfehler"
  const UnknownError := "Unbekannter Fehler"

  /** `!name || !city || !address || !email` fails. */
  predicate HasRequired(body: Body) {
    TruthyText(body.name) && TruthyText(body.city) && TruthyText(body.address) && TruthyText(body.email)
  }

  /** `fullAddress`: the address the geocoder gets and the row stores. */
  function FullAddress(address: string, city: string): string {
    address + ", " + city + ", Niedersachsen, Deutschland"
  }

  function NewRow(body: Body, id: string, coords: Coordinates): QuickAddRow
    requires HasRequired(body)
  {
    QuickAddRow(id, body.name.value, body.city.value, FullAddress(body.address.value, body.city.value),
      coords.lat, coords.lng, TextOr(body.description, ""), body.email.value, TextOr(body.phone, ""),
      if TruthyText(body.website) then body.website else None)
  }

  /** The stored row: the full address, '' for a missing description or phone, null for a missing website. */
  lemma NewRowMeaning(body: Body, id: string, coords: Coordinates)
    requires HasRequired(body)
    ensures var row := NewRow(body, id, coords);
      row.address == FullAddress(body.address.value, body.city.value)
      && (!TruthyText(body.description) ==> row.description == "")
      && (TruthyText(body.description) ==> row.description == body.description.value)
      && (!TruthyText(body.phone) ==> row.phone == "")
      && (TruthyText(body.phone) ==> row.phone == body.phone.value)
      && (row.website.None? <==> !TruthyText(body.website))
      && row.latitude == coords.lat && row.longitude == coords.lng
  {
  }

  /** Whether the endpoint inserts links: a non-empty array was sent. */
  predicate SendsLinks(body: Body) {
    body.specializations.Some? && |body.specializations.value| > 0
  }

  class QuickAddStore {
    var rows: seq<QuickAddRow>
    var links: seq<LinkRow>

    constructor()
      ensures rows == [] && links == []
    {
      rows := [];
      links := [];
    }

    /**
     * `POST`. A missing required field gives 400 before any geocoding or insert;
     * an unreadable body, a failed geocoding or a failed insert gives 500; a failed
     * link insert is only logged and the answer is still 201.
     */
    method Post(body: Result<Body>, geocoded: Outcome<Coordinates>, newId: string, insertError: Option<string>, linkInsertFails: bool)
      returns (response: Response, query: Option<string>)
      modifies this
      ensures body.Err? ==> (response == Response(500, None, Some(InternalError), Some(body.message), None, None, None)
        && query == None && rows == old(rows) && links == old(links))
      ensures body.Ok? && !HasRequired(body.value) ==>
        (response == Response(400, None, Some(MissingFields), None, None, None, None)
        && query == None && rows == old(rows) && links == old(links))
      ensures body.Ok? && HasRequired(body.value) && geocoded.Failed? ==>
        response == Response(500, None, Some(InternalError), Some(geocoded.MessageOr(UnknownError)), None, None, None)
      ensures body.Ok? && HasRequired(body.value) && geocoded.Done? && insertError.Some? ==>
        response == Response(500, None, Some(DatabaseError), insertError, None, None, None)
      ensures body.Ok? && HasRequired(body.value) ==>
        query == Some(FullAddress(body.value.address.value, body.value.city.value))
      ensures response.status == 500 && body.Ok? ==> rows == old(rows) && links == old(links)
      ensures response.status == 201 <==> body.Ok? && HasRequired(body.value) && geocoded.Done? && insertError.None?
      ensures response.status == 201 ==>
        var row := NewRow(body.value, newId, geocoded.value);
        rows == old(rows) + [row] && response.company == Some(row)
        && response.success == Some(true) && response.coordinates == Some(geocoded.value)
        && response.error == None && response.details == None
        && response.message == Some("Unternehmen \"" + body.value.name.value + "\" erfolgreich hinzugefügt")
        && (SendsLinks(body.value) && !linkInsertFails ==> links == old(links) + LinkRowsFor(newId, body.value.specializations.value))
        && (!SendsLinks(body.value) || linkInsertFails ==> links == old(links))
      ensures response.status in {201, 400, 500}
    {
      query := None;
      if body.Err? {
        return Response(500, None, Some(InternalError), Some(body.message), None, None, None), None;
      }
      var b := body.value;
      if !HasRequired(b) {
        return Response(400, None, Some(MissingFields), None, None, None, None), None;
      }
      var fullAddress := FullAddress(b.address.value, b.city.value);
      query := Some(fullAddress);
      if geocoded.Failed? {
        return Response(500, None, Some(InternalError), Some(geocoded.MessageOr(UnknownError)), None, None, None), query;
      }
      if insertError.Some? {
        return Response(500, None, Some(DatabaseError), insertError, None, None, None), query;
      }
      var row := NewRow(b, newId, geocoded.value);
      rows := rows + [row];
      if SendsLinks(b) && !linkInsertFails {
        links := links + LinkRowsFor(row.id, b.specializations.value);
      }
      response := Response(201, Some(true), None, None, Some("Unternehmen \"" + b.name.value + "\" erfolgreich hinzugefügt"),
        Some(row), Some(geocoded.value));
    }
  }
}
