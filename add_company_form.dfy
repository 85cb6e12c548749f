/**
 * The admin form for a new company (components/Admin/AddCompanyForm.tsx): the
 * specialization toggle, the geocoding preview, and the submit handler, which
 * reuses previewed coordinates and builds the company record. The geocoder's
 * and the store's answers are inputs. The handler's reset after a successful
 * create reads an event field React has already cleared; both the handler as
 * written and as intended are modelled.
 */
module AddCompanyForm {
  import opened Wrappers
  import opened Records
  import CompanyFilters
  import opened SupabaseCompanies

  const NotFound := "Adresse konnte nicht gefunden werden. Bitte überprüfe die Eingabe."
  const Created := "✅ Unternehmen erfolgreich hinzugefügt!"
  const UnknownError := "Unbekannter Fehler"

  /** The geocoder's search string. */
  function GeocodeQuery(city: string, address: string): string {
    address + ", " + city + ", Niedersachsen, Germany"
  }

  /**
   * `geocodeAddress`, given what the search answered: the first hit, or an error
   * when there is none; a failed request passes its error on.
   */
  function GeocodeAddress(hits: Outcome<seq<Coordinates>>): (r: Outcome<Coordinates>)
    ensures r.Done? <==> hits.Done? && |hits.value| > 0
    ensures r.Done? ==> r.value == hits.value[0]
    ensures hits.Done? && |hits.value| == 0 ==> r == Failed(Some(NotFound))
    ensures hits.Failed? ==> r == Failed(hits.error)
  {
    match hits
    case Failed(e) => Failed(e)
    case Done(list) => if |list| > 0 then Done(list[0]) else Failed(Some(NotFound))
  }

  /** The text inputs as `FormData` yields them. */
  datatype FormFields = FormFields(
    name: string,
    city: string,
    address: string,
    website: string,
    phone: string,
    email: string,
    description: string,
    employeeCount: string,
    foundedYear: string)

  /** `value || undefined`. */
  function OptionalText(s: string): (r: Option<string>)
    ensures r.None? <==> s == ""
    ensures r.Some? ==> r.value == s
  {
    if s == "" then None else Some(s)
  }

  /** `value ? parseInt(value) : undefined`; `parse` stands for `parseInt`, None for NaN. */
  function ParsedIfGiven(s: string, parse: string -> Option<int>): (r: Option<int>)
    ensures s == "" ==> r.None?
    ensures s != "" ==> r == parse(s)
  {
    if s == "" then None else parse(s)
  }

  /** `companyData`. */
  function CompanyData(form: FormFields, coords: Coordinates, selected: seq<string>, parse: string -> Option<int>): AdminInsert {
    AdminInsert(form.name, form.city, Some(form.address), Given(coords.lat), Given(coords.lng),
      OptionalText(form.website), OptionalText(form.phone), OptionalText(form.email), OptionalText(form.description),
      ParsedIfGiven(form.employeeCount, parse), ParsedIfGiven(form.foundedYear, parse), Some(selected))
  }

  /**
   * The record carries the coordinates and the selected ids; empty optional texts
   * are left out and the numbers are parsed only when given. It always passes the
   * create action's required-field check when name and city are filled in.
   */
  lemma CompanyDataMeaning(form: FormFields, coords: Coordinates, selected: seq<string>, parse: string -> Option<int>)
    ensures var d := CompanyData(form, coords, selected, parse);
      d.lat == Given(coords.lat) && d.lng == Given(coords.lng) && d.specializationIds == Some(selected)
      && (d.website.None? <==> form.website == "") && (d.phone.None? <==> form.phone == "")
      && (d.email.None? <==> form.email == "") && (d.description.None? <==> form.description == "")
      && (form.employeeCount == "" ==> d.employeeCount.None?)
      && (form.foundedYear == "" ==> d.foundedYear.None?)
      && (Insertable(d) <==> form.name != "" && form.city != "")
  {
  }

  datatype MessageKind = Success | Error
  datatype Message = Message(kind: MessageKind, text: string)

  class CompanyForm {
    var selectedSpecs: seq<string>
    var geocoding: bool
    var message: Option<Message>
    var coordinates: Option<Coordinates>

    constructor()
      ensures selectedSpecs == [] && !geocoding && message == None && coordinates == None
    {
      selectedSpecs := [];
      geocoding := false;
      message := None;
      coordinates := None;
    }

    /** `toggleSpecialization`: append an absent id, remove a present one. */
    method ToggleSpecialization(id: string)
      modifies this
      ensures selectedSpecs == CompanyFilters.Toggled(old(selectedSpecs), id)
      ensures forall x :: x in selectedSpecs <==> if x == id then id !in old(selectedSpecs) else x in old(selectedSpecs)
      ensures geocoding == old(geocoding) && message == old(message) && coordinates == old(coordinates)
    {
      CompanyFilters.ToggledMembership(selectedSpecs, id);
      selectedSpecs := CompanyFilters.Toggled(selectedSpecs, id);
    }

    /**
     * `handleGeocodePreview`: nothing happens when city or address is empty;
     * otherwise a hit replaces the coordinates and a failure is only logged.
     */
    method HandleGeocodePreview(city: string, address: string, hits: Outcome<seq<Coordinates>>)
      returns (query: Option<string>)
      modifies this
      ensures city == "" || address == "" ==> query == None && coordinates == old(coordinates) && geocoding == old(geocoding)
      ensures city != "" && address != "" ==> query == Some(GeocodeQuery(city, address)) && !geocoding
      ensures city != "" && address != "" && GeocodeAddress(hits).Done? ==> coordinates == Some(GeocodeAddress(hits).value)
      ensures GeocodeAddress(hits).Failed? ==> coordinates == old(coordinates)
      ensures selectedSpecs == old(selectedSpecs) && message == old(message)
    {
      if city == "" || address == "" {
        return None;
      }
      geocoding := true;
      query := Some(GeocodeQuery(city, address));
      var found := GeocodeAddress(hits);
      if found.Done? {
        coordinates := Some(found.value);
      }
      geocoding := false;
    }

    /**
     * `handleSubmit` as written. Previewed coordinates are used as they are, and
     * only without them is the address geocoded. The record is then handed to
     * the create mutation, and any failure becomes an error message. After a
     * successful create the success message is set, but the form reset reads
     * `e.currentTarget`, which React has cleared by the time the awaited
     * mutation returns: the TypeError (message `resetError`) is caught and
     * replaces the success message, and the selection, the coordinates and the
     * delayed `onSuccess` are never reached, although the company was created.
     * `notified` says whether `onSuccess` was scheduled.
     */
    method HandleSubmit(form: FormFields, hits: Outcome<seq<Coordinates>>, created: Outcome<AdminCompany>,
                        parse: string -> Option<int>, resetError: string)
      returns (query: Option<string>, sent: Option<AdminInsert>, notified: bool)
      modifies this
      ensures old(coordinates).Some? ==> (query == None
        && sent == Some(CompanyData(form, old(coordinates).value, old(selectedSpecs), parse)))
      ensures old(coordinates).None? ==> query == Some(GeocodeQuery(form.city, form.address))
      ensures old(coordinates).None? && GeocodeAddress(hits).Done? ==>
        sent == Some(CompanyData(form, GeocodeAddress(hits).value, old(selectedSpecs), parse))
      ensures old(coordinates).None? && GeocodeAddress(hits).Failed? ==> (sent == None
        && message == Some(Message(Error, "❌ Fehler: " + GeocodeAddress(hits).MessageOr(UnknownError))))
      ensures sent.Some? && created.Done? ==> message == Some(Message(Error, "❌ Fehler: " + resetError))
      ensures sent.Some? && created.Failed? ==>
        message == Some(Message(Error, "❌ Fehler: " + created.MessageOr(UnknownError)))
      ensures !notified
      ensures selectedSpecs == old(selectedSpecs) && coordinates == old(coordinates) && geocoding == old(geocoding)
    {
      message := None;
      notified := false;
      var coords := coordinates;
      query := None;
      if coords.None? {
        query := Some(GeocodeQuery(form.city, form.address));
        var found := GeocodeAddress(hits);
        if found.Failed? {
          message := Some(Message(Error, "❌ Fehler: " + found.MessageOr(UnknownError)));
          return query, None, false;
        }
        coords := Some(found.value);
      }
      var data := CompanyData(form, coords.value, selectedSpecs, parse);
      sent := Some(data);
      if created.Failed? {
        message := Some(Message(Error, "❌ Fehler: " + created.MessageOr(UnknownError)));
        return;
      }
      message := Some(Message(Success, Created));
      // `e.currentTarget.reset()` throws here; the catch replaces the message.
      message := Some(Message(Error, "❌ Fehler: " + resetError));
    }

    /**
     * `handleSubmit` as evidently intended, with the form element taken before
     * the first `await`: a successful create shows the success message, clears
     * the selection and the coordinates, and schedules `onSuccess`.
     */
    method HandleSubmitIntended(form: FormFields, hits: Outcome<seq<Coordinates>>, created: Outcome<AdminCompany>,
                                parse: string -> Option<int>)
      returns (query: Option<string>, sent: Option<AdminInsert>, notified: bool)
      modifies this
      ensures old(coordinates).Some? ==> (query == None
        && sent == Some(CompanyData(form, old(coordinates).value, old(selectedSpecs), parse)))
      ensures old(coordinates).None? ==> query == Some(GeocodeQuery(form.city, form.address))
      ensures old(coordinates).None? && GeocodeAddress(hits).Done? ==>
        sent == Some(CompanyData(form, GeocodeAddress(hits).value, old(selectedSpecs), parse))
      ensures old(coordinates).None? && GeocodeAddress(hits).Failed? ==> (sent == None
        && message == Some(Message(Error, "❌ Fehler: " + GeocodeAddress(hits).MessageOr(UnknownError)))
        && selectedSpecs == old(selectedSpecs) && coordinates == old(coordinates))
      ensures notified <==> sent.Some? && created.Done?
      ensures sent.Some? && created.Done? ==>
        (message == Some(Message(Success, Created)) && selectedSpecs == [] && coordinates == None)
      ensures sent.Some? && created.Failed? ==>
        (message == Some(Message(Error, "❌ Fehler: " + created.MessageOr(UnknownError)))
        && selectedSpecs == old(selectedSpecs) && coordinates == old(coordinates))
      ensures geocoding == old(geocoding)
    {
      message := None;
      notified := false;
      var coords := coordinates;
      query := None;
      if coords.None? {
        query := Some(GeocodeQuery(form.city, form.address));
        var found := GeocodeAddress(hits);
        if found.Failed? {
          message := Some(Message(Error, "❌ Fehler: " + found.MessageOr(UnknownError)));
          return query, None, false;
        }
        coords := Some(found.value);
      }
      var data := CompanyData(form, coords.value, selectedSpecs, parse);
      sent := Some(data);
      if created.Failed? {
        message := Some(Message(Error, "❌ Fehler: " + created.MessageOr(UnknownError)));
        return;
      }
      message := Some(Message(Success, Created));
      selectedSpecs := [];
      coordinates := None;
      notified := true;
    }
  }

  /**
   * A fresh form whose submit reaches a successful create: as written it ends
   * with an error message, the selection kept and `onSuccess` never scheduled;
   * as intended it ends with the success message, an empty selection and
   * `onSuccess` scheduled.
   */
  method SuccessfulCreate(form: FormFields, hit: Coordinates, created: AdminCompany, parse: string -> Option<int>,
                          specs: seq<string>, resetError: string)
    returns (asWritten: Option<Message>, keptSpecs: seq<string>, asWrittenNotified: bool,
             intended: Option<Message>, clearedSpecs: seq<string>, intendedNotified: bool)
    ensures asWritten == Some(Message(Error, "❌ Fehler: " + resetError)) && asWritten != Some(Message(Success, Created))
    ensures keptSpecs == specs && !asWrittenNotified
    ensures intended == Some(Message(Success, Created)) && clearedSpecs == [] && intendedNotified
  {
    var a := new CompanyForm();
    a.selectedSpecs := specs;
    var _, _, n1 := a.HandleSubmit(form, Done([hit]), Done(created), parse, resetError);
    asWritten, keptSpecs, asWrittenNotified := a.message, a.selectedSpecs, n1;
    var b := new CompanyForm();
    b.selectedSpecs := specs;
    var _, _, n2 := b.HandleSubmitIntended(form, Done([hit]), Done(created), parse);
    intended, clearedSpecs, intendedNotified := b.message, b.selectedSpecs, n2;
  }
}
