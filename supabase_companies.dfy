/**
 * The admin server actions (app/actions/supabase-companies.ts): create with its
 * required-field check and the split of the specialization ids from the row,
 * update with link replacement, and the statistics counted with `reduce`.
 * Failed link writes are only logged here, so they leave the action successful.
 */
module SupabaseCompanies {
  import opened Wrappers
  import opened Records
  import opened Seqs
  import opened Links

  const MissingFields := "Name, Stadt und Koordinaten sind Pflichtfelder"

  /** `CompanyInsert & { specialization_ids? }` as the admin form sends it. */
  datatype AdminInsert = AdminInsert(
    name: string,
    city: string,
    address: Option<string>,
    lat: Field<real>,
    lng: Field<real>,
    website: Option<string>,
    phone: Option<string>,
    email: Option<string>,
    description: Option<string>,
    employeeCount: Option<int>,
    foundedYear: Option<int>,
    specializationIds: Option<seq<string>>)

  /**
   * The guard: name and city non-empty, and neither coordinate left out. A
   * coordinate sent as `null` passes (`=== undefined` is false for it) and is
   * stored as null.
   */
  predicate Insertable(data: AdminInsert) {
    data.name != "" && data.city != "" && !data.lat.Undefined? && !data.lng.Undefined?
  }

  /** `insertData`: the payload without `specialization_ids`, as the row the insert returns. */
  function InsertRow(data: AdminInsert, id: string): AdminCompany {
    AdminCompany(id, data.name, data.city, data.address, data.lat.Stored(), data.lng.Stored(), data.website,
      data.phone, data.email, data.description, data.employeeCount, data.foundedYear, None)
  }

  /**
   * The guard refuses only coordinates that are left out: a company whose
   * coordinates are sent as `null` is accepted and stored without a position.
   */
  lemma NullCoordinatesAccepted(data: AdminInsert, id: string)
    requires data.name != "" && data.city != ""
    ensures data.lat.Undefined? || data.lng.Undefined? ==> !Insertable(data)
    ensures data.lat.Null? && data.lng.Null? ==>
      Insertable(data) && InsertRow(data, id).lat.None? && InsertRow(data, id).lng.None?
    ensures data.lat.Given? && data.lng.Given? ==>
      Insertable(data) && InsertRow(data, id).lat == Some(data.lat.value) && InsertRow(data, id).lng == Some(data.lng.value)
  {
  }

  /**
   * `CompanyUpdate & { specialization_ids? }`: left-out fields are not sent, and
   * every field that is sent, `null` included, reaches the row, since the action
   * passes the rest of the object on whole.
   */
  datatype AdminPatch = AdminPatch(
    name: Option<string>,
    city: Option<string>,
    address: Field<string>,
    lat: Field<real>,
    lng: Field<real>,
    website: Field<string>,
    phone: Field<string>,
    email: Field<string>,
    description: Field<string>,
    employeeCount: Field<int>,
    foundedYear: Field<int>,
    specializationIds: Field<seq<string>>)

  /** A nullable column after the update: kept when left out, else what was sent. */
  function Patched<T>(patch: Field<T>, stored: Option<T>): (r: Option<T>)
    ensures patch.Undefined? ==> r == stored
    ensures !patch.Undefined? ==> r == patch.Stored()
  {
    if patch.Undefined? then stored else patch.Stored()
  }

  function ApplyPatch(row: AdminCompany, patch: AdminPatch): AdminCompany {
    row.(name := patch.name.GetOr(row.name),
         city := patch.city.GetOr(row.city),
         address := Patched(patch.address, row.address),
         lat := Patched(patch.lat, row.lat),
         lng := Patched(patch.lng, row.lng),
         website := Patched(patch.website, row.website),
         phone := Patched(patch.phone, row.phone),
         email := Patched(patch.email, row.email),
         description := Patched(patch.description, row.description),
         employeeCount := Patched(patch.employeeCount, row.employeeCount),
         foundedYear := Patched(patch.foundedYear, row.foundedYear))
  }

  function UpdateRows(rows: seq<AdminCompany>, id: string, patch: AdminPatch): (r: seq<AdminCompany>)
    ensures |r| == |rows|
    ensures forall i :: 0 <= i < |rows| ==> r[i] == if rows[i].id == id then ApplyPatch(rows[i], patch) else rows[i]
  {
    seq(|rows|, i requires 0 <= i < |rows| => if rows[i].id == id then ApplyPatch(rows[i], patch) else rows[i])
  }

  /** The admin tables: company rows and link rows. */
  class AdminStore {
    var rows: seq<AdminCompany>
    var links: seq<LinkRow>

    constructor()
      ensures rows == [] && links == []
    {
      rows := [];
      links := [];
    }

    /**
     * `createSupabaseCompany`. `insertError` is the insert's answer and
     * `linkInsertFails` the link insert's; the id is the store's.
     */
    method CreateSupabaseCompany(data: AdminInsert, newId: string, insertError: Option<string>, linkInsertFails: bool)
      returns (r: Result<AdminCompany>)
      modifies this
      ensures !Insertable(data) ==> r == Err(MissingFields) && rows == old(rows) && links == old(links)
      ensures Insertable(data) && insertError.Some? ==>
        r == Err("Fehler beim Erstellen: " + insertError.value) && rows == old(rows) && links == old(links)
      ensures Insertable(data) && insertError.None? ==>
        r == Ok(InsertRow(data, newId)) && rows == old(rows) + [InsertRow(data, newId)]
      ensures Insertable(data) && insertError.None? && !linkInsertFails && data.specializationIds.Some? ==>
        links == old(links) + LinkRowsFor(newId, data.specializationIds.value)
      ensures linkInsertFails || data.specializationIds.None? ==> links == old(links)
    {
      if !Insertable(data) {
        return Err(MissingFields);
      }
      if insertError.Some? {
        return Err("Fehler beim Erstellen: " + insertError.value);
      }
      var row := InsertRow(data, newId);
      rows := rows + [row];
      if data.specializationIds.Some? && |data.specializationIds.value| > 0 {
        if !linkInsertFails {
          links := links + LinkRowsFor(newId, data.specializationIds.value);
        }
      } else if data.specializationIds.Some? {
        assert links + LinkRowsFor(newId, data.specializationIds.value) == links;
      }
      r := Ok(row);
    }

    /**
     * `updateSupabaseCompany`. Only the row update's error is reported; the
     * delete and the insert of links are not checked. Ids sent as `null` pass
     * the `!== undefined` test, the company's links are deleted, and then
     * `null.length` throws a TypeError (message `typeError`), leaving the row
     * patched and the company without links.
     */
    method UpdateSupabaseCompany(id: string, patch: AdminPatch, updateError: Option<string>, deleteFails: bool,
                                 insertFails: bool, typeError: string)
      returns (r: Result<()>)
      modifies this
      ensures updateError.Some? ==>
        r == Err("Fehler beim Aktualisieren: " + updateError.value) && rows == old(rows) && links == old(links)
      ensures updateError.None? ==> rows == UpdateRows(old(rows), id, patch)
      ensures updateError.None? ==> (r == Ok(()) <==> !patch.specializationIds.Null?)
      ensures updateError.None? && patch.specializationIds.Null? ==> r == Err(typeError)
      ensures updateError.None? && patch.specializationIds.Undefined? ==> links == old(links)
      ensures updateError.None? && patch.specializationIds.Given? && !deleteFails && !insertFails ==>
        links == ReplaceLinks(old(links), id, patch.specializationIds.value)
      // A failed delete keeps the old links; a failed insert adds nothing.
      ensures updateError.None? && patch.specializationIds.Given? && deleteFails && !insertFails ==>
        links == old(links) + LinkRowsFor(id, patch.specializationIds.value)
      ensures updateError.None? && patch.specializationIds.Given? && !deleteFails && insertFails ==>
        links == Filter(old(links), NotOf(id))
      ensures updateError.None? && patch.specializationIds.Given? && deleteFails && insertFails ==>
        links == old(links)
      ensures updateError.None? && patch.specializationIds.Null? ==>
        links == if deleteFails then old(links) else Filter(old(links), NotOf(id))
    {
      if updateError.Some? {
        return Err("Fehler beim Aktualisieren: " + updateError.value);
      }
      rows := UpdateRows(rows, id, patch);
      if patch.specializationIds.Null? {
        // The delete is awaited before `specialization_ids.length` is read.
        if !deleteFails {
          links := Filter(links, NotOf(id));
        }
        return Err(typeError);
      }
      if patch.specializationIds.Given? {
        var ids := patch.specializationIds.value;
        if !deleteFails {
          links := Filter(links, NotOf(id));
        }
        if |ids| > 0 {
          if !insertFails {
            links := links + LinkRowsFor(id, ids);
          }
        } else {
          assert links + LinkRowsFor(id, ids) == links;
        }
      }
      r := Ok(());
    }
  }

  /** The `reduce` that counts `acc[key] = (acc[key] || 0) + 1`. */
  method Tally(keys: seq<string>) returns (counts: map<string, nat>)
    ensures counts == CountMap(keys)
  {
    assert CountMap<string>([]) == map[];
    var order;
    counts, order := CountInto(map[], [], keys, []);
    assert [] + keys == keys;
  }

  /** Every counted key occurs, with its number of occurrences, and the counts add up to the number of entries. */
  lemma TallyMeaning(keys: seq<string>)
    ensures var m := CountMap(keys);
      (forall k :: k in m <==> k in keys)
      && (forall k :: k in m ==> m[k] == Occ(keys, k) && m[k] >= 1)
      && SumOcc(Dedup(keys), keys) == |keys|
  {
    DedupFacts(keys);
    SumOccCoversAll(Dedup(keys), keys);
    forall k | k in keys ensures Occ(keys, k) >= 1 {
      OccPresent(keys, k);
    }
  }

  lemma {:induction false} OccPresent(keys: seq<string>, k: string)
    requires k in keys
    ensures Occ(keys, k) >= 1
  {
    var init := keys[..|keys| - 1];
    if keys[|keys| - 1] != k {
      assert keys == init + [keys[|keys| - 1]];
      OccPresent(init, k);
    }
  }

  datatype SupabaseStats = SupabaseStats(totalCompanies: nat, citiesCount: map<string, nat>, specializationsCount: map<string, nat>)

  /**
   * `getSupabaseStats`, given the head count, the city column, and the name of
   * the specialization behind each link row; a failed read is missing and counts
   * as 0 or `{}`.
   */
  method GetSupabaseStats(count: Option<nat>, cities: Option<seq<string>>, specNames: Option<seq<string>>)
    returns (stats: SupabaseStats)
    ensures stats.totalCompanies == count.GetOr(0)
    ensures stats.citiesCount == if cities.Some? then CountMap(cities.value) else map[]
    ensures stats.specializationsCount == if specNames.Some? then CountMap(specNames.value) else map[]
  {
    var citiesCount: map<string, nat> := map[];
    if cities.Some? {
      citiesCount := Tally(cities.value);
    }
    var specializationsCount: map<string, nat> := map[];
    if specNames.Some? {
      specializationsCount := Tally(specNames.value);
    }
    stats := SupabaseStats(count.GetOr(0), citiesCount, specializationsCount);
  }
}
