/**
 * The company server actions (app/actions/companies.ts): the join of company
 * rows with their linked specializations, and the create and update sequences
 * on an in-memory copy of the three tables. Every failure surfaces as one fixed
 * message; the steps already done before it stay done.
 */
module CompanyActions {
  import opened Wrappers
  import opened Records
  import opened Seqs
  import opened Links

  const FetchFailed := "Failed to fetch companies"
  const CreateFailed := "Failed to create company"
  const UpdateFailed := "Failed to update company"

  /** A row of consulting_companies, without the joined list. */
  datatype CompanyRow = CompanyRow(
    id: string,
    name: string,
    description: Option<string>,
    address: Option<string>,
    latitude: Option<real>,
    longitude: Option<real>,
    website: Option<string>,
    email: Option<string>,
    phone: Option<string>,
    createdAt: int,
    updatedAt: int)

  /** `{ ...company, specializations }`. */
  function WithSpecializations(row: CompanyRow, specs: seq<Specialization>): Company {
    Company(row.id, row.name, row.description, row.address, row.latitude, row.longitude,
      row.website, row.email, row.phone, row.createdAt, row.updatedAt, specs)
  }

  /** A link row with its embedded specialization, null when the join finds none. */
  datatype FetchedLink = FetchedLink(companyId: string, specialization: Option<Specialization>)

  /**
   * `companySpecs.filter(cs => cs.company_id === id).map(cs => cs.specializations).filter(Boolean)`:
   * the non-null specializations of the company's links, in link order.
   */
  function SpecsFor(links: seq<FetchedLink>, id: string): seq<Specialization> {
    if links == [] then []
    else if links[0].companyId == id && links[0].specialization.Some? then [links[0].specialization.value] + SpecsFor(links[1..], id)
    else SpecsFor(links[1..], id)
  }

  /** The `companies.map(company => ({ ...company, specializations }))` of `getCompanies`. */
  function JoinSpecializations(rows: seq<CompanyRow>, links: seq<FetchedLink>): (r: seq<Company>)
    ensures |r| == |rows|
    ensures forall i :: 0 <= i < |rows| ==> r[i] == WithSpecializations(rows[i], SpecsFor(links, rows[i].id))
  {
    seq(|rows|, i requires 0 <= i < |rows| => WithSpecializations(rows[i], SpecsFor(links, rows[i].id)))
  }

  /**
   * `getCompanies`, given the answers of the two reads; the link read happens only
   * when there are company rows.
   */
  function GetCompanies(companies: Result<seq<CompanyRow>>, links: Result<seq<FetchedLink>>): Result<seq<Company>> {
    if companies.Err? then Err(FetchFailed)
    else if |companies.value| == 0 then Ok([])
    else if links.Err? then Err(FetchFailed)
    else Ok(JoinSpecializations(companies.value, links.value))
  }

  /** A specialization is listed iff one of the company's links carries it. */
  lemma {:induction false} SpecsForMembership(links: seq<FetchedLink>, id: string, s: Specialization)
    ensures s in SpecsFor(links, id) <==> exists l :: l in links && l.companyId == id && l.specialization == Some(s)
  {
    if links != [] {
      SpecsForMembership(links[1..], id, s);
      assert forall l :: l in links <==> l == links[0] || l in links[1..];
    }
  }

  /** The list follows link order: links read later come later. */
  lemma {:induction false} SpecsForAppend(a: seq<FetchedLink>, b: seq<FetchedLink>, id: string)
    ensures SpecsFor(a + b, id) == SpecsFor(a, id) + SpecsFor(b, id)
  {
    if a == [] {
      assert a + b == b;
    } else {
      assert (a + b)[1..] == a[1..] + b;
      SpecsForAppend(a[1..], b, id);
    }
  }

  /** No company rows: the result is `[]` whatever the link table holds. */
  lemma GetCompaniesEmpty(links1: Result<seq<FetchedLink>>, links2: Result<seq<FetchedLink>>)
    ensures GetCompanies(Ok([]), links1) == GetCompanies(Ok([]), links2) == Ok([])
  {
  }

  /**
   * The result lists the rows in their order with their fields, each carrying the
   * specializations of its own links; any failed read gives the fixed message.
   */
  lemma GetCompaniesMeaning(companies: Result<seq<CompanyRow>>, links: Result<seq<FetchedLink>>)
    ensures var r := GetCompanies(companies, links);
      (r.Err? <==> companies.Err? || (|companies.value| > 0 && links.Err?))
      && (r.Err? ==> r.message == FetchFailed)
      && (r.Ok? ==> (|r.value| == |companies.value|
            && forall i :: 0 <= i < |r.value| ==>
                 var c, row := r.value[i], companies.value[i];
                 c.id == row.id && c.name == row.name && c.description == row.description
                 && c.address == row.address && c.latitude == row.latitude && c.longitude == row.longitude
                 && c.website == row.website && c.email == row.email && c.phone == row.phone
                 && c.createdAt == row.createdAt && c.updatedAt == row.updatedAt
                 && forall s :: s in c.specializations <==>
                      exists l :: l in links.value && l.companyId == row.id && l.specialization == Some(s)))
  {
    if companies.Ok? && |companies.value| > 0 && links.Ok? {
      forall i, s | 0 <= i < |companies.value|
        ensures s in SpecsFor(links.value, companies.value[i].id) <==>
          exists l :: l in links.value && l.companyId == companies.value[i].id && l.specialization == Some(s)
      {
        SpecsForMembership(links.value, companies.value[i].id, s);
      }
    }
  }

  /** The fields `createCompany` and `updateCompany` send; absent ones are left out of the request. */
  datatype CompanyInput = CompanyInput(
    name: string,
    description: Option<string>,
    address: Option<string>,
    latitude: Option<real>,
    longitude: Option<real>,
    website: Option<string>,
    email: Option<string>,
    phone: Option<string>,
    specializationIds: seq<string>)

  /** `Partial<CompanyInput>`. */
  datatype CompanyPatch = CompanyPatch(
    name: Option<string>,
    description: Option<string>,
    address: Option<string>,
    latitude: Option<real>,
    longitude: Option<real>,
    website: Option<string>,
    email: Option<string>,
    phone: Option<string>,
    specializationIds: Option<seq<string>>)

  /** The row the insert creates, with the id and timestamps the store assigns. */
  function NewRow(input: CompanyInput, id: string, now: int): CompanyRow {
    CompanyRow(id, input.name, input.description, input.address, input.latitude, input.longitude,
      input.website, input.email, input.phone, now, now)
  }

  /** A present field replaces the stored one, an absent one keeps it. */
  function Patched<T>(patch: Option<T>, stored: Option<T>): Option<T> {
    if patch.Some? then patch else stored
  }

  function ApplyPatch(row: CompanyRow, patch: CompanyPatch): CompanyRow {
    row.(name := patch.name.GetOr(row.name),
         description := Patched(patch.description, row.description),
         address := Patched(patch.address, row.address),
         latitude := Patched(patch.latitude, row.latitude),
         longitude := Patched(patch.longitude, row.longitude),
         website := Patched(patch.website, row.website),
         email := Patched(patch.email, row.email),
         phone := Patched(patch.phone, row.phone))
  }

  /** `.update(...).eq('id', id)` on the rows. */
  function UpdateRows(rows: seq<CompanyRow>, id: string, patch: CompanyPatch): (r: seq<CompanyRow>)
    ensures |r| == |rows|
    ensures forall i :: 0 <= i < |rows| ==> r[i] == if rows[i].id == id then ApplyPatch(rows[i], patch) else rows[i]
  {
    seq(|rows|, i requires 0 <= i < |rows| => if rows[i].id == id then ApplyPatch(rows[i], patch) else rows[i])
  }

  /** The store call that fails, if any, in the order the action makes them. */
  datatype CreateFault = NoCreateFault | CompanyInsertFails | LinkInsertFails | LinkReadFails
  datatype UpdateFault = NoUpdateFault | CompanyUpdateFails | LinkDeleteFails | LinkReplaceFails | LinkReadAfterUpdateFails

  /** The link rows with their specializations looked up, as the embedded select returns them. */
  function Resolve(links: seq<LinkRow>, specs: seq<Specialization>): (r: seq<FetchedLink>)
    ensures |r| == |links|
    ensures forall i :: 0 <= i < |links| ==> r[i].companyId == links[i].companyId
  {
    seq(|links|, i requires 0 <= i < |links| => FetchedLink(links[i].companyId, Lookup(specs, links[i].specializationId)))
  }

  /** The specialization with the id, if the table has one. */
  function Lookup(specs: seq<Specialization>, id: string): (r: Option<Specialization>)
    ensures r.Some? ==> r.value in specs && r.value.id == id
    ensures r.None? ==> forall s :: s in specs ==> s.id != id
  {
    if specs == [] then None else if specs[0].id == id then Some(specs[0]) else Lookup(specs[1..], id)
  }

  lemma ResolveAppend(a: seq<LinkRow>, b: seq<LinkRow>, specs: seq<Specialization>)
    ensures Resolve(a + b, specs) == Resolve(a, specs) + Resolve(b, specs)
  {
  }

  /** Links of other companies contribute nothing to a company's list. */
  lemma {:induction false} SpecsForOthers(links: seq<FetchedLink>, id: string)
    requires forall l :: l in links ==> l.companyId != id
    ensures SpecsFor(links, id) == []
  {
    if links != [] {
      SpecsForOthers(links[1..], id);
    }
  }

  /** The store: company rows, link rows, and the specialization table the joins read. */
  class CompanyStore {
    var rows: seq<CompanyRow>
    var links: seq<LinkRow>
    const specializations: seq<Specialization>

    constructor(specs: seq<Specialization>)
      ensures rows == [] && links == [] && specializations == specs
    {
      rows := [];
      links := [];
      specializations := specs;
    }

    /** What the select after a write returns for the company. */
    function SpecsOf(id: string): seq<Specialization>
      reads this
    {
      SpecsFor(Resolve(links, specializations), id)
    }

    /**
     * `createCompany`: insert the row, insert one link per id (none for an empty
     * list), read the links back. The id and time are the store's.
     */
    method CreateCompany(input: CompanyInput, newId: string, now: int, fault: CreateFault) returns (r: Result<Company>)
      modifies this
      ensures fault == CompanyInsertFails ==> r == Err(CreateFailed) && rows == old(rows) && links == old(links)
      ensures fault != CompanyInsertFails ==> rows == old(rows) + [NewRow(input, newId, now)]
      ensures fault == LinkInsertFails && |input.specializationIds| > 0 ==> r == Err(CreateFailed) && links == old(links)
      ensures (fault == NoCreateFault || fault == LinkReadFails || (fault == LinkInsertFails && |input.specializationIds| == 0)) ==>
        links == old(links) + LinkRowsFor(newId, input.specializationIds)
      ensures fault == LinkReadFails ==> r == Err(CreateFailed)
      ensures (fault == NoCreateFault || (fault == LinkInsertFails && |input.specializationIds| == 0)) ==>
        r == Ok(WithSpecializations(NewRow(input, newId, now), SpecsOf(newId)))
    {
      if fault == CompanyInsertFails {
        return Err(CreateFailed);
      }
      var row := NewRow(input, newId, now);
      rows := rows + [row];
      if |input.specializationIds| > 0 {
        if fault == LinkInsertFails {
          return Err(CreateFailed);
        }
        links := links + LinkRowsFor(newId, input.specializationIds);
      } else {
        assert links + LinkRowsFor(newId, input.specializationIds) == links;
      }
      if fault == LinkReadFails {
        return Err(CreateFailed);
      }
      r := Ok(WithSpecializations(row, SpecsOf(newId)));
    }

    /**
     * `updateCompany`: patch the row (an unknown id makes `.single()` fail), then,
     * when ids are given, delete the company's links and insert the new ones, and
     * read the links back.
     */
    method UpdateCompany(id: string, patch: CompanyPatch, fault: UpdateFault) returns (r: Result<Company>)
      modifies this
      ensures r.Err? ==> r.message == UpdateFailed
      ensures (fault == CompanyUpdateFails || forall row :: row in old(rows) ==> row.id != id) ==>
        r.Err? && rows == old(rows) && links == old(links)
      ensures r.Ok? ==> (rows == UpdateRows(old(rows), id, patch)
        && (patch.specializationIds.None? ==> links == old(links))
        && (patch.specializationIds.Some? ==> links == ReplaceLinks(old(links), id, patch.specializationIds.value))
        && exists row :: row in old(rows) && row.id == id
             && r.value == WithSpecializations(ApplyPatch(row, patch), SpecsOf(id)))
      ensures fault == NoUpdateFault && (exists row :: row in old(rows) && row.id == id) ==> r.Ok?
      ensures r.Ok? <==> ((exists row :: row in old(rows) && row.id == id)
        && (fault == NoUpdateFault
            || (fault == LinkDeleteFails && patch.specializationIds.None?)
            || (fault == LinkReplaceFails && (patch.specializationIds.None? || |patch.specializationIds.value| == 0))))
      // Once the row is patched, a later failure leaves the patch in place.
      ensures fault != CompanyUpdateFails && (exists row :: row in old(rows) && row.id == id) ==>
        rows == UpdateRows(old(rows), id, patch)
      ensures fault == LinkDeleteFails ==> links == old(links)
      ensures (fault == LinkReplaceFails && (exists row :: row in old(rows) && row.id == id)
        && patch.specializationIds.Some? && |patch.specializationIds.value| > 0) ==>
        links == Filter(old(links), NotOf(id))
      ensures fault == LinkReadAfterUpdateFails && (exists row :: row in old(rows) && row.id == id) ==>
        links == (if patch.specializationIds.None? then old(links)
                  else ReplaceLinks(old(links), id, patch.specializationIds.value))
    {
      var found := FindRow(rows, id);
      if fault == CompanyUpdateFails || found.None? {
        return Err(UpdateFailed);
      }
      var updated := ApplyPatch(found.value, patch);
      rows := UpdateRows(rows, id, patch);
      if patch.specializationIds.Some? {
        var ids := patch.specializationIds.value;
        if fault == LinkDeleteFails {
          return Err(UpdateFailed);
        }
        links := Filter(links, NotOf(id));
        if |ids| > 0 {
          if fault == LinkReplaceFails {
            return Err(UpdateFailed);
          }
          links := links + LinkRowsFor(id, ids);
        } else {
          assert links + LinkRowsFor(id, ids) == links;
        }
      }
      if fault == LinkReadAfterUpdateFails {
        return Err(UpdateFailed);
      }
      r := Ok(WithSpecializations(updated, SpecsOf(id)));
    }
  }

  /** The first row with the id, which `.single()` returns. */
  function FindRow(rows: seq<CompanyRow>, id: string): (r: Option<CompanyRow>)
    ensures r.Some? ==> r.value in rows && r.value.id == id
    ensures r.None? ==> forall row :: row in rows ==> row.id != id
  {
    if rows == [] then None else if rows[0].id == id then Some(rows[0]) else FindRow(rows[1..], id)
  }

  /**
   * A company created with a fresh id lists exactly the requested specializations
   * the table knows, in the order requested.
   */
  lemma CreatedSpecializations(links: seq<LinkRow>, specs: seq<Specialization>, newId: string, ids: seq<string>)
    requires forall l :: l in links ==> l.companyId != newId
    ensures SpecsFor(Resolve(links + LinkRowsFor(newId, ids), specs), newId) == KnownSpecs(specs, ids)
  {
    ResolveAppend(links, LinkRowsFor(newId, ids), specs);
    SpecsForAppend(Resolve(links, specs), Resolve(LinkRowsFor(newId, ids), specs), newId);
    forall l | l in Resolve(links, specs) ensures l.companyId != newId {
      var i :| 0 <= i < |links| && Resolve(links, specs)[i] == l;
      assert links[i] in links;
    }
    SpecsForOthers(Resolve(links, specs), newId);
    OwnLinks(specs, newId, ids);
  }

  /** The specializations of the ids, in order, skipping ids the table does not know. */
  function KnownSpecs(specs: seq<Specialization>, ids: seq<string>): seq<Specialization> {
    if ids == [] then []
    else
      var s := Lookup(specs, ids[0]);
      (if s.Some? then [s.value] else []) + KnownSpecs(specs, ids[1..])
  }

  lemma {:induction false} OwnLinks(specs: seq<Specialization>, id: string, ids: seq<string>)
    ensures SpecsFor(Resolve(LinkRowsFor(id, ids), specs), id) == KnownSpecs(specs, ids)
  {
    if ids != [] {
      OwnLinks(specs, id, ids[1..]);
      assert Resolve(LinkRowsFor(id, ids), specs)[1..] == Resolve(LinkRowsFor(id, ids[1..]), specs);
    }
  }
}
