/**
 * The four figures of the stats cards (components/StatsCards.tsx): the number
 * of companies, of distinct cities, of distinct linked specializations, and the
 * total head count.
 */
module StatsCards {
  import opened Wrappers
  import opened Records
  import opened Seqs

  datatype Stats = Stats(totalCompanies: nat, uniqueCities: nat, uniqueSpecs: nat, totalEmployees: int)

  /** One company's linked ids, `[]` when the join is missing. */
  function LinkedIdsOf(c: AdminCompany): seq<string> {
    match c.companySpecializations
    case None => []
    case Some(specs) => seq(|specs|, j requires 0 <= j < |specs| => specs[j].id)
  }

  /** The `flatMap` over the companies' linked specialization ids. */
  function LinkedIds(companies: seq<AdminCompany>): seq<string> {
    if companies == [] then [] else LinkedIds(companies[..|companies| - 1]) + LinkedIdsOf(companies[|companies| - 1])
  }

  /** The `reduce` adding up `employee_count || 0`. */
  function Employees(companies: seq<AdminCompany>): int {
    if companies == [] then 0 else Employees(companies[..|companies| - 1]) + companies[|companies| - 1].employeeCount.GetOr(0)
  }

  /** The `stats` memo. */
  function ComputeStats(companies: seq<AdminCompany>): Stats {
    Stats(|companies|, |Dedup(CompanyCities(companies))|, |Dedup(LinkedIds(companies))|, Employees(companies))
  }

  /** A company has the specialization id when its join is present and lists it. */
  predicate Links(c: AdminCompany, id: string) {
    c.companySpecializations.Some? && exists s :: s in c.companySpecializations.value && s.id == id
  }

  lemma {:induction false} LinkedIdsMembership(companies: seq<AdminCompany>, id: string)
    ensures id in LinkedIds(companies) <==> exists c :: c in companies && Links(c, id)
  {
    if companies != [] {
      var init, last := companies[..|companies| - 1], companies[|companies| - 1];
      LinkedIdsMembership(init, id);
      assert companies == init + [last];
      if id in LinkedIdsOf(last) {
        var j :| 0 <= j < |LinkedIdsOf(last)| && LinkedIdsOf(last)[j] == id;
        assert last.companySpecializations.value[j] in last.companySpecializations.value;
      }
      if Links(last, id) {
        var s :| s in last.companySpecializations.value && s.id == id;
        var j :| 0 <= j < |last.companySpecializations.value| && last.companySpecializations.value[j] == s;
        assert LinkedIdsOf(last)[j] == id;
      }
    }
  }

  lemma CitiesAsSet(companies: seq<AdminCompany>)
    ensures (set x | x in CompanyCities(companies)) == (set c | c in companies :: c.city)
  {
    forall x | x in (set c | c in companies :: c.city) ensures x in CompanyCities(companies) {
      var c :| c in companies && c.city == x;
      var i :| 0 <= i < |companies| && companies[i] == c;
      assert CompanyCities(companies)[i] == x;
    }
  }

  /**
   * `totalCompanies` is the number of companies; `uniqueCities` is the number of
   * distinct cities and never exceeds it; `uniqueSpecs` is the number of distinct
   * ids linked to any company, a missing join counting as no links.
   */
  lemma StatsMeaning(companies: seq<AdminCompany>)
    ensures var r := ComputeStats(companies);
      r.totalCompanies == |companies|
      && r.uniqueCities == |set c | c in companies :: c.city|
      && r.uniqueCities <= r.totalCompanies
      && r.uniqueSpecs == |set id | id in LinkedIds(companies)|
      && forall id :: id in LinkedIds(companies) <==> exists c :: c in companies && Links(c, id)
  {
    DedupCardinality(CompanyCities(companies));
    CitiesAsSet(companies);
    DedupFacts(CompanyCities(companies));
    DedupCardinality(LinkedIds(companies));
    forall id ensures id in LinkedIds(companies) <==> exists c :: c in companies && Links(c, id) {
      LinkedIdsMembership(companies, id);
    }
  }

  /** The head count is additive over concatenated lists. */
  lemma {:induction false} EmployeesAppend(a: seq<AdminCompany>, b: seq<AdminCompany>)
    ensures Employees(a + b) == Employees(a) + Employees(b)
  {
    if b != [] {
      var ab := a + b;
      assert ab[..|ab| - 1] == a + b[..|b| - 1];
      EmployeesAppend(a, b[..|b| - 1]);
    } else {
      assert a + b == a;
    }
  }

  /** Companies without an employee count add nothing to the head count. */
  lemma {:induction false} EmployeesIgnoreMissing(companies: seq<AdminCompany>)
    ensures Employees(companies) == Employees(Filter(companies, (c: AdminCompany) => c.employeeCount.Some?))
  {
    var p := (c: AdminCompany) => c.employeeCount.Some?;
    if companies != [] {
      var init, last := companies[..|companies| - 1], companies[|companies| - 1];
      assert companies == init + [last];
      EmployeesIgnoreMissing(init);
      FilterAppend(init, [last], p);
      EmployeesAppend(Filter(init, p), Filter([last], p));
      assert Employees([last]) == last.employeeCount.GetOr(0) by {
        assert [last][..0] == [];
      }
    }
  }

  /** No companies: all four figures are 0. */
  lemma StatsEmpty()
    ensures ComputeStats([]) == Stats(0, 0, 0, 0)
  {
    assert CompanyCities([]) == [];
  }
}
