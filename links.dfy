/**
 * The company_specializations link table as the server actions write it: one
 * row per requested specialization id, and the replacement of one company's
 * rows by a new list.
 */
module Links {
  import opened Records
  import opened Seqs

  /** `ids.map(specId => ({ company_id, specialization_id: specId }))`. */
  function LinkRowsFor(companyId: string, ids: seq<string>): (r: seq<LinkRow>)
    ensures |r| == |ids|
    ensures forall i :: 0 <= i < |ids| ==> r[i] == LinkRow(companyId, ids[i])
  {
    seq(|ids|, i requires 0 <= i < |ids| => LinkRow(companyId, ids[i]))
  }

  function BelongsTo(companyId: string): LinkRow -> bool {
    (l: LinkRow) => l.companyId == companyId
  }

  function NotOf(companyId: string): LinkRow -> bool {
    (l: LinkRow) => l.companyId != companyId
  }

  /** The rows `.eq('company_id', companyId)` selects, in table order. */
  function LinksOf(links: seq<LinkRow>, companyId: string): seq<LinkRow> {
    Filter(links, BelongsTo(companyId))
  }

  /** Delete the company's rows, then append one row per id. */
  function ReplaceLinks(links: seq<LinkRow>, companyId: string, ids: seq<string>): seq<LinkRow> {
    Filter(links, NotOf(companyId)) + LinkRowsFor(companyId, ids)
  }

  /** Rows built for a company all belong to it. */
  lemma LinkRowsForBelong(companyId: string, ids: seq<string>, other: string)
    ensures LinksOf(LinkRowsFor(companyId, ids), companyId) == LinkRowsFor(companyId, ids)
    ensures other != companyId ==> LinksOf(LinkRowsFor(companyId, ids), other) == []
  {
    FilterAll(LinkRowsFor(companyId, ids), BelongsTo(companyId));
    if other != companyId {
      FilterNone(LinkRowsFor(companyId, ids), BelongsTo(other));
    }
  }

  /**
   * After the replacement the company has exactly the new rows, in the order of
   * the ids, and every other company keeps its rows.
   */
  lemma ReplaceLinksMeaning(links: seq<LinkRow>, companyId: string, ids: seq<string>, other: string)
    ensures LinksOf(ReplaceLinks(links, companyId, ids), companyId) == LinkRowsFor(companyId, ids)
    ensures other != companyId ==> LinksOf(ReplaceLinks(links, companyId, ids), other) == LinksOf(links, other)
  {
    var kept := Filter(links, NotOf(companyId));
    var added := LinkRowsFor(companyId, ids);
    FilterAppend(kept, added, BelongsTo(companyId));
    var never := (l: LinkRow) => false;
    FilterFilter(links, NotOf(companyId), BelongsTo(companyId), never);
    FilterNone(links, never);
    LinkRowsForBelong(companyId, ids, other);
    if other != companyId {
      FilterAppend(kept, added, BelongsTo(other));
      FilterFilter(links, NotOf(companyId), BelongsTo(other), BelongsTo(other));
    }
  }
}
