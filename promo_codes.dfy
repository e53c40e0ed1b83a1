/**
 * The promo-code page: a list that starts empty and grows by appending what the creation
 * form submits, a search box matched against each entry's name and code, and the two empty
 * states (no promo codes at all; no promo code matching the search).
 */
module PromoCodes {
  import opened Options
  import opened Seqs
  import opened Text

  /**
   * An entry of the list. The list's declared row type has a name and a code, but entries
   * arrive untyped, so either may be absent; the form submits no name at all.
   */
  datatype PromoEntry = PromoEntry(name: Option<string>, code: Option<string>, discount: string, influencer: Option<string>)

  /** What the creation form submits: a code, a discount and an influencer, with no name. */
  function FormEntry(code: string, discount: string, influencer: string): PromoEntry
  {
    PromoEntry(None, Some(code), discount, Some(influencer))
  }

  /** `field?.toLowerCase() ?? ''`: a missing field searches as the empty string. */
  function SearchText(field: Option<string>): (r: string)
    ensures field.None? ==> r == ""
    ensures field.Some? ==> r == Lower(field.value)
  {
    match field
    case None => ""
    case Some(s) => Lower(s)
  }

  /** The search predicate: the lowercased query occurs in the lowercased name or code. */
  predicate MatchesQuery(p: PromoEntry, query: string)
  {
    Includes(SearchText(p.name), Lower(query)) || Includes(SearchText(p.code), Lower(query))
  }

  /** `filteredPromoCodes` */
  function FilteredPromoCodes(promoCodes: seq<PromoEntry>, query: string): (r: seq<PromoEntry>)
    ensures |r| <= |promoCodes|
    ensures forall p :: p in r <==> p in promoCodes && MatchesQuery(p, query)
  {
    Filter(p => MatchesQuery(p, query), promoCodes)
  }

  /** The search keeps the entries it keeps in their list order. */
  lemma FilteredIsSubsequence(promoCodes: seq<PromoEntry>, query: string)
    ensures IsSubsequence(FilteredPromoCodes(promoCodes, query), promoCodes)
  {
    FilterIsSubsequence(p => MatchesQuery(p, query), promoCodes);
  }

  /** An empty search box shows every entry, even one with neither name nor code. */
  lemma EmptyQueryShowsAll(promoCodes: seq<PromoEntry>)
    ensures FilteredPromoCodes(promoCodes, "") == promoCodes
  {
    forall p | p in promoCodes
      ensures MatchesQuery(p, "")
    {
      assert OccursAt(SearchText(p.name), Lower(""), 0);
    }
    FilterKeepsAll(p => MatchesQuery(p, ""), promoCodes);
  }

  /** The search ignores the case of the query. */
  lemma QueryCaseIgnored(promoCodes: seq<PromoEntry>, query: string, query': string)
    requires Lower(query) == Lower(query')
    ensures FilteredPromoCodes(promoCodes, query) == FilteredPromoCodes(promoCodes, query')
  {
    FilterCongruent(p => MatchesQuery(p, query), p => MatchesQuery(p, query'), promoCodes);
  }

  /**
   * The search ignores the case of the fields too: two entries whose names and codes are
   * present alike and lower to the same text match every query alike.
   */
  lemma FieldCaseIgnored(p: PromoEntry, p': PromoEntry, query: string)
    requires p.name.Some? == p'.name.Some? && p.code.Some? == p'.code.Some?
    requires p.name.Some? ==> Lower(p.name.value) == Lower(p'.name.value)
    requires p.code.Some? ==> Lower(p.code.value) == Lower(p'.code.value)
    ensures MatchesQuery(p, query) == MatchesQuery(p', query)
  {
  }

  /** Nothing non-empty occurs in the empty string. */
  lemma NothingInEmpty(q: string)
    requires q != []
    ensures !Includes("", q)
  {
  }

  /**
   * A form-built entry has no name, so a non-empty query finds it only through its code;
   * typing its influencer's name finds nothing unless that text is also in the code.
   */
  lemma FormEntryMatchesByCodeOnly(code: string, discount: string, influencer: string, query: string)
    requires query != []
    ensures MatchesQuery(FormEntry(code, discount, influencer), query) <==> IncludesIgnoringCase(code, query)
  {
    NothingInEmpty(Lower(query));
  }

  /** What the page body shows. */
  datatype View =
    | NoPromoCodes              // the list is empty: the "no promo codes available" box
    | NoResults                 // the list is not empty but the search matches nothing
    | Rows(rows: seq<PromoEntry>)

  /** The page's choice between the empty box and the table, and the table's between rows and "No results found.". */
  function Render(promoCodes: seq<PromoEntry>, query: string): (v: View)
    ensures v == NoPromoCodes <==> promoCodes == []
    ensures v == NoResults <==> promoCodes != [] && forall p :: p in promoCodes ==> !MatchesQuery(p, query)
    ensures v.Rows? ==> v.rows != [] && v.rows == FilteredPromoCodes(promoCodes, query)
  {
    if |promoCodes| > 0 then
      var filtered := FilteredPromoCodes(promoCodes, query);
      if |filtered| > 0 then
        assert filtered[0] in filtered;
        Rows(filtered)
      else NoResults
    else NoPromoCodes
  }

  /** With an empty search box a non-empty list always shows every entry. */
  lemma EmptyQueryNeverNoResults(promoCodes: seq<PromoEntry>)
    requires promoCodes != []
    ensures Render(promoCodes, "") == Rows(promoCodes)
  {
    EmptyQueryShowsAll(promoCodes);
  }

  /** The page state. */
  class PromoCodesPage {
    var promoCodes: seq<PromoEntry>
    var isModalOpen: bool
    var searchQuery: string

    constructor ()
      ensures promoCodes == [] && !isModalOpen && searchQuery == ""
      ensures Body() == NoPromoCodes
    {
      promoCodes := [];
      isModalOpen := false;
      searchQuery := "";
    }

    /** What the page body shows for the current list and search. */
    function Body(): View
      reads this
    {
      Render(promoCodes, searchQuery)
    }

    /**
     * `handleAddPromoCode`: appends the entry as it is. There is no duplicate check and no
     * validation, so the same entry added twice is listed twice.
     */
    method HandleAddPromoCode(promoCode: PromoEntry)
      modifies this
      ensures promoCodes == old(promoCodes) + [promoCode]
      ensures isModalOpen == old(isModalOpen) && searchQuery == old(searchQuery)
      ensures Body() != NoPromoCodes
    {
      promoCodes := promoCodes + [promoCode];
    }

    /** The form's submit: the entry it builds is appended and the dialog closes. */
    method SubmitForm(code: string, discount: string, influencer: string)
      modifies this
      ensures promoCodes == old(promoCodes) + [FormEntry(code, discount, influencer)]
      ensures !isModalOpen && searchQuery == old(searchQuery)
    {
      HandleAddPromoCode(FormEntry(code, discount, influencer));
      isModalOpen := false;
    }
  }
}
