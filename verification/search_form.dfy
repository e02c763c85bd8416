/** The search form: two free-text inputs, trimmed and both required before a search is
    started. */
module SearchForm {
  import opened Common
  import opened Interaction
  import HomePage

  /** The arguments handed to `onSearch`: location first, then business type. */
  datatype Query = Query(location: string, businessType: string)

  /** `handleSubmit`: `Some(query)` is the `onSearch` call; `None` means nothing happens. */
  function Submit(location: string, businessType: string): (r: Option<Query>)
    ensures r.Some? <==> !Blank(location) && !Blank(businessType)
    ensures r.Some? ==> r.value == Query(Trim(location), Trim(businessType))
    ensures r.Some? ==> r.value.location != "" && r.value.businessType != ""
  {
    if !Blank(location) && !Blank(businessType) then Some(Query(Trim(location), Trim(businessType)))
    else None
  }

  /** The submit button is disabled while a search is running. */
  predicate SubmitDisabled(loading: bool) {
    loading
  }

  /** Submitting the trimmed arguments again starts the same search. */
  lemma ResubmitIsStable(location: string, businessType: string)
    requires Submit(location, businessType).Some?
    ensures var q := Submit(location, businessType).value;
            Submit(q.location, q.businessType) == Some(q)
  {
    TrimIdempotent(location);
    TrimIdempotent(businessType);
  }

  /** Whitespace typed before either input changes nothing. */
  lemma LeadingSpaceIgnored(pad1: string, pad2: string, location: string, businessType: string)
    requires Blank(pad1) && Blank(pad2)
    ensures Submit(pad1 + location, pad2 + businessType) == Submit(location, businessType)
  {
    TrimIgnoresLeadingSpace(pad1, location);
    TrimIgnoresLeadingSpace(pad2, businessType);
  }

  /** The request the home page sends for an accepted form carries the trimmed texts, and
      neither argument starts or ends with whitespace; once it has answered, the submit
      button is enabled again. */
  lemma SearchSendsTrimmedQuery(h: HomePage.Home, saved: HomePage.Saved, location: string, businessType: string,
                                reply: Reply<Option<seq<Entities.Business>>>)
    requires Submit(location, businessType).Some?
    ensures var q := Submit(location, businessType).value;
            var call := HomePage.Search(h, saved, q.location, q.businessType, reply).effects.calls[0];
            && call == SearchCall(Trim(location), Trim(businessType))
            && !IsSpace(call.area[0]) && !IsSpace(call.area[|call.area| - 1])
            && !IsSpace(call.businessType[0]) && !IsSpace(call.businessType[|call.businessType| - 1])
            && !SubmitDisabled(HomePage.Search(h, saved, q.location, q.businessType, reply).home.loading)
  {
  }
}
