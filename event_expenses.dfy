/** The event-expense page: the admin's event summary with a search box, and
    the expense details of each event, fetched when its row is opened and
    kept per event id. */
module EventExpenses {
  import opened Collections
  import opened Text
  import opened Finances

  /** The search matches a row when the lower-cased term occurs in the
      lower-cased event, group or location name. */
  predicate MatchesSearch(term: string, row: EventSummaryRow) {
    Includes(Lower(row.eventName), Lower(term)) ||
    Includes(Lower(row.groupName), Lower(term)) ||
    Includes(Lower(row.locationName), Lower(term))
  }

  function Matching(term: string): EventSummaryRow -> bool {
    (row: EventSummaryRow) => MatchesSearch(term, row)
  }

  /** `filteredSummary`: the rows the search matches, in summary order. */
  function FilterSummary(summary: seq<EventSummaryRow>, term: string): (r: seq<EventSummaryRow>)
    ensures IsSubsequence(r, summary)
    ensures forall row :: row in r <==> row in summary && MatchesSearch(term, row)
    ensures forall row :: MatchesSearch(term, row) ==> multiset(r)[row] == multiset(summary)[row]
  {
    Filter(Matching(term), summary)
  }

  /** A row matches exactly when the lower-cased term is a contiguous slice
      of one of its three lower-cased names. */
  lemma MatchesSearchIff(term: string, row: EventSummaryRow)
    ensures MatchesSearch(term, row) <==>
              Occurs(Lower(row.eventName), Lower(term)) ||
              Occurs(Lower(row.groupName), Lower(term)) ||
              Occurs(Lower(row.locationName), Lower(term))
  {
    IncludesIffOccurs(Lower(row.eventName), Lower(term));
    IncludesIffOccurs(Lower(row.groupName), Lower(term));
    IncludesIffOccurs(Lower(row.locationName), Lower(term));
  }

  /** An empty search box shows the whole summary. */
  lemma EmptySearchKeepsAll(summary: seq<EventSummaryRow>)
    ensures FilterSummary(summary, "") == summary
  {
    forall i | 0 <= i < |summary| ensures Matching("")(summary[i]) {
      IncludesEmpty(Lower(summary[i].eventName));
    }
    FilterAll(Matching(""), summary);
  }

  /** The details cache after `handleAccordionChange(eventId)`, where
      `response` is what `GET /event/:eventId/details` would answer (`None`:
      the request fails). Any cached entry, an empty list included, stops the
      request. */
  function OpenDetails(details: map<EventId, seq<ExpenseDetail>>, eventId: EventId,
                       response: Option<seq<ExpenseDetail>>): (r: map<EventId, seq<ExpenseDetail>>)
    ensures r.Keys == if eventId !in details && response.Some? then details.Keys + {eventId} else details.Keys
    ensures forall k :: k in details && k != eventId ==> r[k] == details[k]
    ensures eventId in details ==> r[eventId] == details[eventId]
    ensures eventId !in details && response.Some? ==> r[eventId] == response.value
  {
    if eventId in details then details
    else if response.Some? then details[eventId := response.value]
    else details
  }

  /** The details cache after `refreshDetailsForEvent(eventId)`: the answer
      replaces whatever was cached. */
  function RefreshDetails(details: map<EventId, seq<ExpenseDetail>>, eventId: EventId,
                          response: Option<seq<ExpenseDetail>>): (r: map<EventId, seq<ExpenseDetail>>)
    ensures r.Keys == if response.Some? then details.Keys + {eventId} else details.Keys
    ensures forall k :: k in details && k != eventId ==> r[k] == details[k]
    ensures response.Some? ==> r[eventId] == response.value
    ensures response.None? && eventId in details ==> r[eventId] == details[eventId]
  {
    if response.Some? then details[eventId := response.value] else details
  }

  /** Opening a row a second time changes nothing, whatever the server
      would answer then. */
  lemma OpenDetailsIdempotent(details: map<EventId, seq<ExpenseDetail>>, eventId: EventId,
                              first: Option<seq<ExpenseDetail>>, second: Option<seq<ExpenseDetail>>)
    requires first.Some?
    ensures OpenDetails(OpenDetails(details, eventId, first), eventId, second) == OpenDetails(details, eventId, first)
  {
  }

  /** After a successful refresh, opening the row keeps the refreshed list. */
  lemma OpenAfterRefresh(details: map<EventId, seq<ExpenseDetail>>, eventId: EventId,
                         answer: seq<ExpenseDetail>, later: Option<seq<ExpenseDetail>>)
    ensures OpenDetails(RefreshDetails(details, eventId, Some(answer)), eventId, later)[eventId] == answer
  {
  }

  /** The state of the page. */
  class EventExpensesPage {
    var summary: seq<EventSummaryRow>
    var details: map<EventId, seq<ExpenseDetail>>
    var searchTerm: string

    constructor()
      ensures summary == [] && details == map[] && searchTerm == ""
    {
      summary := [];
      details := map[];
      searchTerm := "";
    }

    /** The rows on screen. */
    function FilteredSummary(): seq<EventSummaryRow>
      reads this
    {
      FilterSummary(summary, searchTerm)
    }

    /** `fetchSummary`; a failed request keeps the rows shown. */
    method FetchSummary(response: Option<seq<EventSummaryRow>>)
      modifies this
      ensures summary == if response.Some? then response.value else old(summary)
      ensures details == old(details) && searchTerm == old(searchTerm)
    {
      if response.Some? {
        summary := response.value;
      }
    }

    method SetSearchTerm(term: string)
      modifies this
      ensures searchTerm == term
      ensures summary == old(summary) && details == old(details)
    {
      searchTerm := term;
    }

    /** `handleAccordionChange(eventId)`; `fetched` says whether the request
        is made. */
    method AccordionChange(eventId: EventId, response: Option<seq<ExpenseDetail>>) returns (fetched: bool)
      modifies this
      ensures fetched <==> eventId !in old(details)
      ensures details == OpenDetails(old(details), eventId, response)
      ensures summary == old(summary) && searchTerm == old(searchTerm)
    {
      if eventId in details {
        return false;
      }
      fetched := true;
      if response.Some? {
        details := details[eventId := response.value];
      }
    }

    /** `refreshDetailsForEvent(eventId)`: always asks the server. */
    method RefreshDetailsForEvent(eventId: EventId, response: Option<seq<ExpenseDetail>>)
      modifies this
      ensures details == RefreshDetails(old(details), eventId, response)
      ensures summary == old(summary) && searchTerm == old(searchTerm)
    {
      if response.Some? {
        details := details[eventId := response.value];
      }
    }
  }
}
