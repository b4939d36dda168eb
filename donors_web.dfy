/** The web "Blood Donors" page: a donor list kept in the browser's local storage. */
module DonorsPage {
  import opened Wrappers
  import opened Seqs
  import opened Donors

  datatype Donor = Donor(id: string, info: DonorInfo)

  /** The value of the group picker that means "any group". */
  const ALL_BLOOD_GROUPS := "All Blood Groups"

  /** The two donors installed when local storage holds none. */
  const SAMPLE_DONORS: seq<Donor> := [
    Donor("1", DonorInfo("John Doe", "O+", Some(28), "Male", "+91-98765-43210", "Delhi", true)),
    Donor("2", DonorInfo("Jane Smith", "A+", Some(32), "Female", "+91-87654-32109", "Mumbai", true))
  ]

  /** `filteredDonors`. */
  function FilterDonors(donors: seq<Donor>, query: string, groupFilter: string): seq<Donor> {
    Filter(donors, (d: Donor) => MatchesDonor(d.info, query, groupFilter, ALL_BLOOD_GROUPS))
  }

  /** A donor is listed, as often as stored, exactly when it matches; the order is kept. */
  lemma FilterDonorsSpec(donors: seq<Donor>, query: string, groupFilter: string, front: seq<Donor>, back: seq<Donor>)
    requires donors == front + back
    ensures forall d :: multiset(FilterDonors(donors, query, groupFilter))[d]
                        == if MatchesDonor(d.info, query, groupFilter, ALL_BLOOD_GROUPS) then multiset(donors)[d] else 0
    ensures FilterDonors(donors, query, groupFilter) == FilterDonors(front, query, groupFilter) + FilterDonors(back, query, groupFilter)
  {
    FilterCounts(donors, (d: Donor) => MatchesDonor(d.info, query, groupFilter, ALL_BLOOD_GROUPS));
    FilterConcat(front, back, (d: Donor) => MatchesDonor(d.info, query, groupFilter, ALL_BLOOD_GROUPS));
  }

  /** The page's initial filters show the whole list. */
  lemma InitialFiltersShowAll(donors: seq<Donor>)
    ensures FilterDonors(donors, "", ALL_BLOOD_GROUPS) == donors
  {
    forall i | 0 <= i < |donors|
      ensures MatchesDonor(donors[i].info, "", ALL_BLOOD_GROUPS, ALL_BLOOD_GROUPS)
    {
      MatchesEveryDonor(donors[i].info, ALL_BLOOD_GROUPS);
    }
    FilterIdentity(donors, (d: Donor) => MatchesDonor(d.info, "", ALL_BLOOD_GROUPS, ALL_BLOOD_GROUPS));
  }

  /** The list after registering `form` under `id`, or None when a required field is empty. */
  function AddedDonors(donors: seq<Donor>, form: DonorForm, id: string): (r: Option<seq<Donor>>)
    ensures r.None? <==> !HasRequiredFields(form)
    ensures r.Some? ==> |r.value| == |donors| + 1 && r.value[..|donors|] == donors
    ensures r.Some? ==> r.value[|donors|] == Donor(id, InfoFromForm(form))
    ensures r.Some? ==> r.value[|donors|].id == id && r.value[|donors|].info.available
    ensures r.Some? ==> r.value[|donors|].info.name == form.name && r.value[|donors|].info.phone == form.phone
                        && r.value[|donors|].info.bloodGroup == form.bloodGroup
  {
    if HasRequiredFields(form) then Some(donors + [Donor(id, InfoFromForm(form))]) else None
  }

  class Page {
    var donors: seq<Donor>
    /** The "blood-donors" entry of local storage; None while it is absent. */
    var stored: Option<seq<Donor>>
    var isAdding: bool
    var searchQuery: string
    var filterBloodGroup: string
    var newDonor: DonorForm

    /** Local storage holds what the page shows. */
    ghost predicate Persisted()
      reads this
    {
      stored == Some(donors)
    }

    /** Mounting: the saved list if there is one, else the two samples, which are saved. */
    constructor (saved: Option<seq<Donor>>)
      ensures donors == if saved.Some? then saved.value else SAMPLE_DONORS
      ensures Persisted()
      ensures !isAdding && searchQuery == "" && filterBloodGroup == ALL_BLOOD_GROUPS && newDonor == EMPTY_FORM
    {
      isAdding := false;
      searchQuery := "";
      filterBloodGroup := ALL_BLOOD_GROUPS;
      newDonor := EMPTY_FORM;
      if saved.Some? {
        donors := saved.value;
        stored := saved;
      } else {
        donors := SAMPLE_DONORS;
        stored := Some(SAMPLE_DONORS);
      }
    }

    /** `filteredDonors`. */
    function FilteredDonors(): seq<Donor>
      reads this
    {
      FilterDonors(donors, searchQuery, filterBloodGroup)
    }

    /** `saveDonors`: state and storage both take the new list. */
    method SaveDonors(updated: seq<Donor>)
      modifies this`donors, this`stored
      ensures donors == updated && Persisted()
    {
      donors := updated;
      stored := Some(updated);
    }

    /** `addDonor`; `id` is the registration's time stamp as text. */
    method AddDonor(id: string) returns (added: bool)
      requires Persisted()
      modifies this
      ensures Persisted()
      ensures added == HasRequiredFields(old(newDonor))
      ensures added ==> Some(donors) == AddedDonors(old(donors), old(newDonor), id)
                        && newDonor == EMPTY_FORM && !isAdding
      ensures !added ==> donors == old(donors) && newDonor == old(newDonor) && isAdding == old(isAdding)
      ensures searchQuery == old(searchQuery) && filterBloodGroup == old(filterBloodGroup)
    {
      var updated := AddedDonors(donors, newDonor, id);
      added := updated.Some?;
      if !added {
        return;
      }
      SaveDonors(updated.value);
      newDonor := EMPTY_FORM;
      isAdding := false;
    }

    method EditForm(form: DonorForm)
      modifies this`newDonor
      ensures newDonor == form
    {
      newDonor := form;
    }

    method SetFilters(query: string, groupFilter: string)
      modifies this`searchQuery, this`filterBloodGroup
      ensures searchQuery == query && filterBloodGroup == groupFilter
    {
      searchQuery := query;
      filterBloodGroup := groupFilter;
    }
  }
}
