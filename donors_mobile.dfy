/** The mobile "Blood Donors" screen, backed by the remote `donors` table. */
module DonorsScreen {
  import opened Wrappers
  import opened Seqs
  import opened Remote
  import opened Donors
  import opened Alerts

  /** The value of the group picker that means "any group". */
  const ALL := "All"

  const MISSING_FIELDS_ALERT := Alert("Error", "Please fill in all required fields")
  const REGISTERED_ALERT := Alert("Success", "You have been registered as a blood donor!")
  const FAILED_ALERT := Alert("Error", "Failed to register as donor")

  /** `.eq("available", true)`. */
  predicate IsAvailable(row: Row<DonorInfo>) {
    row.fields.available
  }

  /** The rows `fetchDonors` asks for: available donors, newest first. */
  function AvailableDonors(rows: seq<Row<DonorInfo>>): seq<Row<DonorInfo>> {
    Select(rows, IsAvailable)
  }

  lemma AvailableDonorsSpec(rows: seq<Row<DonorInfo>>)
    ensures NewestFirst(AvailableDonors(rows))
    ensures forall x :: multiset(AvailableDonors(rows))[x] == if x.fields.available then multiset(rows)[x] else 0
  {
    SelectSpec(rows, IsAvailable);
  }

  /** The row `addDonor` inserts: the form, the signed-in user, the parsed age, available. */
  function DonorRow(form: DonorForm, userId: string, id: string, createdAt: int): (r: Row<DonorInfo>)
    ensures r.userId == userId && r.fields == InfoFromForm(form)
    ensures IsAvailable(r)
  {
    Row(id, userId, createdAt, InfoFromForm(form))
  }

  /** `filteredDonors`, with "All" meaning any group. */
  function FilterDonors(rows: seq<Row<DonorInfo>>, query: string, groupFilter: string): seq<Row<DonorInfo>> {
    Filter(rows, (r: Row<DonorInfo>) => MatchesDonor(r.fields, query, groupFilter, ALL))
  }

  /** A donor is listed, as often as stored, exactly when it matches the query and the group. */
  lemma FilterDonorsSpec(rows: seq<Row<DonorInfo>>, query: string, groupFilter: string)
    ensures forall r :: multiset(FilterDonors(rows, query, groupFilter))[r]
                        == if MatchesDonor(r.fields, query, groupFilter, ALL) then multiset(rows)[r] else 0
    ensures groupFilter != ALL ==> forall r :: r in FilterDonors(rows, query, groupFilter) ==> r.fields.bloodGroup == groupFilter
    ensures query == "" && groupFilter == ALL ==> FilterDonors(rows, query, groupFilter) == rows
  {
    FilterCounts(rows, (r: Row<DonorInfo>) => MatchesDonor(r.fields, query, groupFilter, ALL));
    if query == "" && groupFilter == ALL {
      forall i | 0 <= i < |rows|
        ensures MatchesDonor(rows[i].fields, query, groupFilter, ALL)
      {
        MatchesEveryDonor(rows[i].fields, ALL);
      }
      FilterIdentity(rows, (r: Row<DonorInfo>) => MatchesDonor(r.fields, query, groupFilter, ALL));
    }
  }

  class Screen {
    const table: Table<DonorInfo>
    /** The signed-in user's id, None when nobody is signed in. */
    const user: Option<string>
    var donors: seq<Row<DonorInfo>>
    var isAddingDonor: bool
    var searchQuery: string
    var filterBloodGroup: string
    var newDonor: DonorForm
    /** The last alert shown, if any. */
    var alert: Option<Alert>

    constructor (table: Table<DonorInfo>, user: Option<string>)
      ensures this.table == table && this.user == user
      ensures donors == [] && !isAddingDonor && searchQuery == "" && filterBloodGroup == ALL
      ensures newDonor == EMPTY_FORM && alert == None
    {
      this.table := table;
      this.user := user;
      donors := [];
      isAddingDonor := false;
      searchQuery := "";
      filterBloodGroup := ALL;
      newDonor := EMPTY_FORM;
      alert := None;
    }

    function FilteredDonors(): seq<Row<DonorInfo>>
      reads this
    {
      FilterDonors(donors, searchQuery, filterBloodGroup)
    }

    /** `fetchDonors`; `failed` is true when the query returns no data. */
    method FetchDonors(failed: bool)
      modifies this`donors
      ensures donors == if failed then old(donors) else AvailableDonors(table.rows)
    {
      if !failed {
        donors := AvailableDonors(table.rows);
      }
    }

    /**
     * `addDonor`; `id` and `createdAt` are what the database assigns,
     * `accepted` whether it accepts the insert. The refetch that follows a
     * successful insert is taken to return data.
     */
    method AddDonor(id: string, createdAt: int, accepted: bool) returns (inserted: bool)
      modifies this`donors, this`isAddingDonor, this`newDonor, this`alert, table
      ensures inserted == (HasRequiredFields(old(newDonor)) && user.Some? && accepted)
      ensures !HasRequiredFields(old(newDonor)) || user.None?
              ==> table.rows == old(table.rows) && alert == Some(MISSING_FIELDS_ALERT)
                  && donors == old(donors) && newDonor == old(newDonor) && isAddingDonor == old(isAddingDonor)
      ensures inserted ==> table.rows == old(table.rows) + [DonorRow(old(newDonor), user.value, id, createdAt)]
                           && newDonor == EMPTY_FORM && !isAddingDonor
                           && donors == AvailableDonors(table.rows) && alert == Some(REGISTERED_ALERT)
      ensures HasRequiredFields(old(newDonor)) && user.Some? && !accepted
              ==> table.rows == old(table.rows) && alert == Some(FAILED_ALERT)
                  && donors == old(donors) && newDonor == old(newDonor) && isAddingDonor == old(isAddingDonor)
    {
      inserted := false;
      if !HasRequiredFields(newDonor) || user.None? {
        alert := Some(MISSING_FIELDS_ALERT);
        return;
      }
      var ok := table.Insert(DonorRow(newDonor, user.value, id, createdAt), accepted);
      if ok {
        newDonor := EMPTY_FORM;
        isAddingDonor := false;
        FetchDonors(false);
        alert := Some(REGISTERED_ALERT);
        inserted := true;
      } else {
        alert := Some(FAILED_ALERT);
      }
    }

    method EditForm(form: DonorForm)
      modifies this`newDonor
      ensures newDonor == form
    {
      newDonor := form;
    }

    method SetFilters(query: string, groupFilter: string)
      modifies this`searchQuery, this`filterBloodGroup
      ensures searchQuery == query && filterBloodGroup == groupFilter
    {
      searchQuery := query;
      filterBloodGroup := groupFilter;
    }
  }
}
