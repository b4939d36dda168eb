/** The blood-donor record, its registration form and the directory's search rule, shared by web and mobile. */
module Donors {
  import opened Wrappers
  import opened Text
  import opened Seqs

  /** The eight blood groups a donor can register with. */
  const BLOOD_GROUPS: seq<string> := ["A+", "A-", "B+", "B-", "AB+", "AB-", "O+", "O-"]

  /** The registration form; every field is the text typed or picked so far. */
  datatype DonorForm = DonorForm(name: string, bloodGroup: string, age: string, gender: string,
                                 phone: string, location: string)

  const EMPTY_FORM: DonorForm := DonorForm("", "", "", "", "", "")

  /** A donor's details. `age` is None where `parseInt` yields NaN. */
  datatype DonorInfo = DonorInfo(name: string, bloodGroup: string, age: Option<int>, gender: string,
                                 phone: string, location: string, available: bool)

  /** Name, blood group and phone must be filled in; age, gender and location may stay empty. */
  predicate HasRequiredFields(form: DonorForm) {
    form.name != "" && form.bloodGroup != "" && form.phone != ""
  }

  /** The details a registration stores: the form's text, the parsed age, and available. */
  function InfoFromForm(form: DonorForm): (r: DonorInfo)
    ensures r.available
    ensures r.name == form.name && r.bloodGroup == form.bloodGroup && r.phone == form.phone
    ensures r.gender == form.gender && r.location == form.location
    ensures r.age == ParseInt(form.age)
  {
    DonorInfo(form.name, form.bloodGroup, ParseInt(form.age), form.gender, form.phone, form.location, true)
  }

  /** An age typed as the decimal text of a number is stored as that number. */
  lemma AgeReadBack(form: DonorForm, n: nat)
    requires form.age == NatToString(n)
    ensures InfoFromForm(form).age == Some(n)
  {
    ParseIntRoundTrip(n);
  }

  /** An age left empty is NaN, stored as no age. */
  lemma AgeLeftEmpty(form: DonorForm)
    requires form.age == ""
    ensures InfoFromForm(form).age == None
  {
  }

  /**
   * The directory's rule: the query occurs in the name or the location,
   * ignoring case, and the group filter is the "any group" value or equals
   * the donor's group.
   */
  predicate MatchesDonor(info: DonorInfo, query: string, groupFilter: string, anyGroup: string) {
    (ContainsIgnoringCase(info.name, query) || ContainsIgnoringCase(info.location, query))
    && (groupFilter == anyGroup || info.bloodGroup == groupFilter)
  }

  /** An empty query and the "any group" value match every donor. */
  lemma MatchesEveryDonor(info: DonorInfo, anyGroup: string)
    ensures MatchesDonor(info, "", anyGroup, anyGroup)
  {
    ContainsEmpty(Lower(info.name));
  }

  /** With a specific group selected, no donor of another group matches. */
  lemma GroupFilterExcludes(info: DonorInfo, query: string, groupFilter: string, anyGroup: string)
    requires groupFilter != anyGroup && info.bloodGroup != groupFilter
    ensures !MatchesDonor(info, query, groupFilter, anyGroup)
  {
  }

  /**
   * The group pickers offer the "any group" value and then the eight groups,
   * all distinct; as long as the "any group" value is none of them, picking
   * a group lists only donors of that group.
   */
  lemma GroupPickerSelects(anyGroup: string)
    requires anyGroup !in BLOOD_GROUPS
    ensures |BLOOD_GROUPS| == 8
    ensures forall i, j :: 0 <= i < j < |BLOOD_GROUPS| ==> BLOOD_GROUPS[i] != BLOOD_GROUPS[j]
    ensures forall info: DonorInfo, query: string, g: string ::
              g in BLOOD_GROUPS && MatchesDonor(info, query, g, anyGroup) ==> info.bloodGroup == g
  {
    forall info: DonorInfo, query: string, g: string | g in BLOOD_GROUPS && MatchesDonor(info, query, g, anyGroup)
      ensures info.bloodGroup == g
    {
      assert g != anyGroup;
    }
  }
}
