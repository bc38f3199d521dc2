/** The personnel page: a case-insensitive name search combined with an
    availability filter, the three summary counters, the specialties and
    status labels, and the page's own state (search term, availability
    filter, technician whose details are open). */
module PersonnelManagement {
  import opened Seqs
  import opened Js
  import opened Types

  /** The values of the availability `<select>` */
  datatype AvailabilityFilter = All | Available | Assigned

  /** `matchesSearch`: an empty term matches everything; otherwise the
      lower-cased name must include the lower-cased term. */
  predicate MatchesSearch(name: string, searchTerm: string)
  {
    searchTerm == "" || Includes(Lower(name), Lower(searchTerm))
  }

  /** `matchesAvailability` */
  predicate MatchesAvailability(t: Technician, filter: AvailabilityFilter)
  {
    || filter == All
    || (filter == Available && t.available)
    || (filter == Assigned && !t.available)
  }

  /** The predicate `filteredTechnicians` keeps an entry by */
  predicate Shown(t: Technician, searchTerm: string, filter: AvailabilityFilter)
  {
    MatchesSearch(t.name, searchTerm) && MatchesAvailability(t, filter)
  }

  /** `filteredTechnicians` */
  function FilteredTechnicians(technicians: seq<Technician>, searchTerm: string, filter: AvailabilityFilter): seq<Technician>
  {
    Filter(t => Shown(t, searchTerm, filter), technicians)
  }

  /** The search is a case-insensitive substring test on the name, and the
      empty-term shortcut agrees with it. */
  lemma MatchesSearchIff(name: string, searchTerm: string)
    ensures MatchesSearch(name, searchTerm) <==> exists i :: OccursAt(Lower(name), Lower(searchTerm), i)
  {
    IncludesIff(Lower(name), Lower(searchTerm));
    if searchTerm == "" {
      assert Lower(searchTerm) == "";
      IncludesEmpty(Lower(name));
    }
  }

  /** Changing the case of the name or of the term changes nothing. */
  lemma MatchesSearchIgnoresCase(name: string, searchTerm: string)
    ensures MatchesSearch(Upper(name), searchTerm) == MatchesSearch(name, searchTerm)
    ensures MatchesSearch(Lower(name), searchTerm) == MatchesSearch(name, searchTerm)
    ensures MatchesSearch(name, Upper(searchTerm)) == MatchesSearch(name, searchTerm)
    ensures MatchesSearch(name, Lower(searchTerm)) == MatchesSearch(name, searchTerm)
  {
    LowerOfUpper(name);
    LowerOfUpper(searchTerm);
    LowerIdempotent(name);
    LowerIdempotent(searchTerm);
    assert |Upper(searchTerm)| == |searchTerm| && |Lower(searchTerm)| == |searchTerm|;
  }

  /** The list keeps its order and holds exactly the technicians that pass
      both the search and the availability test. */
  lemma FilteredTechniciansSpec(technicians: seq<Technician>, searchTerm: string, filter: AvailabilityFilter)
    ensures IsSubsequence(FilteredTechnicians(technicians, searchTerm, filter), technicians)
    ensures forall t :: t in FilteredTechnicians(technicians, searchTerm, filter) <==>
      t in technicians && MatchesSearch(t.name, searchTerm) && MatchesAvailability(t, filter)
  {
    FilterIsSubsequence(t => Shown(t, searchTerm, filter), technicians);
    FilterMembers(t => Shown(t, searchTerm, filter), technicians);
  }

  /** The initial state (empty search, filter `all`) shows the whole list. */
  lemma InitialFilterShowsAll(technicians: seq<Technician>)
    ensures FilteredTechnicians(technicians, "", All) == technicians
  {
    FilterAll(t => Shown(t, "", All), technicians);
  }

  /** For a fixed search term, `available` and `assigned` split the `all`
      result: together they hold each of its entries exactly once. */
  lemma AvailabilityPartition(technicians: seq<Technician>, searchTerm: string)
    ensures |FilteredTechnicians(technicians, searchTerm, Available)|
          + |FilteredTechnicians(technicians, searchTerm, Assigned)|
          == |FilteredTechnicians(technicians, searchTerm, All)|
    ensures multiset(FilteredTechnicians(technicians, searchTerm, Available))
          + multiset(FilteredTechnicians(technicians, searchTerm, Assigned))
          == multiset(FilteredTechnicians(technicians, searchTerm, All))
  {
    var all := FilteredTechnicians(technicians, searchTerm, All);
    FilterFilter(IsAvailable, t => Shown(t, searchTerm, All), t => Shown(t, searchTerm, Available), technicians);
    FilterFilter(IsAssigned, t => Shown(t, searchTerm, All), t => Shown(t, searchTerm, Assigned), technicians);
    FilterPartition(IsAvailable, IsAssigned, all);
  }

  /** `totalPersonnel` */
  function TotalPersonnel(technicians: seq<Technician>): nat
  {
    |technicians|
  }

  /** `availablePersonnel` */
  function AvailablePersonnel(technicians: seq<Technician>): (n: nat)
    ensures n <= TotalPersonnel(technicians)
  {
    |Filter(IsAvailable, technicians)|
  }

  /** `assignedPersonnel`, computed as total minus available: it is the
      number of technicians who are not available. */
  function AssignedPersonnel(technicians: seq<Technician>): (n: int)
    ensures 0 <= n <= TotalPersonnel(technicians)
    ensures n == |Filter(IsAssigned, technicians)|
    ensures AvailablePersonnel(technicians) + n == TotalPersonnel(technicians)
  {
    FilterPartition(IsAvailable, IsAssigned, technicians);
    TotalPersonnel(technicians) - AvailablePersonnel(technicians)
  }

  /** `specialties.join(', ') || 'N/A'` */
  function SpecialtiesLabel(specialties: seq<string>): string
  {
    var joined := Join(specialties, ", ");
    if joined == "" then "N/A" else joined
  }

  /** `N/A` appears for an empty list (and for a list holding only an empty
      name, which also joins to the empty string); otherwise the label is
      the names joined with `, `. */
  lemma SpecialtiesLabelSpec(specialties: seq<string>)
    ensures specialties == [] ==> SpecialtiesLabel(specialties) == "N/A"
    ensures specialties == [""] ==> SpecialtiesLabel(specialties) == "N/A"
    ensures specialties != [] && specialties != [""] ==>
      SpecialtiesLabel(specialties) == Join(specialties, ", ")
    ensures |specialties| == 1 && specialties[0] != "" ==> SpecialtiesLabel(specialties) == specialties[0]
    ensures SpecialtiesLabel(["Avionics", "Electrical"]) == "Avionics, Electrical"
  {
    JoinEmptyIff(specialties, ", ");
  }

  /** The status column and the details line */
  function StatusLabel(t: Technician): string
  {
    if t.available then "Available" else "Assigned"
  }

  /** The label agrees with the availability filter's classification. */
  lemma StatusLabelAgreesWithFilter(t: Technician)
    ensures StatusLabel(t) == "Available" <==> t.available
    ensures StatusLabel(t) == "Available" <==> MatchesAvailability(t, Available)
    ensures StatusLabel(t) == "Assigned" <==> MatchesAvailability(t, Assigned)
  {
  }

  /** The page's state: the props it is given and the three state hooks. */
  class PersonnelView {
    const technicians: seq<Technician>
    var searchTerm: string
    var availabilityFilter: AvailabilityFilter
    var selectedTechnician: Option<Technician>

    constructor (technicians: seq<Technician>)
      ensures this.technicians == technicians
      ensures searchTerm == "" && availabilityFilter == All && selectedTechnician == None
      ensures Visible() == technicians
    {
      this.technicians := technicians;
      searchTerm := "";
      availabilityFilter := All;
      selectedTechnician := None;
      new;
      InitialFilterShowsAll(technicians);
    }

    /** The rows of the table */
    function Visible(): seq<Technician>
      reads this
    {
      FilteredTechnicians(technicians, searchTerm, availabilityFilter)
    }

    /** Typing in the search box */
    method SetSearchTerm(term: string)
      modifies this
      ensures searchTerm == term
      ensures availabilityFilter == old(availabilityFilter) && selectedTechnician == old(selectedTechnician)
    {
      searchTerm := term;
    }

    /** Choosing an option of the availability select */
    method SetAvailabilityFilter(filter: AvailabilityFilter)
      modifies this
      ensures availabilityFilter == filter
      ensures searchTerm == old(searchTerm) && selectedTechnician == old(selectedTechnician)
    {
      availabilityFilter := filter;
    }

    /** The Details button of a row */
    method ShowDetails(t: Technician)
      modifies this
      ensures selectedTechnician == Some(t)
      ensures searchTerm == old(searchTerm) && availabilityFilter == old(availabilityFilter)
    {
      selectedTechnician := Some(t);
    }

    /** Either close button of the details modal */
    method CloseDetails()
      modifies this
      ensures selectedTechnician == None
      ensures searchTerm == old(searchTerm) && availabilityFilter == old(availabilityFilter)
    {
      selectedTechnician := None;
    }
  }

  /** Opening a technician's details and closing them again leaves no
      technician selected and the list as it was. */
  method OpenThenClose(view: PersonnelView, t: Technician)
    modifies view
    ensures view.selectedTechnician == None
    ensures view.Visible() == old(view.Visible())
  {
    view.ShowDetails(t);
    view.CloseDetails();
  }
}
