/** The project management page: a fixed table of projects narrowed by a
    status selector and a free-text search. */
module ProjectManagement {
  import opened Text
  import opened Lists

  datatype ProjectStatus = Accepted | PendingSignature | Drafting | NewInquiry {
    function Name(): string {
      match this
      case Accepted => "Accepted"
      case PendingSignature => "Pending Signature"
      case Drafting => "Drafting"
      case NewInquiry => "New Inquiry"
    }
  }

  datatype Project = Project(
    projectId: string, clientName: string, artisan: string,
    status: ProjectStatus, estimateValue: int, createdAt: string)

  /** The status selector: "All Statuses" or one status. */
  datatype StatusFilter = AllStatuses | Only(status: ProjectStatus)

  /** The page's rows. */
  const DataSource: seq<Project> := [
    Project("1", "Acme Corp", "John Doe", Accepted, 120000, "2025-11-01T10:30:00Z"),
    Project("2", "Bright Homes", "Sarah Lee", PendingSignature, 45000, "2025-10-22T08:15:00Z"),
    Project("3", "Global Tech", "Ahmed B.", Drafting, 78000, "2025-10-10T14:05:00Z"),
    Project("4", "Urban Studio", "Nadia K.", NewInquiry, 15000, "2025-11-18T12:00:00Z"),
    Project("5", "Zen Living", "Omar S.", Accepted, 92000, "2025-09-28T09:40:00Z"),
    Project("6", "Eco Builders", "Marta R.", PendingSignature, 32000, "2025-11-12T16:25:00Z"),
    Project("7", "Sunset Ltd", "Luis F.", Drafting, 51000, "2025-10-02T11:10:00Z"),
    Project("8", "Harmony Designs", "Aisha T.", NewInquiry, 12000, "2025-11-20T07:55:00Z")
  ]

  /** The search box's text, trimmed and lower-cased. */
  function SearchTerm(query: string): string {
    Lower(Trim(query))
  }

  /** The text a search runs over: id, client and artisan joined by single
      spaces, lower-cased. */
  function Haystack(p: Project): string {
    Lower(p.projectId + " " + p.clientName + " " + p.artisan)
  }

  predicate MatchesStatus(p: Project, filter: StatusFilter) {
    filter.AllStatuses? || p.status == filter.status
  }

  predicate MatchesSearch(p: Project, term: string) {
    term == "" || Includes(Haystack(p), term)
  }

  /** The rows that pass the status test and contain the (already trimmed
      and lower-cased) search term. */
  function Shown(data: seq<Project>, term: string, filter: StatusFilter): seq<Project> {
    Filter(data, (p: Project) => MatchesStatus(p, filter) && MatchesSearch(p, term))
  }

  /** `filteredData`. */
  function Filtered(data: seq<Project>, query: string, filter: StatusFilter): seq<Project> {
    Shown(data, SearchTerm(query), filter)
  }

  /** The result lists, in their original order and with their
      multiplicity, exactly the rows that pass both the status and the
      search test. */
  lemma ShownRule(data: seq<Project>, term: string, filter: StatusFilter)
    ensures IsSubsequence(Shown(data, term, filter), data)
    ensures forall p :: p in Shown(data, term, filter) <==>
      p in data && MatchesStatus(p, filter) && MatchesSearch(p, term)
    ensures forall p :: multiset(Shown(data, term, filter))[p] ==
                        if MatchesStatus(p, filter) && MatchesSearch(p, term) then multiset(data)[p] else 0
  {
    var keep := (p: Project) => MatchesStatus(p, filter) && MatchesSearch(p, term);
    FilterIsSubsequence(data, keep);
    FilterCounts(data, keep);
    var r := Shown(data, term, filter);
    forall p | p in r
      ensures p in data && MatchesStatus(p, filter) && MatchesSearch(p, term)
    {
      var i :| 0 <= i < |r| && r[i] == p;
    }
    forall p | p in data && MatchesStatus(p, filter) && MatchesSearch(p, term)
      ensures p in r
    {
      var i :| 0 <= i < |data| && data[i] == p;
    }
  }

  /** With "All Statuses" and a blank or whitespace-only search every row is
      shown. */
  lemma UnfilteredShowsAll(data: seq<Project>, query: string)
    requires AllSpace(query)
    ensures Filtered(data, query, AllStatuses) == data
  {
    TrimEmptyIffAllSpace(query);
    assert SearchTerm(query) == "";
    FilterKeepsAll(data, (p: Project) => MatchesStatus(p, AllStatuses) && MatchesSearch(p, ""));
  }

  /** With a specific status selected, every shown row has that status. */
  lemma StatusFilterExact(data: seq<Project>, term: string, status: ProjectStatus)
    ensures forall i :: 0 <= i < |Shown(data, term, Only(status))| ==>
      Shown(data, term, Only(status))[i].status == status
  {
  }

  /** A search is not confined to one field: a term that occurs in the
      joined "client artisan" text, across the space between them, still
      finds the row. */
  lemma SearchSpansFields(p: Project, term: string)
    requires Includes(Lower(p.clientName + " " + p.artisan), term)
    ensures MatchesSearch(p, term)
  {
    var head := p.projectId + " ";
    var tail := p.clientName + " " + p.artisan;
    assert p.projectId + " " + p.clientName + " " + p.artisan == head + tail;
    LowerAppend(head, tail);
    IncludesIff(Lower(tail), term);
    var i :| OccursAt(Lower(tail), term, i);
    var h := Haystack(p);
    assert h == Lower(head) + Lower(tail);
    assert h[|Lower(head)| + i..|Lower(head)| + i + |term|] == Lower(tail)[i..i + |term|];
    assert OccursAt(h, term, |Lower(head)| + i);
    IncludesIff(h, term);
  }

  /** The search term is already lower case, as is the haystack it is
      looked up in, so the search ignores case. */
  lemma SearchTermIsLowerCase(query: string)
    ensures Lower(SearchTerm(query)) == SearchTerm(query)
  {
    var t := Trim(query);
    assert forall i :: 0 <= i < |t| ==> LowerChar(LowerChar(t[i])) == LowerChar(t[i]);
  }
}
