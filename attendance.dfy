/**
 * The admin attendance screen (src/pages/Attendance.tsx): the intern search,
 * the present/absent marks keyed by intern id, and the counts derived from them.
 */
module Attendance {
  import opened Seqs
  import opened Text
  import opened Percent

  /** An intern row of `mockInterns` (its average is display-only). */
  datatype Intern = Intern(id: int, name: string, email: string, attendance: int, status: string)

  /** `mockInterns`. */
  const MockInterns: seq<Intern> := [
    Intern(1, "Sarah Johnson", "sarah.j@email.com", 92, "active"),
    Intern(2, "Mike Chen", "mike.c@email.com", 88, "active"),
    Intern(3, "Emily Rodriguez", "emily.r@email.com", 96, "active"),
    Intern(4, "James Wilson", "james.w@email.com", 84, "active"),
    Intern(5, "Lisa Park", "lisa.p@email.com", 91, "active")
  ]

  /** The ids of the roster. */
  function InternIds(interns: seq<Intern>): (ids: set<int>)
    ensures forall k :: 0 <= k < |interns| ==> interns[k].id in ids
    ensures forall x :: x in ids ==> exists k :: 0 <= k < |interns| && interns[k].id == x
  {
    set k | 0 <= k < |interns| :: interns[k].id
  }

  /** The roster's ids are 1 to 5, one per intern. */
  lemma MockInternIds()
    ensures InternIds(MockInterns) == {1, 2, 3, 4, 5}
    ensures |InternIds(MockInterns)| == |MockInterns| == TotalCount == 5
  {
    var ids := InternIds(MockInterns);
    assert forall k :: 0 <= k < |MockInterns| ==> MockInterns[k].id == k + 1;
    forall x | x in ids ensures 1 <= x <= 5 {
      var k :| 0 <= k < |MockInterns| && MockInterns[k].id == x;
    }
    assert MockInterns[0].id in ids && MockInterns[1].id in ids && MockInterns[2].id in ids;
    assert MockInterns[3].id in ids && MockInterns[4].id in ids;
  }

  /** A mark is `'present'` or `'absent'`, nothing else. */
  datatype Status = Present | Absent

  /**
   * The initial `attendanceData`: the roster folded into a map, intern by
   * intern, with `present[k]` standing for the outcome of `Math.random() > 0.2`
   * drawn for the k-th intern.
   */
  function InitialAttendance(interns: seq<Intern>, present: seq<bool>): (m: map<int, Status>)
    requires |present| == |interns|
    ensures m.Keys == InternIds(interns)
    decreases |interns|
  {
    if interns == [] then map[]
    else
      var n := |interns| - 1;
      var rest := InitialAttendance(interns[..n], present[..n]);
      assert InternIds(interns) == InternIds(interns[..n]) + {interns[n].id} by {
        forall x | x in InternIds(interns) ensures x in InternIds(interns[..n]) + {interns[n].id} {
          var k :| 0 <= k < |interns| && interns[k].id == x;
          if k < n {
            assert interns[..n][k].id == x;
          }
        }
        forall x | x in InternIds(interns[..n]) ensures x in InternIds(interns) {
          var k :| 0 <= k < n && interns[..n][k].id == x;
          assert interns[k].id == x;
        }
      }
      rest[interns[n].id := if present[n] then Present else Absent]
  }

  /** The intern's lower-cased name or email contains the lower-cased search term. */
  predicate MatchesSearch(i: Intern, searchTerm: string)
  {
    Includes(ToLower(i.name), ToLower(searchTerm)) || Includes(ToLower(i.email), ToLower(searchTerm))
  }

  /** `filteredInterns`: the matching rows, in roster order. */
  function FilteredInterns(interns: seq<Intern>, searchTerm: string): (r: seq<Intern>)
    ensures IsSubsequence(r, interns)
    ensures forall i :: i in r <==> i in interns && MatchesSearch(i, searchTerm)
  {
    Filter(interns, i => MatchesSearch(i, searchTerm))
  }

  /** The empty search shows the whole roster. */
  lemma EmptySearchShowsAll(interns: seq<Intern>)
    ensures FilteredInterns(interns, "") == interns
  {
    forall k | 0 <= k < |interns| ensures MatchesSearch(interns[k], "") {
      IncludesEmpty(ToLower(interns[k].name));
    }
    FilterKeepsAll(interns, i => MatchesSearch(i, ""));
  }

  /**
   * `handleAttendanceToggle(id)`: a present mark becomes absent and anything
   * else, an absent mark or no mark at all, becomes present; other keys keep theirs.
   */
  function Flipped(m: map<int, Status>, id: int): (r: map<int, Status>)
    ensures r.Keys == m.Keys + {id}
    ensures r[id] == (if id in m && m[id] == Present then Absent else Present)
    ensures forall k :: k in m && k != id ==> r[k] == m[k]
  {
    m[id := if id in m && m[id] == Present then Absent else Present]
  }

  /** Flipping a marked intern twice gives back the original map. */
  lemma FlipTwiceRestores(m: map<int, Status>, id: int)
    requires id in m
    ensures Flipped(Flipped(m, id), id) == m
  {
  }

  /** The ids marked present. */
  function PresentIds(m: map<int, Status>): (s: set<int>)
    ensures s <= m.Keys
    ensures forall k :: k in s <==> k in m && m[k] == Present
  {
    set k | k in m && m[k] == Present
  }

  /** `presentCount`: how many marks are `'present'`. */
  function PresentCount(m: map<int, Status>): (n: nat)
    ensures n <= |m.Keys|
  {
    SubsetCardinality(PresentIds(m), m.Keys);
    |PresentIds(m)|
  }

  /** A subset has no more elements than its superset. */
  lemma SubsetCardinality(a: set<int>, b: set<int>)
    requires a <= b
    ensures |a| <= |b|
  {
    assert b == a + (b - a);
  }

  /** One toggle moves the present count by exactly one, up or down. */
  lemma FlipChangesPresentCountByOne(m: map<int, Status>, id: int)
    ensures id in m && m[id] == Present ==> PresentCount(Flipped(m, id)) == PresentCount(m) - 1
    ensures !(id in m && m[id] == Present) ==> PresentCount(Flipped(m, id)) == PresentCount(m) + 1
  {
    var before, after := PresentIds(m), PresentIds(Flipped(m, id));
    if id in m && m[id] == Present {
      assert after == before - {id};
    } else {
      assert after == before + {id};
    }
  }

  /** `totalCount`: the roster size. */
  const TotalCount: nat := |MockInterns|

  /** The "Absent Today" figure `totalCount - presentCount`. */
  function AbsentCount(m: map<int, Status>): int
  {
    TotalCount - PresentCount(m)
  }

  /** `attendanceRate`: the rounded percentage of present marks. */
  function AttendanceRate(m: map<int, Status>): nat
  {
    RoundedPercent(PresentCount(m), TotalCount)
  }

  /** The marks are keyed by exactly the roster's ids. */
  ghost predicate KeyedByRoster(m: map<int, Status>)
  {
    m.Keys == InternIds(MockInterns)
  }

  /**
   * With the marks keyed by the roster, the present count lies between 0 and the
   * total, the absent figure is never negative and adds up with it, and the rate
   * is a percentage.
   */
  lemma CountsInBounds(m: map<int, Status>)
    requires KeyedByRoster(m)
    ensures 0 <= PresentCount(m) <= TotalCount
    ensures AbsentCount(m) >= 0 && AbsentCount(m) + PresentCount(m) == TotalCount
    ensures 0 <= AttendanceRate(m) <= 100
  {
    MockInternIds();
  }

  /** The rate is 100 when every intern is present and 0 when none is. */
  lemma RateExtremes(m: map<int, Status>)
    requires KeyedByRoster(m)
    ensures (forall k :: k in m ==> m[k] == Present) ==> AttendanceRate(m) == 100
    ensures (forall k :: k in m ==> m[k] == Absent) ==> AttendanceRate(m) == 0
  {
    MockInternIds();
    if forall k :: k in m ==> m[k] == Present {
      assert PresentIds(m) == m.Keys;
    }
    if forall k :: k in m ==> m[k] == Absent {
      assert PresentIds(m) == {};
    }
  }

  /** The admin view's state: the search box and the marks (the calendar date is not modelled). */
  class AdminAttendanceView {
    var searchTerm: string
    var attendanceData: map<int, Status>

    /** The marks are keyed by the roster's ids. */
    ghost predicate Valid()
      reads this
    {
      KeyedByRoster(attendanceData)
    }

    /** Empty search; one random mark per intern, given as `present`. */
    constructor (present: seq<bool>)
      requires |present| == |MockInterns|
      ensures Valid()
      ensures searchTerm == "" && attendanceData == InitialAttendance(MockInterns, present)
    {
      searchTerm := "";
      attendanceData := InitialAttendance(MockInterns, present);
    }

    /** The rows shown. */
    function Rows(): (r: seq<Intern>)
      reads this
      ensures IsSubsequence(r, MockInterns)
    {
      FilteredInterns(MockInterns, searchTerm)
    }

    /** Typing in the search box selects rows and never touches the marks. */
    method SetSearchTerm(term: string)
      modifies this
      ensures searchTerm == term && attendanceData == old(attendanceData)
    {
      searchTerm := term;
    }

    /** Clicking a row: `handleAttendanceToggle(intern.id)`. */
    method ToggleAttendance(id: int)
      requires Valid()
      modifies this
      ensures attendanceData == Flipped(old(attendanceData), id)
      ensures searchTerm == old(searchTerm)
      ensures id in InternIds(MockInterns) ==> Valid()
      ensures PresentCount(attendanceData) == PresentCount(old(attendanceData)) + 1 ||
              PresentCount(attendanceData) == PresentCount(old(attendanceData)) - 1
    {
      FlipChangesPresentCountByOne(attendanceData, id);
      attendanceData := Flipped(attendanceData, id);
    }
  }
}
