/**
  The course list shown on the home and explore screens: the catalog filtered
  by the search box and the selected category, in catalog order.
 */
module Search {
  import opened Types
  import Seqs
  import Text

  /**
    The lower-cased title contains the lower-cased query. The empty query
    matches every course, and a query longer than the title matches none.
   */
  predicate MatchesSearch(c: Course, query: string): (r: bool)
    ensures query == "" ==> r
    ensures r ==> |query| <= |c.title|
  {
    Text.ContainsEmpty(Text.Lower(c.title));
    assert Text.Lower("") == "";
    Text.Contains(Text.Lower(c.title), Text.Lower(query))
  }

  /**
    No category selected (null, or the empty id, which is falsy) lets every
    course through; otherwise the course's category id must equal it.
   */
  predicate MatchesCategory(c: Course, selected: Option<string>): (r: bool)
    ensures selected.None? || selected == Some("") ==> r
    ensures selected.Some? && selected.value != "" ==> (r <==> c.categoryId == selected.value)
  {
    selected.None? || selected.value == "" || c.categoryId == selected.value
  }

  /**
    The test `filteredCourses` applies: both the query and the category.
    With no filter set every course matches; a course of another category
    than the selected one never does.
   */
  predicate Matches(c: Course, query: string, selected: Option<string>): (r: bool)
    ensures query == "" && (selected.None? || selected == Some("")) ==> r
    ensures r ==> |query| <= |c.title|
    ensures selected.Some? && selected.value != "" && c.categoryId != selected.value ==> !r
  {
    MatchesSearch(c, query) && MatchesCategory(c, selected)
  }

  /** `filteredCourses`: the courses matching both the query and the category, in order. */
  function FilteredCourses(courses: seq<Course>, query: string, selected: Option<string>): (r: seq<Course>)
    ensures forall i :: 0 <= i < |r| ==> Text.Contains(Text.Lower(r[i].title), Text.Lower(query))
    ensures forall i :: 0 <= i < |r| ==>
              (selected.Some? && selected.value != "" ==> r[i].categoryId == selected.value)
    ensures forall c :: multiset(r)[c] == if Matches(c, query, selected) then multiset(courses)[c] else 0
    ensures Seqs.IsSubsequence(r, courses)
  {
    Seqs.Filter(courses, (c: Course) => Matches(c, query, selected))
  }

  /** A course is shown exactly when it is in the catalog and matches. */
  lemma ShownIff(courses: seq<Course>, query: string, selected: Option<string>, c: Course)
    ensures c in FilteredCourses(courses, query, selected) <==> c in courses && Matches(c, query, selected)
  {
    Seqs.FilterMembership(courses, (c: Course) => Matches(c, query, selected), c);
  }

  /** An empty query and no selected category show the whole catalog unchanged. */
  lemma NoFilterShowsAll(courses: seq<Course>, selected: Option<string>)
    requires selected.None? || selected == Some("")
    ensures FilteredCourses(courses, "", selected) == courses
  {
    forall i | 0 <= i < |courses| ensures Matches(courses[i], "", selected) {
      Text.ContainsEmpty(Text.Lower(courses[i].title));
      assert Text.Lower("") == "";
    }
    Seqs.FilterKeepsAll(courses, (c: Course) => Matches(c, "", selected));
  }

  /** The query's letter case does not matter: searching for its lower-cased form shows the same list. */
  lemma QueryCaseInsensitive(courses: seq<Course>, query: string, selected: Option<string>)
    ensures FilteredCourses(courses, Text.Lower(query), selected) == FilteredCourses(courses, query, selected)
  {
    Text.LowerIdempotent(query);
    Seqs.FilterAgree(courses, (c: Course) => Matches(c, Text.Lower(query), selected),
                              (c: Course) => Matches(c, query, selected));
  }

  /** A query in another letter case finds the one course whose title contains it. */
  lemma SearchExample(a: Course, b: Course)
    requires a.title == "CourseA" && b.title == "CourseB"
    ensures FilteredCourses([a, b], "coursea", None) == [a]
  {
    assert Text.Lower("CourseA") == "coursea";
    assert Text.Lower("CourseB") == "courseb";
    assert Text.Lower("coursea") == "coursea";
    assert Text.OccursAt("coursea", "coursea", 0);
    assert "courseb"[0..7][6] != "coursea"[6];
    assert Matches(a, "coursea", None) && !Matches(b, "coursea", None);
    assert [a, b][1..] == [b] && [b][1..] == [];
  }
}
