/**
  The catalog store: the admin flag, the ordered course list, the admin form
  and the copies of the flag and the list kept in local storage. The list
  updates of delete and save are pure functions; the `Store` class applies
  them to its fields.
 */
module Catalog {
  import opened Types
  import Seqs
  import Text
  import Constants

  /* ---------------------------------------------------------------------- */
  /* Category lookup                                                          */
  /* ---------------------------------------------------------------------- */

  /** The array `find` over the table by id: the first category with that id, if any. */
  function FindCategory(cats: seq<Category>, id: string): (r: Option<Category>)
    ensures r.Some? ==> r.value in cats && r.value.id == id
    ensures r.None? <==> forall k :: 0 <= k < |cats| ==> cats[k].id != id
  {
    if cats == [] then None
    else if cats[0].id == id then Some(cats[0])
    else FindCategory(cats[1..], id)
  }

  /** With distinct ids, the lookup answers with the one entry that carries the id. */
  lemma FindCategoryUnique(cats: seq<Category>, id: string, k: nat)
    requires forall i, j :: 0 <= i < j < |cats| ==> cats[i].id != cats[j].id
    requires k < |cats| && cats[k].id == id
    ensures FindCategory(cats, id) == Some(cats[k])
  {
    var r := FindCategory(cats, id);
    var j :| 0 <= j < |cats| && cats[j] == r.value;
    assert !(j < k) && !(k < j);
  }

  /** The display label save stores: the category's name upper-cased, or GENERAL. */
  function CategoryLabel(categoryId: string): (r: string)
    ensures (exists k :: 0 <= k < |Constants.Categories| && Constants.Categories[k].id == categoryId)
            ==> exists k :: 0 <= k < |Constants.Categories| && Constants.Categories[k].id == categoryId &&
                            r == Text.Upper(Constants.Categories[k].name)
    ensures (forall k :: 0 <= k < |Constants.Categories| ==> Constants.Categories[k].id != categoryId)
            ==> r == "GENERAL"
  {
    match FindCategory(Constants.Categories, categoryId)
    case Some(c) => Text.Upper(c.name)
    case None => "GENERAL"
  }

  /** The label of a category in the table is that category's upper-cased name. */
  lemma CategoryLabelOf(k: nat)
    requires k < |Constants.Categories|
    ensures CategoryLabel(Constants.Categories[k].id) == Text.Upper(Constants.Categories[k].name)
  {
    Constants.CategoryIdsDistinct();
    FindCategoryUnique(Constants.Categories, Constants.Categories[k].id, k);
  }

  /** Every seed course points at a category of the table. */
  lemma SeedCategoriesKnown()
    ensures forall i :: 0 <= i < |Constants.SeedCourses| ==>
              FindCategory(Constants.Categories, Constants.SeedCourses[i].categoryId).Some?
  {
    assert Constants.SeedCourses[0].categoryId == Constants.Categories[0].id;
    assert Constants.SeedCourses[1].categoryId == Constants.Categories[1].id;
    assert Constants.SeedCourses[2].categoryId == Constants.Categories[2].id;
  }

  /** Every seed course's label is the one save would compute from its category id. */
  lemma SeedLabelsMatch()
    ensures forall i :: 0 <= i < |Constants.SeedCourses| ==>
              Constants.SeedCourses[i].category == CategoryLabel(Constants.SeedCourses[i].categoryId)
  {
    forall i | 0 <= i < |Constants.SeedCourses|
      ensures Constants.SeedCourses[i].category == CategoryLabel(Constants.SeedCourses[i].categoryId)
    {
      SeedLabel(i);
    }
  }

  lemma SeedLabel(i: nat)
    requires i < |Constants.SeedCourses|
    ensures Constants.SeedCourses[i].category == CategoryLabel(Constants.SeedCourses[i].categoryId)
  {
    CategoryLabelOf(i);
    var c := Constants.Categories[i];
    var s := Constants.SeedCourses[i];
    assert s.categoryId == c.id;
    if i == 0 {
      assert c.name == "Ganacsiga" && s.category == "GANACSIGA";
    } else if i == 1 {
      assert c.name == "Code-ka" && s.category == "CODE-KA";
    } else {
      assert c.name == "Naqshadaynta" && s.category == "NAQSHADAYNTA";
    }
    SeedCategoryNamesUpper();
  }

  lemma SeedCategoryNamesUpper()
    ensures Text.Upper("Ganacsiga") == "GANACSIGA"
    ensures Text.Upper("Code-ka") == "CODE-KA"
    ensures Text.Upper("Naqshadaynta") == "NAQSHADAYNTA"
  {
  }


  /* ---------------------------------------------------------------------- */
  /* Delete: filter out by id                                                 */
  /* ---------------------------------------------------------------------- */

  /**
    Delete's filter by id: every course carrying the id is dropped,
    every other course is kept, in order and with its multiplicity.
   */
  function RemoveById(courses: seq<Course>, id: string): (r: seq<Course>)
    ensures forall i :: 0 <= i < |r| ==> r[i].id != id
    ensures forall c :: multiset(r)[c] == if c.id == id then 0 else multiset(courses)[c]
    ensures Seqs.IsSubsequence(r, courses)
  {
    Seqs.Filter(courses, (c: Course) => c.id != id)
  }

  /** Deleting an id no course carries changes nothing. */
  lemma RemoveAbsentId(courses: seq<Course>, id: string)
    requires forall i :: 0 <= i < |courses| ==> courses[i].id != id
    ensures RemoveById(courses, id) == courses
  {
    Seqs.FilterKeepsAll(courses, (c: Course) => c.id != id);
  }

  /** Deleting an id that occurs makes the list strictly shorter. */
  lemma RemovePresentId(courses: seq<Course>, id: string, k: nat)
    requires k < |courses| && courses[k].id == id
    ensures |RemoveById(courses, id)| < |courses|
  {
    Seqs.FilterDrops(courses, (c: Course) => c.id != id, k);
  }

  /* ---------------------------------------------------------------------- */
  /* Save: build the record, then prepend or replace by id                    */
  /* ---------------------------------------------------------------------- */

  const DefaultImage: string :=
    "https://images.unsplash.com/photo-1552664730-d307ca884978?auto=format&fit=crop&q=80&w=400"

  /** The draft the form starts from and is reset to after a save. */
  const DefaultForm: Form := Form("", "", "cat_biz", DefaultImage)

  const NewRating: real := 5.0
  const NewDuration: string := "12h 00m"

  /** The three topics a newly created course is given. */
  const PlaceholderTopics: seq<Topic> := [
    Topic("t1", "Hordhaca Koorsada", ""),
    Topic("t2", "Qaybta 1aad ee Casharka", ""),
    Topic("t3", "Qaybta 2aad ee Casharka", "")
  ]

  /** The form's default category is one of the table, so its label is that category's name. */
  lemma DefaultCategoryKnown()
    ensures FindCategory(Constants.Categories, DefaultForm.categoryId) == Some(Constants.Categories[0])
    ensures CategoryLabel(DefaultForm.categoryId) == "GANACSIGA"
  {
    CategoryLabelOf(0);
    SeedCategoryNamesUpper();
    Constants.CategoryIdsDistinct();
    FindCategoryUnique(Constants.Categories, DefaultForm.categoryId, 0);
  }

  /** The id of a new course: the letter c followed by the clock reading in decimal. */
  function NewId(stamp: nat): (id: string)
    ensures |id| >= 2 && id[0] == 'c'
    ensures forall i :: 1 <= i < |id| ==> Text.IsDigit(id[i])
  {
    "c" + Text.Decimal(stamp)
  }

  /** Two different clock readings give two different ids. */
  lemma NewIdInjective(a: nat, b: nat)
    requires a != b
    ensures NewId(a) != NewId(b)
  {
    Text.DecimalInjective(a, b);
    assert NewId(a)[1..] == Text.Decimal(a);
    assert NewId(b)[1..] == Text.Decimal(b);
  }

  /**
    Edit's map over the list: every course carrying the id is
    replaced by `rec`, every other course stays where it was.
   */
  function ReplaceById(courses: seq<Course>, id: string, rec: Course): (r: seq<Course>)
    ensures |r| == |courses|
    ensures forall i :: 0 <= i < |courses| && courses[i].id != id ==> r[i] == courses[i]
    ensures forall i :: 0 <= i < |courses| && courses[i].id == id ==> r[i] == rec
  {
    Seqs.Map(courses, (c: Course) => if c.id == id then rec else c)
  }

  /**
    The record save writes. `price` is `parseFloat` of the form's price text;
    `stamp` is the clock reading used for a new id.
   */
  function BuildRecord(form: Form, editing: Option<Course>, price: real, stamp: nat): (r: Course)
    ensures r.title == form.title && r.categoryId == form.categoryId && r.image == form.image
    ensures r.category == CategoryLabel(form.categoryId) && r.price == price
    ensures r.videoUrl == None
    ensures editing.Some? ==>
              r.id == editing.value.id && r.rating == editing.value.rating &&
              r.duration == editing.value.duration && r.topics == editing.value.topics
    ensures editing.None? ==>
              r.id == NewId(stamp) && r.rating == NewRating && r.duration == NewDuration &&
              r.topics == PlaceholderTopics
  {
    Course(
      if editing.Some? then editing.value.id else NewId(stamp),
      form.title,
      CategoryLabel(form.categoryId),
      form.categoryId,
      price,
      if editing.Some? then editing.value.rating else NewRating,
      if editing.Some? then editing.value.duration else NewDuration,
      form.image,
      None,
      if editing.Some? then editing.value.topics else PlaceholderTopics)
  }

  datatype SaveOutcome =
    | PermissionDenied
    | MissingFields
    | Saved(courses: seq<Course>, record: Course)

  /**
    The outcome of pressing save: refused when admin mode is off, refused when
    the title or the price text is empty, otherwise the new list.
   */
  function SaveCourses(courses: seq<Course>, isAdmin: bool, form: Form, editing: Option<Course>,
                       price: real, stamp: nat): (o: SaveOutcome)
    ensures o.PermissionDenied? <==> !isAdmin
    ensures o.MissingFields? <==> isAdmin && (form.title == "" || form.price == "")
    ensures o.Saved? ==> o.record.title == form.title && o.record.categoryId == form.categoryId
  {
    if !isAdmin then PermissionDenied
    else if form.title == "" || form.price == "" then MissingFields
    else
      var rec := BuildRecord(form, editing, price, stamp);
      if editing.Some? then Saved(ReplaceById(courses, editing.value.id, rec), rec)
      else Saved([rec] + courses, rec)
  }

  /**
    Creating: the new record comes first and the old list follows unchanged;
    it has a fresh c-id, rating 5, duration 12h 00m, the three placeholder
    topics with no video, the label of its category and no trailer.
   */
  lemma SaveCreates(courses: seq<Course>, form: Form, price: real, stamp: nat)
    requires form.title != "" && form.price != ""
    ensures var o := SaveCourses(courses, true, form, None, price, stamp);
      && o.Saved?
      && o.courses == [o.record] + courses
      && |o.courses| == |courses| + 1
      && o.record.id == NewId(stamp)
      && o.record.title == form.title
      && o.record.categoryId == form.categoryId
      && o.record.category == CategoryLabel(form.categoryId)
      && o.record.price == price
      && o.record.image == form.image
      && o.record.rating == 5.0
      && o.record.duration == "12h 00m"
      && |o.record.topics| == 3
      && o.record.topics[0].id == "t1" && o.record.topics[1].id == "t2" && o.record.topics[2].id == "t3"
      && o.record.topics == PlaceholderTopics
      && (forall k :: 0 <= k < |o.record.topics| ==> o.record.topics[k].videoUrl == "")
      && o.record.videoUrl == None
  {
    var rec := BuildRecord(form, None, price, stamp);
    assert SaveCourses(courses, true, form, None, price, stamp) == Saved([rec] + courses, rec);
    PlaceholderTopicsShape();
  }

  /** The placeholder topics are t1, t2 and t3, none of them with a video. */
  lemma PlaceholderTopicsShape()
    ensures |PlaceholderTopics| == 3
    ensures PlaceholderTopics[0].id == "t1" && PlaceholderTopics[1].id == "t2" && PlaceholderTopics[2].id == "t3"
    ensures forall k :: 0 <= k < |PlaceholderTopics| ==> PlaceholderTopics[k].videoUrl == ""
  {
  }

  /**
    Editing: the length is kept, courses with another id are untouched, and
    each course with the edited id becomes the form's title, category and
    image over the edited course's id, rating, duration and topics; its
    trailer is dropped.
   */
  lemma SaveEdits(courses: seq<Course>, form: Form, e: Course, price: real, stamp: nat)
    requires form.title != "" && form.price != ""
    ensures var o := SaveCourses(courses, true, form, Some(e), price, stamp);
      && o.Saved?
      && |o.courses| == |courses|
      && (forall i :: 0 <= i < |courses| && courses[i].id != e.id ==> o.courses[i] == courses[i])
      && (forall i :: 0 <= i < |courses| && courses[i].id == e.id ==>
            && o.courses[i].id == e.id
            && o.courses[i].rating == e.rating
            && o.courses[i].duration == e.duration
            && o.courses[i].topics == e.topics
            && o.courses[i].title == form.title
            && o.courses[i].categoryId == form.categoryId
            && o.courses[i].category == CategoryLabel(form.categoryId)
            && o.courses[i].image == form.image
            && o.courses[i].price == price
            && o.courses[i].videoUrl == None)
  {
  }

  /** Editing a course that is no longer in the list leaves the list as it was. */
  lemma SaveEditOfMissingCourse(courses: seq<Course>, form: Form, e: Course, price: real, stamp: nat)
    requires form.title != "" && form.price != ""
    requires forall i :: 0 <= i < |courses| ==> courses[i].id != e.id
    ensures SaveCourses(courses, true, form, Some(e), price, stamp) ==
            Saved(courses, BuildRecord(form, Some(e), price, stamp))
  {
    var r := ReplaceById(courses, e.id, BuildRecord(form, Some(e), price, stamp));
    assert r == courses;
  }

  /* ---------------------------------------------------------------------- */
  /* Persistence of the admin flag                                            */
  /* ---------------------------------------------------------------------- */

  /** Reading the stored admin flag: only the exact text "true" turns admin mode on. */
  function LoadAdmin(stored: Option<string>): (r: bool)
    ensures stored.None? ==> !r
    ensures stored == Some("false") ==> !r
    ensures r ==> stored == Some("true")
  {
    stored == Some("true")
  }

  /** The flag rendered as text for storage; reading it again gives the same flag. */
  function AdminText(isAdmin: bool): (t: string)
    ensures LoadAdmin(Some(t)) == isAdmin
  {
    if isAdmin then "true" else "false"
  }

  /** The catalog at start-up: the stored list when the stored text is present and non-empty, else the seed. */
  function LoadCatalog(storedText: Option<string>, parsed: seq<Course>): (r: seq<Course>)
    ensures storedText.None? || storedText == Some("") ==> r == Constants.SeedCourses
    ensures storedText.Some? && storedText.value != "" ==> r == parsed
  {
    if storedText.Some? && storedText.value != "" then parsed else Constants.SeedCourses
  }

  datatype DeleteOutcome = DeleteDenied | DeleteDeclined | Deleted

  /* ---------------------------------------------------------------------- */
  /* The store                                                                */
  /* ---------------------------------------------------------------------- */

  /**
    The catalog state of the app. `storedAdmin` and `storedCourses` are what
    local storage holds; every change to the flag or the list is written
    through, so `Valid` holds between handlers.
   */
  class Store {
    var isAdmin: bool
    var courses: seq<Course>
    var editing: Option<Course>
    var form: Form
    var formOpen: bool
    var storedAdmin: string
    var storedCourses: seq<Course>

    ghost predicate Valid()
      reads this
    {
      storedAdmin == AdminText(isAdmin) && storedCourses == courses
    }

    /**
      Start-up: the flag and the list are read from storage (`storedCatalog` is
      the stored text, `parsed` what `JSON.parse` makes of it), then written back.
     */
    constructor (storedAdminFlag: Option<string>, storedCatalog: Option<string>, parsed: seq<Course>)
      ensures Valid()
      ensures isAdmin == LoadAdmin(storedAdminFlag)
      ensures courses == LoadCatalog(storedCatalog, parsed)
      ensures editing == None && form == DefaultForm && !formOpen
    {
      isAdmin := LoadAdmin(storedAdminFlag);
      courses := LoadCatalog(storedCatalog, parsed);
      editing := None;
      form := DefaultForm;
      formOpen := false;
      storedAdmin := AdminText(LoadAdmin(storedAdminFlag));
      storedCourses := LoadCatalog(storedCatalog, parsed);
    }

    /** The profile screen's admin switch. */
    method ToggleAdmin()
      requires Valid()
      modifies this
      ensures Valid()
      ensures isAdmin == !old(isAdmin)
      ensures courses == old(courses) && editing == old(editing) && form == old(form) && formOpen == old(formOpen)
    {
      isAdmin := !isAdmin;
      storedAdmin := AdminText(isAdmin);
    }

    /** Opens the form on an existing course; `priceText` is the course's price rendered as text. */
    method OpenEdit(course: Course, priceText: string)
      requires Valid()
      modifies this
      ensures Valid()
      ensures editing == Some(course) && formOpen
      ensures form == Form(course.title, priceText, course.categoryId, course.image)
      ensures isAdmin == old(isAdmin) && courses == old(courses)
    {
      editing := Some(course);
      form := Form(course.title, priceText, course.categoryId, course.image);
      formOpen := true;
    }

    /** The add button: opens the form on the default draft for a new course. */
    method OpenNew()
      requires Valid()
      modifies this
      ensures Valid()
      ensures editing == None && form == DefaultForm && formOpen
      ensures isAdmin == old(isAdmin) && courses == old(courses)
    {
      editing := None;
      form := DefaultForm;
      formOpen := true;
    }

    /** Typing into the form's inputs. */
    method EditForm(draft: Form)
      requires Valid()
      modifies this
      ensures Valid()
      ensures form == draft
      ensures isAdmin == old(isAdmin) && courses == old(courses) && editing == old(editing) && formOpen == old(formOpen)
    {
      form := draft;
    }

    /** The form's backdrop or close button: hides the form, keeping the draft and the edited course. */
    method CloseForm()
      requires Valid()
      modifies this
      ensures Valid()
      ensures !formOpen
      ensures isAdmin == old(isAdmin) && courses == old(courses) && editing == old(editing) && form == old(form)
    {
      formOpen := false;
    }

    /**
      Deletes every course with the id, when admin mode is on and the user
      confirms (`confirmed` is the answer to the confirmation prompt, which is
      only asked in admin mode).
     */
    method Delete(id: string, confirmed: bool) returns (o: DeleteOutcome)
      requires Valid()
      modifies this
      ensures Valid()
      ensures o == (if !old(isAdmin) then DeleteDenied else if !confirmed then DeleteDeclined else Deleted)
      ensures courses == (if o.Deleted? then RemoveById(old(courses), id) else old(courses))
      ensures isAdmin == old(isAdmin) && editing == old(editing) && form == old(form) && formOpen == old(formOpen)
    {
      if !isAdmin {
        return DeleteDenied;
      }
      if !confirmed {
        return DeleteDeclined;
      }
      courses := RemoveById(courses, id);
      storedCourses := courses;
      o := Deleted;
    }

    /**
      The form's save button. `price` is `parseFloat` of the form's price
      text and `stamp` the clock reading. On success the list becomes the
      saved list and the form is closed and reset; on a refusal nothing
      changes.
     */
    method Save(price: real, stamp: nat) returns (o: SaveOutcome)
      requires Valid()
      modifies this
      ensures Valid()
      ensures o == SaveCourses(old(courses), old(isAdmin), old(form), old(editing), price, stamp)
      ensures o.Saved? ==> courses == o.courses && !formOpen && editing == None && form == DefaultForm
      ensures !o.Saved? ==>
                courses == old(courses) && formOpen == old(formOpen) && editing == old(editing) && form == old(form)
      ensures isAdmin == old(isAdmin)
    {
      if !isAdmin {
        return PermissionDenied;
      }
      if form.title == "" || form.price == "" {
        return MissingFields;
      }
      var rec := BuildRecord(form, editing, price, stamp);
      if editing.Some? {
        courses := ReplaceById(courses, editing.value.id, rec);
      } else {
        courses := [rec] + courses;
      }
      o := Saved(courses, rec);
      storedCourses := courses;
      formOpen := false;
      editing := None;
      form := DefaultForm;
    }
  }
}
