/** The built-in data: the category table and the seed catalog used when nothing is stored. */
module Constants {
  import opened Types

  const Categories: seq<Category> := [
    Category("cat_biz", "Ganacsiga", "bg-blue-50 text-blue-500"),
    Category("cat_code", "Code-ka", "bg-emerald-50 text-emerald-500"),
    Category("cat_design", "Naqshadaynta", "bg-rose-50 text-rose-500"),
    Category("cat_data", "Xogta", "bg-amber-50 text-amber-500"),
    Category("cat_marketing", "Suuq-geynta", "bg-sky-50 text-sky-500"),
    Category("cat_lang", "Luuqadaha", "bg-purple-50 text-purple-500"),
    Category("cat_health", "Caafimaadka", "bg-red-50 text-red-500"),
    Category("cat_photo", "Sawirka", "bg-orange-50 text-orange-500")
  ]

  const SeedCourses: seq<Course> := [
    Course(
      "c1",
      "Hoggaaminta Fulinta & Maareynta Isbeddelka Ganacsiga",
      "GANACSIGA",
      "cat_biz",
      99.00,
      4.9,
      "14h 20m",
      "https://images.unsplash.com/photo-1552664730-d307ca884978?auto=format&fit=crop&q=80&w=400",
      Some("https://www.youtube.com/watch?v=dQw4w9WgXcQ"),
      [ Topic("t1", "Hordhaca Maamulka", "https://youtu.be/dQw4w9WgXcQ"),
        Topic("t2", "Istaraatiijiyadda Ganacsiga", "https://youtu.be/dQw4w9WgXcQ") ]),
    Course(
      "c2",
      "Python for Data Science: Min Bilow ilaa Pro",
      "CODE-KA",
      "cat_code",
      125.00,
      4.8,
      "32h 45m",
      "https://images.unsplash.com/photo-1517694712202-14dd9538aa97?auto=format&fit=crop&q=80&w=400",
      Some("https://www.youtube.com/watch?v=dQw4w9WgXcQ"),
      [ Topic("p1", "Syntax-ka Python", "https://youtu.be/dQw4w9WgXcQ"),
        Topic("p2", "Pandas & Dataframes", "https://youtu.be/dQw4w9WgXcQ") ]),
    Course(
      "c3",
      "Naqshadaynta UI/UX ee App-yada Casriga ah",
      "NAQSHADAYNTA",
      "cat_design",
      85.00,
      4.7,
      "22h 10m",
      "https://images.unsplash.com/photo-1586717791821-3f44a563eb4c?auto=format&fit=crop&q=80&w=400",
      None,
      [])
  ]

  /** No two categories share an id, so a lookup by id has at most one answer. */
  lemma CategoryIdsDistinct()
    ensures forall i, j :: 0 <= i < j < |Categories| ==> Categories[i].id != Categories[j].id
  {
  }

  /** The seed courses have pairwise different ids. */
  lemma SeedIdsDistinct()
    ensures forall i, j :: 0 <= i < j < |SeedCourses| ==> SeedCourses[i].id != SeedCourses[j].id
  {
  }

  /** Every seed course has a non-negative price and a rating between 0 and 5. */
  lemma SeedPricesAndRatingsInRange()
    ensures forall i :: 0 <= i < |SeedCourses| ==> SeedCourses[i].price >= 0.0
    ensures forall i :: 0 <= i < |SeedCourses| ==> 0.0 <= SeedCourses[i].rating <= 5.0
  {
  }
}
