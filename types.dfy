/** The records of the catalog: categories, topics, courses and the admin form's draft. */
module Types {

  datatype Option<T> = None | Some(value: T)

  /** A category of the fixed table; its icon is presentation and is not kept. */
  datatype Category = Category(id: string, name: string, color: string)

  /** One lesson of a course. */
  datatype Topic = Topic(id: string, title: string, videoUrl: string)

  /**
    A course record. `category` is the display label copied from the category
    table; `categoryId` is the key into it. Prices and ratings are JavaScript
    numbers, kept here as reals.
   */
  datatype Course = Course(
    id: string,
    title: string,
    category: string,
    categoryId: string,
    price: real,
    rating: real,
    duration: string,
    image: string,
    videoUrl: Option<string>,
    topics: seq<Topic>)

  /** The admin form's draft: every field is the text typed into its input. */
  datatype Form = Form(title: string, price: string, categoryId: string, image: string)
}
