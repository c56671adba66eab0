/** The user record shared by the session and the pages; optional text fields
    are "" when absent. */
module Models {

  import opened Wrappers

  datatype User = User(
    id: string,
    name: string,
    email: string,
    role: string,
    avatar: string,
    bio: string,
    location: string)

  /** A child's sub-form value; a cleared number input gives a `null` age. */
  datatype Child = Child(name: string, age: Option<int>, interests: seq<string>)
}
