/** The records the client receives from the server and keeps in its store,
    and the fixed list of verification filters. */
module Entities {
  import opened Base

  /** A category as listed by the server. */
  datatype Category = Category(name: string, slug: string, verified: bool, canModify: bool)

  /** The `{name, slug}` pair a topic carries for its category. */
  datatype CategoryRef = CategoryRef(name: string, slug: string)

  /** A topic as listed by the server. */
  datatype Topic = Topic(name: string, slug: string, verified: bool, canModify: bool, category: CategoryRef)

  datatype QuestionKind = Coding | Theory

  /** A question in list form. */
  datatype Question = Question(
    title: string, description: string,
    youtubeLink: Option<string>, websiteLink: Option<string>,
    verified: bool, kind: QuestionKind, slug: string)

  datatype CreatedBy = CreatedBy(id: string, email: string)

  /** The topic embedded in a question's detail form. The client reads its
      `name` although the declared type omits it; it is modelled as present. */
  datatype QuestionTopic = QuestionTopic(
    id: string, name: string, slug: string, createdBy: CreatedBy,
    verified: bool, category: CategoryRef)

  /** A question in detail form. */
  datatype QuestionDetails = QuestionDetails(
    title: string, description: string, solution: string,
    youtubeLink: Option<string>, websiteLink: Option<string>,
    slug: string, createdBy: CreatedBy, verified: bool, kind: QuestionKind,
    topic: QuestionTopic, canModify: bool)

  /** The signed-in user. `adminMode` is optional on the wire. */
  datatype User = User(
    firstName: string, lastName: string, phone: int, email: string,
    password: string, avatar: Option<string>, role: string,
    adminMode: Option<bool>)

  const RoleUser := "USER"
  const RoleAdmin := "ADMIN"
  const RoleSuperAdmin := "SUPER_ADMIN"

  /** `user?.role === r`: false when nobody is signed in. */
  predicate HasRole(user: Option<User>, r: string) {
    user.Some? && user.value.role == r
  }

  /** `user?.role === "ADMIN" || user?.role === "SUPER_ADMIN"`. */
  predicate IsAdmin(user: Option<User>) {
    HasRole(user, RoleAdmin) || HasRole(user, RoleSuperAdmin)
  }

  /** `user?.adminMode` is truthy. */
  predicate AdminModeOn(user: Option<User>) {
    user.Some? && user.value.adminMode == Some(true)
  }

  /** One entry of the verification filter menu; `caption` is its `label`. */
  datatype FilterOption = FilterOption(caption: string, value: Option<bool>)

  /** The filter menu's entries, in menu order. */
  const FilterOptions: seq<FilterOption> := [
    FilterOption("All", None),
    FilterOption("VERIFIED", Some(true)),
    FilterOption("NOT VERIFIED", Some(false))
  ]

  /** `filter?.value` as handed to a list query: no filter and the "All"
      entry both mean "no verification constraint". */
  function FilterValue(filter: Option<FilterOption>): Option<bool> {
    match filter
    case Some(f) => f.value
    case None => None
  }

  /** Whether a create/update form creates or updates. */
  datatype FormMode = Create | Update

  function CategorySlug(c: Category): string { c.slug }
  function TopicSlug(t: Topic): string { t.slug }
}
