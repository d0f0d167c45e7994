/** The category slice of the store: the last-fetched list of categories,
    replaced wholesale or extended by one entry. */
module CategoryReducer {
  import opened Entities
  import SlugLists

  datatype State = State(categories: seq<Category>)

  datatype Action = SetCategories(payload: seq<Category>) | AddNewCategory(category: Category)

  /** The slice before any action: no categories. */
  const InitialState: State := State([])

  /** The slice after one action. */
  function Reduce(state: State, action: Action): (r: State)
    ensures action.SetCategories? ==> r.categories == action.payload
    ensures action.AddNewCategory? ==>
      && |r.categories| == |state.categories| + 1
      && r.categories[..|state.categories|] == state.categories
      && r.categories[|state.categories|] == action.category
  {
    match action
    case SetCategories(xs) => state.(categories := xs)
    case AddNewCategory(c) => state.(categories := state.categories + [c])
  }

  /** The slice after dispatching `actions` in order. */
  function Replay(state: State, actions: seq<Action>): State
    decreases |actions|
  {
    if actions == [] then state else Replay(Reduce(state, actions[0]), actions[1..])
  }

  /** One `addNewCategory` per entity. */
  function AddAll(cs: seq<Category>): (r: seq<Action>)
    ensures |r| == |cs|
  {
    seq(|cs|, i requires 0 <= i < |cs| => AddNewCategory(cs[i]))
  }

  /** Replacing ignores what the list held, and replacing twice with the
      same list is replacing once. */
  lemma SetCategoriesLaws(s: State, t: State, xs: seq<Category>)
    ensures Reduce(s, SetCategories(xs)) == Reduce(t, SetCategories(xs))
    ensures Reduce(Reduce(s, SetCategories(xs)), SetCategories(xs)) == Reduce(s, SetCategories(xs))
  {
  }

  /** Appending does not check slugs: the appended slug gains one entry
      (an existing one is kept beside it) and every other slug keeps its
      entries. */
  lemma AddNewCategoryCounts(s: State, c: Category)
    ensures SlugLists.Count(Reduce(s, AddNewCategory(c)).categories, CategorySlug, c.slug)
         == SlugLists.Count(s.categories, CategorySlug, c.slug) + 1
    ensures forall other :: other != c.slug ==>
      SlugLists.Count(Reduce(s, AddNewCategory(c)).categories, CategorySlug, other)
      == SlugLists.Count(s.categories, CategorySlug, other)
  {
    forall slug: string
      ensures SlugLists.Count(Reduce(s, AddNewCategory(c)).categories, CategorySlug, slug)
           == SlugLists.Count(s.categories, CategorySlug, slug) + (if c.slug == slug then 1 else 0)
    {
      SlugLists.CountAppend(s.categories, [c], CategorySlug, slug);
      assert [c][1..] == [];
      assert SlugLists.Count([c], CategorySlug, slug) == if c.slug == slug then 1 else 0;
    }
  }

  /** Adding entities one by one to a list yields that list followed by the
      entities in the order they were added. */
  lemma {:induction false} ReplayAdds(s: State, cs: seq<Category>)
    ensures Replay(s, AddAll(cs)).categories == s.categories + cs
    decreases |cs|
  {
    if cs == [] {
      assert s.categories + cs == s.categories;
    } else {
      var s1 := Reduce(s, AddNewCategory(cs[0]));
      assert AddAll(cs)[1..] == AddAll(cs[1..]);
      ReplayAdds(s1, cs[1..]);
      assert s1.categories + cs[1..] == s.categories + cs;
    }
  }
}
