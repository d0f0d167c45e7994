/** The topic slice of the store: the last-fetched list of topics,
    replaced wholesale or extended by one entry. */
module TopicReducer {
  import opened Entities
  import SlugLists

  datatype State = State(topics: seq<Topic>)

  datatype Action = SetTopic(payload: seq<Topic>) | AddNewTopic(topic: Topic)

  /** The slice before any action: no topics. */
  const InitialState: State := State([])

  /** The slice after one action. */
  function Reduce(state: State, action: Action): (r: State)
    ensures action.SetTopic? ==> r.topics == action.payload
    ensures action.AddNewTopic? ==>
      && |r.topics| == |state.topics| + 1
      && r.topics[..|state.topics|] == state.topics
      && r.topics[|state.topics|] == action.topic
  {
    match action
    case SetTopic(xs) => state.(topics := xs)
    case AddNewTopic(c) => state.(topics := state.topics + [c])
  }

  /** The slice after dispatching `actions` in order. */
  function Replay(state: State, actions: seq<Action>): State
    decreases |actions|
  {
    if actions == [] then state else Replay(Reduce(state, actions[0]), actions[1..])
  }

  /** One `addNewTopic` per entity. */
  function AddAll(cs: seq<Topic>): (r: seq<Action>)
    ensures |r| == |cs|
  {
    seq(|cs|, i requires 0 <= i < |cs| => AddNewTopic(cs[i]))
  }

  /** Replacing ignores what the list held, and replacing twice with the
      same list is replacing once. */
  lemma SetTopicLaws(s: State, t: State, xs: seq<Topic>)
    ensures Reduce(s, SetTopic(xs)) == Reduce(t, SetTopic(xs))
    ensures Reduce(Reduce(s, SetTopic(xs)), SetTopic(xs)) == Reduce(s, SetTopic(xs))
  {
  }

  /** Appending does not check slugs: the appended slug gains one entry
      (an existing one is kept beside it) and every other slug keeps its
      entries. */
  lemma AddNewTopicCounts(s: State, c: Topic)
    ensures SlugLists.Count(Reduce(s, AddNewTopic(c)).topics, TopicSlug, c.slug)
         == SlugLists.Count(s.topics, TopicSlug, c.slug) + 1
    ensures forall other :: other != c.slug ==>
      SlugLists.Count(Reduce(s, AddNewTopic(c)).topics, TopicSlug, other)
      == SlugLists.Count(s.topics, TopicSlug, other)
  {
    forall slug: string
      ensures SlugLists.Count(Reduce(s, AddNewTopic(c)).topics, TopicSlug, slug)
           == SlugLists.Count(s.topics, TopicSlug, slug) + (if c.slug == slug then 1 else 0)
    {
      SlugLists.CountAppend(s.topics, [c], TopicSlug, slug);
      assert [c][1..] == [];
      assert SlugLists.Count([c], TopicSlug, slug) == if c.slug == slug then 1 else 0;
    }
  }

  /** Adding entities one by one to a list yields that list followed by the
      entities in the order they were added. */
  lemma {:induction false} ReplayAdds(s: State, cs: seq<Topic>)
    ensures Replay(s, AddAll(cs)).topics == s.topics + cs
    decreases |cs|
  {
    if cs == [] {
      assert s.topics + cs == s.topics;
    } else {
      var s1 := Reduce(s, AddNewTopic(cs[0]));
      assert AddAll(cs)[1..] == AddAll(cs[1..]);
      ReplayAdds(s1, cs[1..]);
      assert s1.topics + cs[1..] == s.topics + cs;
    }
  }
}
