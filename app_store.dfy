/** The client's single store: one field per slice, each changed only by
    dispatching an action to that slice's reducer. */
module AppStore {
  import CategoryReducer
  import TopicReducer
  import QuestionReducer
  import UserReducer
  import GlobalReducer
  import opened Storage

  class Store {
    var category: CategoryReducer.State
    var topic: TopicReducer.State
    var question: QuestionReducer.State
    var user: UserReducer.State
    var global: GlobalReducer.State

    /** Every slice starts from its reducer's initial state. */
    constructor ()
      ensures category == CategoryReducer.InitialState && topic == TopicReducer.InitialState
      ensures question == QuestionReducer.InitialState && user == UserReducer.InitialState
      ensures global == GlobalReducer.InitialState
    {
      category := CategoryReducer.InitialState;
      topic := TopicReducer.InitialState;
      question := QuestionReducer.InitialState;
      user := UserReducer.InitialState;
      global := GlobalReducer.InitialState;
    }

    method DispatchCategory(a: CategoryReducer.Action)
      modifies this`category
      ensures category == CategoryReducer.Reduce(old(category), a)
    {
      category := CategoryReducer.Reduce(category, a);
    }

    method DispatchTopic(a: TopicReducer.Action)
      modifies this`topic
      ensures topic == TopicReducer.Reduce(old(topic), a)
    {
      topic := TopicReducer.Reduce(topic, a);
    }

    method DispatchQuestion(a: QuestionReducer.Action)
      modifies this`question
      ensures question == QuestionReducer.Reduce(old(question), a)
    {
      question := QuestionReducer.Reduce(question, a);
    }

    method DispatchUser(a: UserReducer.Action)
      modifies this`user
      ensures user == UserReducer.Reduce(old(user), a)
    {
      user := UserReducer.Reduce(user, a);
    }

    /** The theme reducer also writes durable storage. */
    method DispatchGlobal(a: GlobalReducer.Action, storage: LocalStorage)
      modifies this`global, storage
      ensures global == GlobalReducer.Reduce(old(global), a)
      ensures storage.data == old(storage.data)[ThemeKey := a.theme]
    {
      global := GlobalReducer.SetUserThemeEffect(storage, global, a.theme);
    }
  }
}
