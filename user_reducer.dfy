/** The user slice of the store: the signed-in user, or nobody. */
module UserReducer {
  import opened Base
  import opened Entities

  datatype State = State(user: Option<User>)

  datatype Action = SetUserData(user: Option<User>)

  /** Nobody is signed in before any action. */
  const InitialState: State := State(None)

  /** The session is authenticated exactly when a user is stored. */
  predicate IsAuthenticated(s: State) {
    s.user.Some?
  }

  /** The slice after one action: the stored user is the payload. */
  function Reduce(state: State, action: Action): (r: State)
    ensures r.user == action.user
    ensures IsAuthenticated(r) <==> action.user.Some?
  {
    state.(user := action.user)
  }

  /** Storing nobody is the unauthenticated initial state (what logout
      relies on), and storing the same user twice is storing it once. */
  lemma SetUserDataLaws(s: State, u: Option<User>)
    ensures Reduce(s, SetUserData(None)) == InitialState
    ensures !IsAuthenticated(InitialState)
    ensures Reduce(Reduce(s, SetUserData(u)), SetUserData(u)) == Reduce(s, SetUserData(u))
  {
  }
}
