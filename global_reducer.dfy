/** The global slice of the store: the colour theme, which is also written
    to durable storage when it is set. */
module GlobalReducer {
  import opened Storage

  datatype State = State(theme: string)

  datatype Action = SetUserTheme(theme: string)

  /** The theme before any action. */
  const InitialState: State := State("light")

  /** The state part of `setUserTheme`. */
  function Reduce(state: State, action: Action): (r: State)
    ensures r.theme == action.theme
  {
    state.(theme := action.theme)
  }

  /** `setUserTheme(t)`: writes `t` under the theme key (and no other key),
      then yields the state with theme `t`. */
  method SetUserThemeEffect(storage: LocalStorage, state: State, t: string) returns (r: State)
    modifies storage
    ensures storage.data == old(storage.data)[ThemeKey := t]
    ensures r == Reduce(state, SetUserTheme(t))
  {
    storage.SetData(ThemeKey, t);
    r := state.(theme := t);
  }
}
