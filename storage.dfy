/** The browser's durable key-value storage (`customLocalStorage`), seen as a
    mutable map from keys to stored strings. */
module Storage {

  /** Key under which the session token is kept. */
  const TokenKey := "user-token"

  /** Key under which the chosen theme is kept. */
  const ThemeKey := "userTheme"

  class LocalStorage {
    var data: map<string, string>

    constructor (initial: map<string, string>)
      ensures data == initial
    {
      data := initial;
    }

    /** `setData(key, value)`: stores `value` under `key`, nothing else. */
    method SetData(key: string, value: string)
      modifies this
      ensures data == old(data)[key := value]
    {
      data := data[key := value];
    }

    /** `deleteData(key)`: removes `key`, nothing else. */
    method DeleteData(key: string)
      modifies this
      ensures data == old(data) - {key}
    {
      data := data - {key};
    }
  }
}
