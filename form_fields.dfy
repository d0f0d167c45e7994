/** What the create/update forms need of their form-state hook: a field
    dictionary, changed one field at a time by `handleChange(name, value)`,
    and the `{name, value}` defaults an update form is opened with. The
    hook's own validation bookkeeping is not modelled. */
module FormFields {
  import opened Base
  import opened Text

  /** A default's value: `string | number`. */
  datatype FieldValue = StrValue(s: string) | NumValue(n: int)

  /** One `{name, value}` default. */
  datatype DefaultValue = DefaultValue(name: string, value: FieldValue)

  /** The `required` text validator of both forms: no error exactly when
      the value has a character other than whitespace. */
  function Required(value: string, message: string): (error: Option<string>)
    ensures error.None? <==> exists i :: 0 <= i < |value| && !IsSpace(value[i])
    ensures error.Some? ==> error.value == message
  {
    BlankIffAllSpace(value);
    if IsBlank(value) then Some(message) else None
  }

  /** `value.toString()`. */
  function ValueText(v: FieldValue): string {
    match v
    case StrValue(s) => s
    case NumValue(n) => IntToString(n)
  }

  /** The form data after `handleChange(d.name, d.value.toString())` for
      each default `d`, in order. */
  function Prefill(data: map<string, string>, defaults: seq<DefaultValue>): map<string, string>
    decreases |defaults|
  {
    if defaults == [] then data
    else
      var d := defaults[|defaults| - 1];
      Prefill(data, defaults[..|defaults| - 1])[d.name := ValueText(d.value)]
  }

  /** Prefilling adds exactly the defaults' field names. */
  lemma {:induction false} PrefillKeys(data: map<string, string>, defaults: seq<DefaultValue>, key: string)
    ensures key in Prefill(data, defaults) <==>
      key in data || exists i :: 0 <= i < |defaults| && defaults[i].name == key
    decreases |defaults|
  {
    if defaults != [] {
      var n := |defaults| - 1;
      var front := defaults[..n];
      PrefillKeys(data, front, key);
      assert forall i :: 0 <= i < n ==> front[i] == defaults[i];
      if exists i :: 0 <= i < |defaults| && defaults[i].name == key {
        var i :| 0 <= i < |defaults| && defaults[i].name == key;
        if i < n {
          assert front[i].name == key;
        }
      }
    }
  }

  /** A field that no default names keeps its value. */
  lemma {:induction false} PrefillUntouched(data: map<string, string>, defaults: seq<DefaultValue>, key: string)
    requires key in data
    requires forall i :: 0 <= i < |defaults| ==> defaults[i].name != key
    ensures key in Prefill(data, defaults) && Prefill(data, defaults)[key] == data[key]
    decreases |defaults|
  {
    if defaults != [] {
      var n := |defaults| - 1;
      assert forall i :: 0 <= i < n ==> defaults[..n][i] == defaults[i];
      PrefillUntouched(data, defaults[..n], key);
    }
  }

  /** A field gets the text of the last default that names it. */
  lemma {:induction false} PrefillLastWins(data: map<string, string>, defaults: seq<DefaultValue>, key: string, i: nat)
    requires i < |defaults| && defaults[i].name == key
    requires forall j :: i < j < |defaults| ==> defaults[j].name != key
    ensures key in Prefill(data, defaults) && Prefill(data, defaults)[key] == ValueText(defaults[i].value)
    decreases |defaults|
  {
    var n := |defaults| - 1;
    if i < n {
      assert forall j :: 0 <= j < n ==> defaults[..n][j] == defaults[j];
      PrefillLastWins(data, defaults[..n], key, i);
    }
  }
}
