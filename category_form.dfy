/** The popup form that creates a category or renames one. */
module CategoryForm {
  import opened Base
  import Text
  import opened Entities
  import opened Api
  import SlugLists
  import CategoryApi
  import CategoryReducer
  import FormFields
  import opened AppStore

  const NameRequired := "Category name is required"

  /** The name field's validator. */
  function ValidateName(value: string): (error: Option<string>)
    ensures error.None? <==> exists i :: 0 <= i < |value| && !Text.IsSpace(value[i])
    ensures error.Some? ==> error.value == NameRequired
  {
    FormFields.Required(value, NameRequired)
  }

  class CategoryForm {
    const mode: FormMode
    const defaultValues: Option<seq<FormFields.DefaultValue>>
    const slug: Option<string>
    /** The field dictionary the form-state hook keeps. */
    var formData: map<string, string>
    /** How many times the form has called its `onClose` callback. */
    var onCloseCalls: nat

    constructor (mode: FormMode, defaultValues: Option<seq<FormFields.DefaultValue>>, slug: Option<string>)
      ensures this.mode == mode && this.defaultValues == defaultValues && this.slug == slug
      ensures formData == map[] && onCloseCalls == 0
    {
      this.mode := mode;
      this.defaultValues := defaultValues;
      this.slug := slug;
      formData := map[];
      onCloseCalls := 0;
    }

    /** The hook's `handleChange(name, value)`, as far as the data goes. */
    method HandleChange(name: string, value: string)
      modifies this`formData
      ensures formData == old(formData)[name := value]
    {
      formData := formData[name := value];
    }

    /** The mount effect: an update form takes each default in turn as if
        typed, so the last default for a field wins. */
    method MountEffect()
      modifies this`formData
      ensures mode == Update && defaultValues.Some? ==>
        formData == FormFields.Prefill(old(formData), defaultValues.value)
      ensures !(mode == Update && defaultValues.Some?) ==> formData == old(formData)
    {
      if mode == Update && defaultValues.Some? {
        var ds := defaultValues.value;
        for i := 0 to |ds|
          invariant formData == FormFields.Prefill(old(formData), ds[..i])
        {
          assert ds[..i + 1][..i] == ds[..i];
          HandleChange(ds[i].name, FormFields.ValueText(ds[i].value));
        }
        assert ds[..|ds|] == ds;
      }
    }

    /** Submitting valid data: a create form creates the category and
        appends the result; an update form with a slug updates it and
        replaces the entries with the returned slug; an update form without
        a slug sends nothing. Whatever happens, `onClose` is called once. */
    method HandleFormSubmit(store: Store, data: map<string, string>, reply: Reply<Category>)
      returns (call: Option<CategoryApi.Call>)
      modifies this`onCloseCalls, store`category
      ensures mode == Create ==> call == Some(CategoryApi.CreateCall(AsJson(data)))
      ensures mode == Update ==> (call.Some? <==> Truthy(slug))
      ensures mode == Update && call.Some? ==> call.value == CategoryApi.UpdateCall(AsJson(data), slug.value)
      ensures call.Some? && reply.Ok? && mode == Create ==>
        store.category.categories == old(store.category.categories) + [reply.value]
      ensures call.Some? && reply.Ok? && mode == Update ==>
        store.category.categories == SlugLists.ReplaceBySlug(old(store.category.categories), CategorySlug, reply.value)
      ensures !(call.Some? && reply.Ok?) ==> store.category == old(store.category)
      ensures onCloseCalls == old(onCloseCalls) + 1
    {
      call := None;
      if mode == Create {
        call := Some(CategoryApi.CreateCall(AsJson(data)));
        if reply.Ok? {
          store.DispatchCategory(CategoryReducer.AddNewCategory(reply.value));
        }
      } else if Truthy(slug) {
        call := Some(CategoryApi.UpdateCall(AsJson(data), slug.value));
        if reply.Ok? {
          var updated := SlugLists.ReplaceBySlug(store.category.categories, CategorySlug, reply.value);
          store.DispatchCategory(CategoryReducer.SetCategories(updated));
        }
      }
      onCloseCalls := onCloseCalls + 1;
    }
  }
}
