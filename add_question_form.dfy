/** The form for a new question: title, description, solution (from the
    code editor), two links, a language and a question type, with field
    errors kept in a dictionary. Submitting validates and resets the form;
    the question it builds is not sent anywhere. */
module AddQuestionForm {
  import opened Base
  import opened Text
  import opened Entities

  datatype Language = JavaScript | TypeScript | Jsx | Tsx

  /** The question the form assembles on a valid submit. */
  datatype NewQuestion = NewQuestion(
    title: string, description: string, solution: string,
    youtubeLink: string, websiteLink: string)

  const TitleRequired := "Title is required"
  const TitleTooShort := "Title must be atleast 3 characters."
  const DescriptionRequired := "Description is required"
  const DescriptionTooShort := "Description must be atleast 3 characters."

  /** The errors a submit reports: one per empty field. Only the empty
      string counts as empty here; whitespace does not. */
  function SubmitErrors(title: string, description: string): (errors: map<string, string>)
    ensures "title" in errors <==> title == ""
    ensures "description" in errors <==> description == ""
    ensures errors.Keys <= {"title", "description"}
    ensures "title" in errors ==> errors["title"] == TitleRequired
    ensures "description" in errors ==> errors["description"] == DescriptionRequired
  {
    (if title == "" then map["title" := TitleRequired] else map[])
    + (if description == "" then map["description" := DescriptionRequired] else map[])
  }

  /** The error a keystroke sets for its field, judged on the JavaScript
      length (UTF-16 code units) of the trimmed text: none from 3 on,
      "too short" below that, and "required" when nothing but whitespace
      is left. */
  function ChangeError(value: string, tooShort: string, required: string): (error: Option<string>)
    ensures error.None? <==> Utf16Length(Trim(value)) >= 3
    ensures IsBlank(value) ==> error == Some(required)
    ensures 0 < Utf16Length(Trim(value)) < 3 ==> error == Some(tooShort)
  {
    var n := Utf16Length(Trim(value));
    if n >= 3 then None else if n > 0 then Some(tooShort) else Some(required)
  }

  /** An error dictionary with one entry set to `error`, or removed when
      there is none; the other entries are kept. */
  function WithError(errors: map<string, string>, key: string, error: Option<string>): (r: map<string, string>)
    ensures r - {key} == errors - {key}
    ensures error.None? ==> key !in r
    ensures error.Some? ==> key in r && r[key] == error.value
  {
    if error.None? then errors - {key} else errors[key := error.value]
  }

  /** The submit rule and the keystroke rule disagree: a title of spaces,
      or of one or two characters, is flagged while typing but passes
      submit. */
  lemma TitleRulesDisagree(d: string)
    requires d != ""
    ensures ChangeError("   ", TitleTooShort, TitleRequired) == Some(TitleRequired)
    ensures "title" !in SubmitErrors("   ", d)
    ensures ChangeError("ab", TitleTooShort, TitleRequired) == Some(TitleTooShort)
    ensures "title" !in SubmitErrors("ab", d)
  {
    assert "   "[1..] == "  " && "  "[1..] == " " && " "[1..] == "";
    assert TrimStart("   ") == "";
    assert TrimStart("ab") == "ab";
    assert TrimEnd("ab") == "ab";
  }

  class AddQuestionForm {
    var title: string
    var description: string
    var solution: string
    var youtubeLink: string
    var websiteLink: string
    var language: Language
    var kind: QuestionKind
    var errors: map<string, string>

    /** A fresh form: empty texts, JavaScript, a coding question, and both
        error entries present but empty. */
    constructor ()
      ensures title == "" && description == "" && solution == "" && youtubeLink == "" && websiteLink == ""
      ensures language == JavaScript && kind == Coding
      ensures errors == map["title" := "", "description" := ""]
    {
      title := "";
      description := "";
      solution := "";
      youtubeLink := "";
      websiteLink := "";
      language := JavaScript;
      kind := Coding;
      errors := map["title" := "", "description" := ""];
    }

    /** Submit: with an empty title or description the errors become
        exactly the submit errors and nothing else changes; otherwise the
        question is assembled from the fields, the five texts are reset and
        the errors cleared. Language and type are kept either way. */
    method HandleSubmit() returns (submitted: Option<NewQuestion>)
      modifies this
      ensures submitted.None? <==> old(title) == "" || old(description) == ""
      ensures submitted.None? ==>
        && errors == SubmitErrors(old(title), old(description))
        && title == old(title) && description == old(description) && solution == old(solution)
        && youtubeLink == old(youtubeLink) && websiteLink == old(websiteLink)
      ensures submitted.Some? ==>
        && submitted.value == NewQuestion(old(title), old(description), old(solution),
                                          old(youtubeLink), old(websiteLink))
        && title == "" && description == "" && solution == "" && youtubeLink == "" && websiteLink == ""
        && errors == map[]
      ensures language == old(language) && kind == old(kind)
    {
      var hasError := false;
      var newErrors: map<string, string> := map[];
      if title == "" {
        newErrors := newErrors["title" := TitleRequired];
        hasError := true;
      }
      if description == "" {
        newErrors := newErrors["description" := DescriptionRequired];
        hasError := true;
      }
      if hasError {
        errors := newErrors;
        submitted := None;
        return;
      }
      submitted := Some(NewQuestion(title, description, solution, youtubeLink, websiteLink));
      title := "";
      description := "";
      solution := "";
      youtubeLink := "";
      websiteLink := "";
      errors := map[];
    }

    /** A keystroke in the title: the title takes the raw text and its
        error entry follows the keystroke rule (removed when there is no
        error); every other error entry is kept. */
    method HandleTitleChange(value: string)
      modifies this`title, this`errors
      ensures title == value
      ensures errors == WithError(old(errors), "title", ChangeError(value, TitleTooShort, TitleRequired))
    {
      var copy := errors;
      var n := Utf16Length(Trim(value));
      if n >= 3 {
        assert ChangeError(value, TitleTooShort, TitleRequired) == None;
        copy := copy - {"title"};
      } else if n > 0 {
        assert ChangeError(value, TitleTooShort, TitleRequired) == Some(TitleTooShort);
        copy := copy["title" := TitleTooShort];
      } else {
        assert ChangeError(value, TitleTooShort, TitleRequired) == Some(TitleRequired);
        copy := copy["title" := TitleRequired];
      }
      errors := copy;
      title := value;
    }

    /** A keystroke in the description, by the same rule. */
    method HandleDescriptionChange(value: string)
      modifies this`description, this`errors
      ensures description == value
      ensures errors == WithError(old(errors), "description", ChangeError(value, DescriptionTooShort, DescriptionRequired))
    {
      var copy := errors;
      var n := Utf16Length(Trim(value));
      if n >= 3 {
        assert ChangeError(value, DescriptionTooShort, DescriptionRequired) == None;
        copy := copy - {"description"};
      } else if n > 0 {
        assert ChangeError(value, DescriptionTooShort, DescriptionRequired) == Some(DescriptionTooShort);
        copy := copy["description" := DescriptionTooShort];
      } else {
        assert ChangeError(value, DescriptionTooShort, DescriptionRequired) == Some(DescriptionRequired);
        copy := copy["description" := DescriptionRequired];
      }
      errors := copy;
      description := value;
    }

    /** The code editor's change: an undefined value empties the
        solution. */
    method HandleEditorChange(value: Option<string>)
      modifies this`solution
      ensures solution == OrElse(value, "")
    {
      solution := OrElse(value, "");
    }

    /** The language toggle: deselecting (null) keeps the language. */
    method HandleLanguageChange(value: Option<Language>)
      modifies this`language
      ensures language == value.GetOr(old(language))
    {
      if value.Some? {
        language := value.value;
      }
    }

    /** The type toggle: deselecting (null) keeps the type. */
    method HandleTypeChange(value: Option<QuestionKind>)
      modifies this`kind
      ensures kind == value.GetOr(old(kind))
    {
      if value.Some? {
        kind := value.value;
      }
    }

    method HandleYoutubeLinkChange(value: string)
      modifies this`youtubeLink
      ensures youtubeLink == value
    {
      youtubeLink := value;
    }

    method HandleWebsiteLinkChange(value: string)
      modifies this`websiteLink
      ensures websiteLink == value
    {
      websiteLink := value;
    }
  }
}
