/** The page of one question (the `questionId` route parameter): its text,
    an edit mode with a Save button enabled only by real changes, and a
    topic picker fed page by page from the topic list. */
module QuestionDetailsPage {
  import opened Base
  import opened Entities
  import TopicApi
  import QuestionApi
  import QuestionReducer
  import opened InfiniteScrollDropdown
  import opened AppStore

  /** The edited copy of the question, by field name. Only its text
      fields are tracked. */
  type Draft = map<string, string>

  /** All of the page's own state at one moment; `solutionOpen` is the
      solution popup. */
  datatype PageState = PageState(
    solutionOpen: bool, editMode: bool, topics: seq<DropdownOption>,
    currentPage: int, totalPage: int, searchValue: string,
    selectedTopic: Option<DropdownOption>, loadingTopics: bool,
    originalQuestion: Option<QuestionDetails>, updatedQuestion: Option<Draft>)

  /** Each topic becomes the option `{label: name, value: slug}`, in list
      order. */
  function TopicOptions(ts: seq<Topic>): (os: seq<DropdownOption>)
    ensures |os| == |ts|
    ensures forall i :: 0 <= i < |ts| ==> os[i] == DropdownOption(ts[i].name, TextValue(ts[i].slug))
  {
    if ts == [] then [] else [DropdownOption(ts[0].name, TextValue(ts[0].slug))] + TopicOptions(ts[1..])
  }

  /** The option that stands for a question's own topic. */
  function OptionOf(q: QuestionDetails): DropdownOption {
    DropdownOption(q.topic.name, TextValue(q.topic.slug))
  }

  /** A loaded question as a draft. */
  function DraftOf(q: Option<QuestionDetails>): (d: Option<Draft>)
    ensures d.None? <==> q.None?
    ensures q.Some? ==> d.value == map["title" := q.value.title, "description" := q.value.description,
                                       "solution" := q.value.solution]
  {
    match q
    case None => None
    case Some(v) => Some(map["title" := v.title, "description" := v.description, "solution" := v.solution])
  }

  /** `{ ...draft, [field]: value }`; a missing draft spreads as `{}`. */
  function EditField(d: Option<Draft>, field: string, value: string): (r: Draft)
    ensures field in r && r[field] == value
    ensures forall k :: k != field ==> (k in r <==> d.Some? && k in d.value)
    ensures forall k :: k != field && d.Some? && k in d.value ==> r[k] == d.value[k]
  {
    (if d.Some? then d.value else map[])[field := value]
  }

  /** A draft field's value; a missing field reads as `undefined`. */
  function Get(d: Draft, k: string): Option<string> {
    if k in d then Some(d[k]) else None
  }

  /** Save is disabled while either copy is missing, and otherwise while
      title, description and solution all equal the original's. */
  predicate SaveDisabled(original: Option<QuestionDetails>, draft: Option<Draft>)
    ensures original.None? || draft.None? ==> SaveDisabled(original, draft)
    ensures draft == DraftOf(original) ==> SaveDisabled(original, draft)
  {
    original.None? || draft.None? ||
    (Get(draft.value, "title") == Some(original.value.title) &&
     Get(draft.value, "description") == Some(original.value.description) &&
     Get(draft.value, "solution") == Some(original.value.solution))
  }

  /** A fresh (or restored) draft keeps Save disabled; a single edit
      enables it exactly when it changes one of the three compared fields;
      an edit of any other field leaves it disabled. */
  lemma SaveDisabledLaws(q: QuestionDetails, field: string, value: string)
    ensures SaveDisabled(Some(q), DraftOf(Some(q)))
    ensures !SaveDisabled(Some(q), Some(EditField(DraftOf(Some(q)), field, value))) <==>
      (field == "title" && value != q.title) ||
      (field == "description" && value != q.description) ||
      (field == "solution" && value != q.solution)
  {
  }

  /** The topic picker's selection handler: a missing option is ignored. */
  function SelectTopic(current: Option<DropdownOption>, v: Option<DropdownOption>): (r: Option<DropdownOption>)
    ensures v.Some? ==> r == v
    ensures v.None? ==> r == current
  {
    if v.Some? then v else current
  }

  /** Clearing the picker's text does not clear the page's selection: the
      picker reports no option and the page ignores it. */
  lemma ClearKeepsSelection(current: Option<DropdownOption>)
    ensures OnInputChange("clear").Some?
    ensures SelectTopic(current, OnInputChange("clear").value) == current
  {
  }

  class QuestionDetailsPage {
    const questionId: Option<string>
    var solutionOpen: bool
    var editMode: bool
    var topics: seq<DropdownOption>
    var currentPage: int
    var totalPage: int
    var searchValue: string
    var selectedTopic: Option<DropdownOption>
    var loadingTopics: bool
    var originalQuestion: Option<QuestionDetails>
    var updatedQuestion: Option<Draft>

    ghost function Snapshot(): PageState
      reads this
    {
      PageState(solutionOpen, editMode, topics, currentPage, totalPage, searchValue,
                selectedTopic, loadingTopics, originalQuestion, updatedQuestion)
    }

    constructor (questionId: Option<string>)
      ensures this.questionId == questionId
      ensures Snapshot() == PageState(false, false, [], 1, 1, "", None, false, None, None)
    {
      this.questionId := questionId;
      solutionOpen := false;
      editMode := false;
      topics := [];
      currentPage := 1;
      totalPage := 1;
      searchValue := "";
      selectedTopic := None;
      loadingTopics := false;
      originalQuestion := None;
      updatedQuestion := None;
    }

    /** What the topic picker is told about further pages. */
    predicate HasMore()
      reads this
    {
      currentPage < totalPage
    }

    /** Whether the Save button is disabled. */
    predicate IsDisable()
      reads this
      ensures originalQuestion.None? ==> IsDisable()
      ensures updatedQuestion == DraftOf(originalQuestion) ==> IsDisable()
    {
      SaveDisabled(originalQuestion, updatedQuestion)
    }

    /** Fetch page `page` of all topics matching `search`: on success the
        page number and count come from the response, and the options are
        appended for a page other than 1 and replaced for page 1. A refusal
        changes nothing but the loading flag, which always ends off. */
    method LoadTopics(page: int, search: string, reply: Reply<TopicApi.ListBody>) returns (call: TopicApi.Call)
      modifies this
      ensures call == TopicApi.ListCall("", page, search, None)
      ensures reply.Ok? ==> Snapshot() == old(Snapshot()).(
        currentPage := reply.value.page, totalPage := reply.value.totalPages,
        topics := (if page != 1 then old(topics) else []) + TopicOptions(reply.value.data),
        loadingTopics := false)
      ensures reply.Failed? ==> Snapshot() == old(Snapshot()).(loadingTopics := false)
    {
      loadingTopics := true;
      call := TopicApi.ListCall("", page, search, None);
      if reply.Ok? {
        var data := TopicOptions(reply.value.data);
        currentPage := reply.value.page;
        totalPage := reply.value.totalPages;
        if page != 1 {
          topics := topics + data;
        } else {
          topics := data;
          assert [] + data == data;
        }
      }
      loadingTopics := false;
    }

    /** Mount: load the first page of topics, then fetch the question (an
        empty slug without a route parameter); once it arrives it is both
        the original and the draft, its topic is selected, and it becomes
        the opened question in the store. A refused fetch changes nothing
        more. */
    method OnLoad(store: Store, topicsReply: Reply<TopicApi.ListBody>, detailsReply: Reply<QuestionDetails>)
      returns (topicsCall: TopicApi.Call, detailsCall: QuestionApi.Call)
      modifies this, store`question
      ensures topicsCall == TopicApi.ListCall("", 1, "", None)
      ensures detailsCall == QuestionApi.DetailsCall(OrElse(questionId, ""))
      ensures topicsReply.Ok? ==>
        topics == TopicOptions(topicsReply.value.data) && currentPage == topicsReply.value.page
        && totalPage == topicsReply.value.totalPages
      ensures topicsReply.Failed? ==>
        topics == old(topics) && currentPage == old(currentPage) && totalPage == old(totalPage)
      ensures !loadingTopics && solutionOpen == old(solutionOpen) && editMode == old(editMode)
      ensures searchValue == old(searchValue)
      ensures detailsReply.Ok? ==>
        && originalQuestion == Some(detailsReply.value)
        && updatedQuestion == DraftOf(Some(detailsReply.value))
        && selectedTopic == Some(OptionOf(detailsReply.value))
        && store.question.openedQuestion == Some(detailsReply.value)
        && store.question.questions == old(store.question.questions)
        && IsDisable()
      ensures detailsReply.Failed? ==>
        && originalQuestion == old(originalQuestion) && updatedQuestion == old(updatedQuestion)
        && selectedTopic == old(selectedTopic) && store.question == old(store.question)
    {
      topicsCall := LoadTopics(1, "", topicsReply);
      if topicsReply.Ok? {
        assert [] + TopicOptions(topicsReply.value.data) == TopicOptions(topicsReply.value.data);
      }
      ghost var loaded := Snapshot();
      detailsCall := QuestionApi.DetailsCall(OrElse(questionId, ""));
      if detailsReply.Ok? {
        var q := detailsReply.value;
        originalQuestion := Some(q);
        updatedQuestion := DraftOf(Some(q));
        selectedTopic := Some(OptionOf(q));
        store.DispatchQuestion(QuestionReducer.SetOpenedQuestion(Some(q)));
        assert Snapshot() == loaded.(originalQuestion := Some(q), updatedQuestion := DraftOf(Some(q)),
                                     selectedTopic := Some(OptionOf(q)));
      }
    }

    /** Typing in the topic picker: the text becomes the search and page 1
        of matching topics replaces the options. */
    method HandleTopicChange(value: string, reply: Reply<TopicApi.ListBody>) returns (call: TopicApi.Call)
      modifies this
      ensures call == TopicApi.ListCall("", 1, value, None)
      ensures reply.Ok? ==> Snapshot() == old(Snapshot()).(
        searchValue := value, currentPage := reply.value.page, totalPage := reply.value.totalPages,
        topics := TopicOptions(reply.value.data), loadingTopics := false)
      ensures reply.Failed? ==> Snapshot() == old(Snapshot()).(
        searchValue := value, currentPage := 1, loadingTopics := false)
    {
      searchValue := value;
      currentPage := 1;
      call := LoadTopics(1, value, reply);
      if reply.Ok? {
        assert [] + TopicOptions(reply.value.data) == TopicOptions(reply.value.data);
      }
    }

    /** The picker scrolled to its end: advance the page number and fetch
        that page with the current search; its options are appended (the
        page asked for is never page 1 once pages start at 1). */
    method FetchMoreTopics(reply: Reply<TopicApi.ListBody>) returns (call: TopicApi.Call)
      modifies this
      ensures call == TopicApi.ListCall("", old(currentPage) + 1, old(searchValue), None)
      ensures reply.Ok? ==> Snapshot() == old(Snapshot()).(
        currentPage := reply.value.page, totalPage := reply.value.totalPages,
        topics := (if old(currentPage) + 1 != 1 then old(topics) else []) + TopicOptions(reply.value.data),
        loadingTopics := false)
      ensures reply.Failed? ==> Snapshot() == old(Snapshot()).(
        currentPage := old(currentPage) + 1, loadingTopics := false)
    {
      var next := currentPage + 1;
      currentPage := next;
      call := LoadTopics(next, searchValue, reply);
    }

    /** The topic picker's list scrolled, with the page's wiring: the
        picker is told `loading` is the topic load flag and `hasMore` is
        `currentPage < totalPage`, and its load-more is `FetchMoreTopics`.
        A request goes out only at the very bottom, never while topics
        load and never on the last page; otherwise nothing changes. */
    method HandleTopicListScroll(scrollHeight: int, scrollTop: int, clientHeight: int,
                                 reply: Reply<TopicApi.ListBody>)
      returns (call: Option<TopicApi.Call>)
      modifies this
      ensures call.Some? <==> ShouldLoadMore(scrollHeight, scrollTop, clientHeight, old(loadingTopics), old(HasMore()))
      ensures call.Some? ==> !old(loadingTopics) && old(currentPage) < old(totalPage)
      ensures call.Some? ==> call.value == TopicApi.ListCall("", old(currentPage) + 1, old(searchValue), None)
      ensures call.Some? && reply.Ok? ==> Snapshot() == old(Snapshot()).(
        currentPage := reply.value.page, totalPage := reply.value.totalPages,
        topics := (if old(currentPage) + 1 != 1 then old(topics) else []) + TopicOptions(reply.value.data),
        loadingTopics := false)
      ensures call.Some? && reply.Failed? ==> Snapshot() == old(Snapshot()).(
        currentPage := old(currentPage) + 1, loadingTopics := false)
      ensures call.None? ==> Snapshot() == old(Snapshot())
    {
      if ShouldLoadMore(scrollHeight, scrollTop, clientHeight, loadingTopics, HasMore()) {
        var c := FetchMoreTopics(reply);
        call := Some(c);
      } else {
        call := None;
      }
    }

    method HandleSelectTopic(v: Option<DropdownOption>)
      modifies this
      ensures Snapshot() == old(Snapshot()).(selectedTopic := SelectTopic(old(selectedTopic), v))
    {
      if v.Some? {
        selectedTopic := v;
      }
    }

    method HandleChangeField(field: string, value: string)
      modifies this
      ensures Snapshot() == old(Snapshot()).(updatedQuestion := Some(EditField(old(updatedQuestion), field, value)))
    {
      updatedQuestion := Some(EditField(updatedQuestion, field, value));
    }

    method StartEdit()
      modifies this
      ensures Snapshot() == old(Snapshot()).(editMode := true)
    {
      editMode := true;
    }

    /** Cancel leaves edit mode and restores the draft from the original,
        which disables Save again. */
    method CancelEdit()
      modifies this
      ensures Snapshot() == old(Snapshot()).(editMode := false, updatedQuestion := DraftOf(old(originalQuestion)))
      ensures IsDisable()
    {
      editMode := false;
      updatedQuestion := DraftOf(originalQuestion);
      if originalQuestion.Some? {
        SaveDisabledLaws(originalQuestion.value, "title", originalQuestion.value.title);
      }
    }

    method OpenSolution()
      modifies this
      ensures Snapshot() == old(Snapshot()).(solutionOpen := true)
    {
      solutionOpen := true;
    }

    method CloseSolution()
      modifies this
      ensures Snapshot() == old(Snapshot()).(solutionOpen := false)
    {
      solutionOpen := false;
    }
  }
}
