/** The admin question editor: the save validator, the option editor, the
    normalisation of a stored question into options A to D, the category
    filter of the question list, and the form's state changes on edit, cancel,
    load and submit. The question API's outcomes are supplied by the caller. */
module AdminQuestions {
  import opened Common
  import opened QuizContext

  // ---------------------------------------------------------------------------
  // String.prototype.trim
  // ---------------------------------------------------------------------------

  /** The characters JavaScript's `trim` removes: white space and line terminators. */
  predicate IsJsSpace(c: char)
  {
    var n := c as int;
    n == 0x09 || n == 0x0A || n == 0x0B || n == 0x0C || n == 0x0D || n == 0x20
    || n == 0xA0 || n == 0x1680 || (0x2000 <= n <= 0x200A) || n == 0x2028 || n == 0x2029
    || n == 0x202F || n == 0x205F || n == 0x3000 || n == 0xFEFF
  }

  /** `s` without its leading white space. */
  function TrimStart(s: string): (r: string)
    ensures |r| <= |s| && r == s[|s| - |r|..]
    ensures |r| > 0 ==> !IsJsSpace(r[0])
    ensures forall i :: 0 <= i < |s| - |r| ==> IsJsSpace(s[i])
  {
    if |s| > 0 && IsJsSpace(s[0]) then
      var r := TrimStart(s[1..]);
      assert s[1..][|s| - 1 - |r|..] == s[|s| - |r|..];
      assert forall i :: 1 <= i < |s| - |r| ==> s[i] == s[1..][i - 1];
      r
    else s
  }

  /** `s` without its trailing white space. */
  function TrimEnd(s: string): (r: string)
    ensures |r| <= |s| && r == s[..|r|]
    ensures |r| > 0 ==> !IsJsSpace(r[|r| - 1])
    ensures forall i :: |r| <= i < |s| ==> IsJsSpace(s[i])
  {
    if |s| > 0 && IsJsSpace(s[|s| - 1]) then
      var r := TrimEnd(s[..|s| - 1]);
      assert s[..|s| - 1][..|r|] == s[..|r|];
      assert forall i :: |r| <= i < |s| - 1 ==> s[i] == s[..|s| - 1][i];
      r
    else s
  }

  function Trim(s: string): string
  {
    TrimEnd(TrimStart(s))
  }

  /** Every character of `s` is white space. */
  predicate Blank(s: string)
  {
    forall i :: 0 <= i < |s| ==> IsJsSpace(s[i])
  }

  /** A string trims to nothing exactly when it is all white space. */
  lemma TrimEmptyIffBlank(s: string)
    ensures Trim(s) == "" <==> Blank(s)
  {
    if Blank(s) {
      BlankTrimsAway(s);
    }
  }

  lemma {:induction false} BlankTrimsAway(s: string)
    requires Blank(s)
    ensures TrimStart(s) == ""
  {
    if |s| > 0 {
      assert Blank(s[1..]) by {
        forall i | 0 <= i < |s| - 1
          ensures IsJsSpace(s[1..][i])
        {
          assert s[1..][i] == s[i + 1];
        }
      }
      BlankTrimsAway(s[1..]);
    }
  }

  // ---------------------------------------------------------------------------
  // The form's pure pieces
  // ---------------------------------------------------------------------------

  /** `canSave`: the trimmed question is longer than 3 characters and no option's
      trimmed text is empty. */
  predicate CanSave(text: string, options: seq<QuizOption>)
    ensures CanSave(text, options) ==> |text| > 3 && forall i :: 0 <= i < |options| ==> |options[i].text| > 0
  {
    |Trim(text)| > 3 && forall i :: 0 <= i < |options| ==> |Trim(options[i].text)| > 0
  }

  /** The submit button is enabled exactly when the question has more than 3
      characters once trimmed and every option has a character that is not white space. */
  lemma CanSaveIff(text: string, options: seq<QuizOption>)
    ensures CanSave(text, options) <==>
      |Trim(text)| > 3 && forall i :: 0 <= i < |options| ==> !Blank(options[i].text)
  {
    forall i | 0 <= i < |options|
      ensures |Trim(options[i].text)| > 0 <==> !Blank(options[i].text)
    {
      TrimEmptyIffBlank(options[i].text);
    }
  }

  /** `updateOption(idx, value)`: option `idx` takes the text `value`. */
  function UpdatedOptions(options: seq<QuizOption>, idx: int, value: string): (r: seq<QuizOption>)
    ensures |r| == |options|
    ensures forall i :: 0 <= i < |r| ==> r[i].key == options[i].key
    ensures forall i :: 0 <= i < |r| && i != idx ==> r[i] == options[i]
    ensures 0 <= idx < |r| ==> r[idx].text == value
  {
    seq(|options|, i requires 0 <= i < |options| => if i == idx then options[i].(text := value) else options[i])
  }

  /** An index outside the list changes nothing, and the last edit of an option wins. */
  lemma UpdateOptionLastWins(options: seq<QuizOption>, idx: int, v: string, w: string)
    ensures !(0 <= idx < |options|) ==> UpdatedOptions(options, idx, v) == options
    ensures UpdatedOptions(UpdatedOptions(options, idx, v), idx, w) == UpdatedOptions(options, idx, w)
  {
  }

  /** The four blank options the form starts and resets with. */
  const BlankOptions: seq<QuizOption> :=
    [QuizOption("A", ""), QuizOption("B", ""), QuizOption("C", ""), QuizOption("D", "")]

  /** A question of the list as the API sends it; `options` and `explanation` may be absent. */
  datatype ListedQuestion = ListedQuestion(
    id: string,
    category: string,
    text: string,
    options: Option<seq<QuizOption>>,
    correctKey: string,
    explanation: Option<string>)

  /** The (key, text) pairs written into the record, in order. */
  function OptionPairs(options: seq<QuizOption>): (ps: seq<(string, string)>)
    ensures |ps| == |options|
    ensures forall i :: 0 <= i < |options| ==> ps[i] == (options[i].key, options[i].text)
  {
    seq(|options|, i requires 0 <= i < |options| => (options[i].key, options[i].text))
  }

  /** `map[key] || ''`: the text the record holds for `key`, or '' when it holds none. */
  function TextFor(options: seq<QuizOption>, key: string): (t: string)
    ensures t == "" || exists i :: 0 <= i < |options| && options[i] == QuizOption(key, t)
  {
    LastBinding(OptionPairs(options), key).GetOr("")
  }

  /** The text for a key is that of the question's last option with the key,
      and '' when no option has it. */
  lemma TextForLast(options: seq<QuizOption>, key: string)
    ensures (forall i :: 0 <= i < |options| ==> options[i].key != key) ==> TextFor(options, key) == ""
    ensures (exists i :: 0 <= i < |options| && options[i].key == key) ==>
      exists i :: 0 <= i < |options| && options[i] == QuizOption(key, TextFor(options, key))
                  && forall j :: i < j < |options| ==> options[j].key != key
  {
    var ps := OptionPairs(options);
    var b := LastBinding(ps, key);
    if b.Some? {
      var i :| 0 <= i < |ps| && ps[i] == (key, b.value) && forall j :: i < j < |ps| ==> ps[j].0 != key;
      assert options[i] == QuizOption(key, TextFor(options, key));
    }
  }

  /** The options `onEdit` puts in the form: A, B, C and D, in that order. */
  function EditOptions(options: Option<seq<QuizOption>>): (r: seq<QuizOption>)
    ensures |r| == 4 && r[0].key == "A" && r[1].key == "B" && r[2].key == "C" && r[3].key == "D"
    ensures forall i :: 0 <= i < 4 ==> r[i].text == TextFor(options.GetOr([]), r[i].key)
  {
    var os := options.GetOr([]);
    [QuizOption("A", TextFor(os, "A")), QuizOption("B", TextFor(os, "B")),
     QuizOption("C", TextFor(os, "C")), QuizOption("D", TextFor(os, "D"))]
  }

  /** The A to D normalisation of `onEdit`: fill a record from the options, then read A to D. */
  method NormalizeOptions(options: Option<seq<QuizOption>>) returns (r: seq<QuizOption>)
    ensures r == EditOptions(options)
  {
    var os := options.GetOr([]);
    var m := FillMap(OptionPairs(os));
    var keys := ["A", "B", "C", "D"];
    r := [];
    for i := 0 to 4
      invariant |r| == i
      invariant forall j :: 0 <= j < i ==> r[j] == EditOptions(options)[j]
    {
      var t := if keys[i] in m then m[keys[i]] else "";
      RecordOption(m, options, keys, i);
      r := r + [QuizOption(keys[i], t)];
    }
  }

  /** The option read from the record filled from the options is the one
      `EditOptions` puts at that place. */
  lemma RecordOption(m: map<string, string>, options: Option<seq<QuizOption>>, keys: seq<string>, i: int)
    requires forall k :: k in m <==> LastBinding(OptionPairs(options.GetOr([])), k).Some?
    requires forall k :: k in m ==> m[k] == LastBinding(OptionPairs(options.GetOr([])), k).value
    requires keys == ["A", "B", "C", "D"] && 0 <= i < 4
    ensures QuizOption(keys[i], if keys[i] in m then m[keys[i]] else "") == EditOptions(options)[i]
  {
  }

  /** A question without options is edited with the blank options. */
  lemma EditWithoutOptions()
    ensures EditOptions(None) == BlankOptions
    ensures EditOptions(Some([])) == BlankOptions
  {
  }

  /** An option whose key is not A to D is dropped. */
  lemma OtherKeysDropped(before: seq<QuizOption>, x: QuizOption, after: seq<QuizOption>)
    requires x.key != "A" && x.key != "B" && x.key != "C" && x.key != "D"
    ensures EditOptions(Some(before + [x] + after)) == EditOptions(Some(before + after))
  {
    forall key | key in {"A", "B", "C", "D"}
      ensures TextFor(before + [x] + after, key) == TextFor(before + after, key)
    {
      OptionOfOtherKeyIgnored(before, x, after, key);
    }
  }

  lemma OptionOfOtherKeyIgnored(before: seq<QuizOption>, x: QuizOption, after: seq<QuizOption>, key: string)
    requires x.key != key
    ensures TextFor(before + [x] + after, key) == TextFor(before + after, key)
  {
    assert OptionPairs(before + [x] + after) == OptionPairs(before) + [(x.key, x.text)] + OptionPairs(after);
    assert OptionPairs(before + after) == OptionPairs(before) + OptionPairs(after);
    LastBindingSkips(OptionPairs(before), (x.key, x.text), OptionPairs(after), key);
  }

  /** `filteredList`: the whole list for 'All', otherwise the questions of that category. */
  function FilteredList(list: seq<ListedQuestion>, filter: string): (r: seq<ListedQuestion>)
    ensures filter == "All" ==> r == list
    ensures filter != "All" ==> forall i :: 0 <= i < |r| ==> r[i].category == filter
    ensures |r| <= |list|
  {
    if filter == "All" then list
    else if |list| == 0 then []
    else FilteredList(list[..|list| - 1], filter) + (if list[|list| - 1].category == filter then [list[|list| - 1]] else [])
  }

  /** The filter keeps exactly the questions of the category, each as often as
      it occurs, in list order: filtering a concatenation filters each part. */
  lemma {:induction false} FilteredListAppend(list: seq<ListedQuestion>, more: seq<ListedQuestion>, filter: string)
    requires filter != "All"
    ensures FilteredList(list + more, filter) == FilteredList(list, filter) + FilteredList(more, filter)
    decreases |more|
  {
    if |more| == 0 {
      assert list + more == list;
    } else {
      var init, last := more[..|more| - 1], more[|more| - 1];
      var kept := if last.category == filter then [last] else [];
      calc {
        FilteredList(list + more, filter);
        { assert list + more == (list + init) + [last]; }
        FilteredList((list + init) + [last], filter);
        { FilteredSnoc(list + init, last, filter); }
        FilteredList(list + init, filter) + kept;
        { FilteredListAppend(list, init, filter); }
        (FilteredList(list, filter) + FilteredList(init, filter)) + kept;
        FilteredList(list, filter) + (FilteredList(init, filter) + kept);
        { FilteredSnoc(init, last, filter); assert more == init + [last]; }
        FilteredList(list, filter) + FilteredList(more, filter);
      }
    }
  }

  /** Filtering a list with one more question keeps that question exactly when
      its category is the filter. */
  lemma FilteredSnoc(list: seq<ListedQuestion>, q: ListedQuestion, filter: string)
    requires filter != "All"
    ensures FilteredList(list + [q], filter) == FilteredList(list, filter) + (if q.category == filter then [q] else [])
  {
    assert (list + [q])[..|list|] == list;
  }

  /** Every question of the category is kept, as often as it occurs. */
  lemma {:induction false} FilteredListCounts(list: seq<ListedQuestion>, filter: string, q: ListedQuestion)
    requires filter != "All"
    ensures multiset(FilteredList(list, filter))[q] == if q.category == filter then multiset(list)[q] else 0
  {
    if |list| > 0 {
      var init := list[..|list| - 1];
      FilteredListCounts(init, filter, q);
      assert list == init + [list[|list| - 1]];
    }
  }

  // ---------------------------------------------------------------------------
  // The form
  // ---------------------------------------------------------------------------

  /** What is sent to the question API on save; an empty explanation is sent as absent. */
  datatype QuestionPayload = QuestionPayload(
    category: string,
    text: string,
    options: seq<QuizOption>,
    correctKey: string,
    explanation: Option<string>)

  datatype SaveRequest = Create(payload: QuestionPayload) | Update(id: string, payload: QuestionPayload)

  datatype FormState = FormState(
    category: string,
    text: string,
    options: seq<QuizOption>,
    correctKey: string,
    explanation: string,
    saving: bool,
    error: Option<string>,
    list: seq<ListedQuestion>,
    loadingList: bool,
    filterCategory: string,
    editingId: Option<string>)

  /** `e?.response?.data?.message || fallback`. */
  function ErrorText(e: ApiError, fallback: string): (t: string)
    ensures e.message.Some? && e.message.value != "" ==> t == e.message.value
    ensures e.message.None? || e.message.value == "" ==> t == fallback
    ensures t == "" ==> fallback == ""
  {
    if e.message.Some? && e.message.value != "" then e.message.value else fallback
  }

  /** The form's first state; `firstCategory` is the first entry of the category list. */
  function InitialForm(firstCategory: string): (r: FormState)
    ensures Cleared(r) == r && !CanSave(r.text, r.options) && !IsEditing(r)
    ensures !r.saving && r.error.None? && !r.loadingList
    ensures r.category == firstCategory && r.filterCategory == "All" && r.list == []
  {
    FormState(firstCategory, "", BlankOptions, "A", "", false, None, [], false, "All", None)
  }

  /** The reset after a save and on cancel: the question, its options, the correct
      key, the explanation and the edited id are cleared; everything else stays. */
  function Cleared(s: FormState): (r: FormState)
    ensures r.text == "" && r.options == BlankOptions && r.correctKey == "A" && r.explanation == ""
    ensures r.editingId.None?
    ensures r.(text := s.text, options := s.options, correctKey := s.correctKey,
               explanation := s.explanation, editingId := s.editingId) == s
  {
    s.(text := "", options := BlankOptions, correctKey := "A", explanation := "", editingId := None)
  }

  /** `load` with the list call's outcome. */
  function Loaded(s: FormState, response: ApiResult<seq<ListedQuestion>>): (r: FormState)
    ensures !r.loadingList
    ensures r.(list := s.list, error := s.error, loadingList := s.loadingList) == s
    ensures response.Ok? ==> r == s.(list := response.value, loadingList := false)
    ensures response.Failed? ==> r == s.(error := Some(ErrorText(response.error, "Failed to load")), loadingList := false)
  {
    match response
    case Ok(data) => s.(list := data, loadingList := false)
    case Failed(e) => s.(error := Some(ErrorText(e, "Failed to load")), loadingList := false)
  }

  /** `onEdit(q)`: the form takes the question's id, category, text, A to D
      options, correct key and explanation ('' when absent). */
  function Edited(s: FormState, q: ListedQuestion): (r: FormState)
    ensures IsEditing(r) <==> q.id != ""
    ensures r.editingId == Some(q.id) && r.text == q.text && r.correctKey == q.correctKey
    ensures r.explanation == q.explanation.GetOr("")
    ensures r.options == EditOptions(q.options)
    ensures Cleared(r) == Cleared(s).(category := q.category)
  {
    s.(editingId := Some(q.id), category := q.category, text := q.text, options := EditOptions(q.options),
       correctKey := q.correctKey, explanation := q.explanation.GetOr(""))
  }

  /** Whether a save updates an existing question: the edited id is set and not empty. */
  predicate IsEditing(s: FormState)
  {
    s.editingId.Some? && s.editingId.value != ""
  }

  /** The request a save sends. */
  function SaveRequestOf(s: FormState): (req: SaveRequest)
    ensures req.payload.explanation.None? <==> s.explanation == ""
    ensures req.payload.explanation.Some? ==> req.payload.explanation.value == s.explanation
    ensures req.Update? <==> IsEditing(s)
    ensures req.Update? ==> req.id == s.editingId.value
    ensures req.payload.category == s.category && req.payload.text == s.text
    ensures req.payload.options == s.options && req.payload.correctKey == s.correctKey
  {
    var payload := QuestionPayload(s.category, s.text, s.options, s.correctKey,
                                   if s.explanation == "" then None else Some(s.explanation));
    if IsEditing(s) then Update(s.editingId.value, payload) else Create(payload)
  }

  /** `onSubmit` for a user whose role is `role`: nothing unless the user is an
      admin; otherwise the save's outcome either clears the form and reloads the
      list, or records the error. */
  function Submitted(s: FormState, role: Option<string>, save: ApiResult<()>, reload: ApiResult<seq<ListedQuestion>>)
    : (r: FormState)
    ensures role != Some("admin") ==> r == s
    ensures role == Some("admin") && save.Ok? ==>
      r == Loaded(Cleared(s).(saving := true, error := None, loadingList := true), reload).(saving := false)
    ensures role == Some("admin") && save.Failed? ==>
      r == s.(saving := false, error := Some(ErrorText(save.error, "Failed to create")))
  {
    if role != Some("admin") then s
    else
      var pending := s.(saving := true, error := None);
      match save
      case Ok(_) => Loaded(Cleared(pending).(loadingList := true), reload).(saving := false)
      case Failed(e) => pending.(error := Some(ErrorText(e, "Failed to create")), saving := false)
  }

  /** A form whose question is empty cannot be saved. */
  lemma EmptyTextCannotSave(options: seq<QuizOption>)
    ensures !CanSave("", options)
  {
    assert |Trim("")| <= |TrimStart("")| <= 0;
  }

  /** After a successful save or a cancel the form cannot be saved again until
      the question is typed anew; it keeps its category and edits no question. */
  lemma ClearedCannotSave(s: FormState, reload: ApiResult<seq<ListedQuestion>>)
    ensures !CanSave(Cleared(s).text, Cleared(s).options)
    ensures Cleared(s).category == s.category
    ensures var r := Submitted(s, Some("admin"), Ok(()), reload);
      !CanSave(r.text, r.options) && r.category == s.category && r.editingId.None? && !r.saving
  {
    var c := Cleared(s.(saving := true, error := None)).(loadingList := true);
    var r := Submitted(s, Some("admin"), Ok(()), reload);
    assert r == Loaded(c, reload).(saving := false);
    assert r.text == "" && r.options == BlankOptions && r.category == s.category && r.editingId.None? by {
      if reload.Ok? {
        assert Loaded(c, reload) == c.(list := reload.value, loadingList := false);
      } else {
        assert Loaded(c, reload) == c.(error := Some(ErrorText(reload.error, "Failed to load")), loadingList := false);
      }
    }
    EmptyTextCannotSave(BlankOptions);
  }

  /** Cancelling an edit gives the same form fields as editing a blank question
      and then clearing it, and clearing twice is clearing once. */
  lemma ClearIdempotent(s: FormState, q: ListedQuestion)
    ensures Cleared(Cleared(s)) == Cleared(s)
    ensures Cleared(Edited(s, q)).options == Cleared(s).options == EditOptions(None)
  {
  }

  /** The editor form with its fields; the methods are the page's handlers. */
  class AdminQuestionsForm {
    var category: string
    var text: string
    var options: seq<QuizOption>
    var correctKey: string
    var explanation: string
    var saving: bool
    var error: Option<string>
    var list: seq<ListedQuestion>
    var loadingList: bool
    var filterCategory: string
    var editingId: Option<string>

    function State(): FormState
      reads this
    {
      FormState(category, text, options, correctKey, explanation, saving, error, list, loadingList,
                filterCategory, editingId)
    }

    constructor(firstCategory: string)
      ensures State() == InitialForm(firstCategory)
    {
      category, text, options, correctKey, explanation := firstCategory, "", BlankOptions, "A", "";
      saving, error, list, loadingList, filterCategory, editingId := false, None, [], false, "All", None;
    }

    method UpdateOption(idx: int, value: string)
      modifies this
      ensures State() == old(State()).(options := UpdatedOptions(old(options), idx, value))
    {
      options := UpdatedOptions(options, idx, value);
    }

    /** `load`, with the list call's outcome. */
    method Load(response: ApiResult<seq<ListedQuestion>>)
      modifies this
      ensures State() == Loaded(old(State()), response)
    {
      loadingList := true;
      match response {
        case Ok(data) => list := data;
        case Failed(e) => error := Some(ErrorText(e, "Failed to load"));
      }
      loadingList := false;
    }

    method OnEdit(q: ListedQuestion)
      modifies this
      ensures State() == Edited(old(State()), q)
    {
      var normalized := NormalizeOptions(q.options);
      editingId, category, text, options, correctKey, explanation :=
        Some(q.id), q.category, q.text, normalized, q.correctKey, q.explanation.GetOr("");
    }

    method CancelEdit()
      modifies this
      ensures State() == Cleared(old(State()))
    {
      editingId, text, options, correctKey, explanation := None, "", BlankOptions, "A", "";
    }

    /** `onSubmit`: `role` is the signed-in user's role, `save` the outcome of the
        create or update call and `reload` that of the list call that follows a
        successful save. */
    method OnSubmit(role: Option<string>, save: ApiResult<()>, reload: ApiResult<seq<ListedQuestion>>)
      returns (request: Option<SaveRequest>)
      modifies this
      ensures request == if role == Some("admin") then Some(SaveRequestOf(old(State()))) else None
      ensures State() == Submitted(old(State()), role, save, reload)
    {
      if role != Some("admin") {
        return None;
      }
      var before := State();
      saving := true;
      error := None;
      request := Some(SaveRequestOf(before));
      match save {
        case Ok(_) =>
          CancelEdit();
          Load(reload);
        case Failed(e) =>
          error := Some(ErrorText(e, "Failed to create"));
      }
      saving := false;
    }
  }
}
