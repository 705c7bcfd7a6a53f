/**
 * The search form's submit logic: the keyword box, the result-limit selector
 * and what a submit passes on to the page.
 */
module SearchForm {
  import opened Wrappers
  import opened Text

  /** The initial result limit. */
  const DEFAULT_LIMIT: nat := 10

  /** The limits the selector offers, in display order. */
  const LIMIT_OPTIONS: seq<nat> := [5, 10, 20, 50]

  /** The form's state: the typed keyword and the chosen limit. */
  datatype FormState = FormState(keyword: string, limit: nat)

  const INITIAL_FORM: FormState := FormState("", DEFAULT_LIMIT)

  /** The arguments of a call to `onSearch`. */
  datatype SearchRequest = SearchRequest(keyword: string, limit: nat)

  /** `handleSubmit`: the callback runs only for a keyword that is not blank, with the trimmed keyword. */
  function Submit(form: FormState): (r: Option<SearchRequest>)
    ensures r.Some? <==> !AllWhitespace(form.keyword)
    ensures r.Some? ==> r.value.limit == form.limit
    ensures r.Some? ==> r.value.keyword != [] && Trim(form.keyword) == r.value.keyword
  {
    var keyword := Trim(form.keyword);
    if keyword != "" then Some(SearchRequest(keyword, form.limit)) else None
  }

  /** The submit button's `disabled`: while loading, or while the keyword is blank. */
  predicate SubmitDisabled(form: FormState, isLoading: bool) {
    isLoading || Trim(form.keyword) == ""
  }

  /**
   * When the button is enabled a submit does reach `onSearch`, and the keyword
   * it passes is already trimmed; the initial form can only be submitted once
   * something is typed.
   */
  lemma SubmitFacts(form: FormState, isLoading: bool)
    ensures !SubmitDisabled(form, isLoading) ==> Submit(form).Some?
    ensures Submit(form).Some? ==> Submit(FormState(Submit(form).value.keyword, form.limit)) == Submit(form)
    ensures SubmitDisabled(INITIAL_FORM, isLoading) && Submit(INITIAL_FORM).None?
    ensures INITIAL_FORM.limit in LIMIT_OPTIONS
  {
    if Submit(form).Some? {
      TrimIdempotent(form.keyword);
    }
  }
}
