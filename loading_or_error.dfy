/** The wrapper of src/components/LoadingOrError/LoadingOrError.tsx: a spinner
    while loading, else the error's text when there is an error, else the wrapped
    content. An error is either a text or an object that may carry a `detail`
    directly or under `data`. */
module LoadingOrError {
  import opened Common
  import opened Entities

  const UnexpectedError := "Unexpected error"

  /** What the wrapper renders. */
  datatype View = Spinner | ErrorText(text: string) | Children

  /** JavaScript truthiness of the `error` prop: no error and the empty text are
      falsy, any object is truthy. */
  predicate ErrorTruthy(error: Option<ErrorValue>)
    ensures ErrorTruthy(error) ==> error.Some?
    ensures error.Some? && error.value.Body? ==> ErrorTruthy(error)
    ensures ErrorTruthy(error) && error.value.Message? ==> error.value.text != ""
  {
    match error
    case None => false
    case Some(Message(text)) => text != ""
    case Some(Body(_, _)) => true
  }

  /** The text shown for a truthy error: a text verbatim, else `data.detail`, else
      `detail`, else the fallback (an empty detail counts as missing). */
  function ErrorMessage(error: ErrorValue): (r: string)
    ensures error.Message? ==> r == error.text
    ensures error.Body? && Truthy(error.dataDetail) ==> r == error.dataDetail.value
    ensures error.Body? && !Truthy(error.dataDetail) && Truthy(error.detail) ==> r == error.detail.value
    ensures error.Body? && !Truthy(error.dataDetail) && !Truthy(error.detail) ==> r == UnexpectedError
  {
    match error
    case Message(text) => text
    case Body(dataDetail, detail) => OrElse(dataDetail, OrElse(detail, UnexpectedError))
  }

  function Render(isLoading: bool, error: Option<ErrorValue>): (v: View)
    ensures v == Spinner <==> isLoading
    ensures v == Children <==> !isLoading && !ErrorTruthy(error)
    ensures v.ErrorText? ==> v.text == ErrorMessage(error.value)
  {
    if isLoading then Spinner
    else if ErrorTruthy(error) then ErrorText(ErrorMessage(error.value))
    else Children
  }

  /** Whenever an error is shown its text is not empty, so the wrapper never shows
      a blank error. */
  lemma ShownErrorNeverBlank(isLoading: bool, error: Option<ErrorValue>)
    ensures Render(isLoading, error).ErrorText? ==> Render(isLoading, error).text != ""
  {
  }

  /** An error object without any detail still shows the fallback text, while an
      empty error text shows the content as if there were no error. */
  lemma FallbackAndEmptyText(isLoading: bool)
    requires !isLoading
    ensures Render(isLoading, Some(Body(None, None))) == ErrorText(UnexpectedError)
    ensures Render(isLoading, Some(Body(Some(""), Some("")))) == ErrorText(UnexpectedError)
    ensures Render(isLoading, Some(Message(""))) == Render(isLoading, None) == Children
  {
  }
}
