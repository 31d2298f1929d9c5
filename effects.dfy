/**
  The observable effects of the pages' handlers, recorded in order instead of performed:
  notifications, navigation, Redux dispatches, network requests and sounds.
*/
module Effects {
  import opened Wrappers
  import Api

  /** The Redux actions the pages dispatch (the slice that handles them is not part of this model). */
  datatype Action =
    | LogoutAction
    | LoginSuccess(response: Api.Body)
    | LoginFailure(message: string)
    | SetLoading(on: bool)
    | RegisterAction(name: string, email: string, password: string)

  /** An image chosen in the admin form; only its identity matters here. */
  datatype ImageFile = ImageFile(name: string)

  /** The four text fields of a portfolio item as the admin form holds them. */
  datatype PortfolioFields = PortfolioFields(projectName: string, category: string, description: string, projectLink: string)

  const EmptyPortfolioFields := PortfolioFields("", "", "", "")

  /** The network requests a page starts. */
  datatype Request =
    | Auth(call: Api.Call)
    | VerifyResetToken(token: string)
    | FetchPortfolio
    | CreatePortfolio(image: ImageFile, fields: PortfolioFields, authorization: string)
    | DeletePortfolio(id: string, authorization: string)
    | SendContact(name: string, email: string, subject: string, message: string)

  datatype Effect =
    | ToastSuccess(message: string)
    | ToastError(message: string, id: Option<string>)
    | Navigate(path: string)
    | Dispatch(action: Action)
    | Send(request: Request)
    | PlaySound(path: string)

  /** JavaScript's `message || fallback` on strings. */
  function OrElse(message: string, fallback: string): string
  {
    if message != "" then message else fallback
  }

  /** The template `Bearer ${localStorage.getItem("token")}`: an absent token prints as "null". */
  function BearerOf(token: Option<string>): string
  {
    "Bearer " + match token { case Some(t) => t case None => "null" }
  }

  /** The number of error notifications carrying the identity `id`. */
  function CountToasts(effects: seq<Effect>, id: string): nat
  {
    if effects == [] then 0
    else (if effects[0].ToastError? && effects[0].id == Some(id) then 1 else 0) + CountToasts(effects[1..], id)
  }

  /** Counting notifications distributes over appending effect logs. */
  lemma {:induction false} CountToastsAppend(a: seq<Effect>, b: seq<Effect>, id: string)
    ensures CountToasts(a + b, id) == CountToasts(a, id) + CountToasts(b, id)
  {
    if a == [] {
      assert a + b == b;
    } else {
      assert (a + b)[1..] == a[1..] + b;
      CountToastsAppend(a[1..], b, id);
    }
  }
}
