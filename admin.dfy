/**
  The admin page: the access guard run when the page mounts (or when the session changes),
  and the handlers of the portfolio list, the create form and the delete dialog.
*/
module Admin {
  import opened Wrappers
  import opened Effects
  import Api

  const AuthAccessId := "auth-access"
  const LoginRequired := "You must log in to access this page"
  const AccessDenied := "Access denied. You don't have administrator permissions."
  const FetchFailed := "Failed to fetch portfolio items"
  const ImageRequired := "Please select an image"
  const SaveSucceeded := "Project added successfully!"
  const SaveFailed := "Failed to save portfolio item"
  const DeleteSucceeded := "Project deleted successfully!"
  const DeleteFailed := "Failed to delete portfolio item"

  /** A portfolio item as the server lists it. */
  datatype PortfolioItem = PortfolioItem(id: string, projectName: string, category: string,
                                         description: string, projectLink: string, imageUrl: string)

  /** The fields of the create form that an input can change. */
  datatype PortfolioField = ProjectName | Category | Description | ProjectLink

  function FieldOf(f: PortfolioFields, field: PortfolioField): string
  {
    match field
    case ProjectName => f.projectName
    case Category => f.category
    case Description => f.description
    case ProjectLink => f.projectLink
  }

  function WithField(f: PortfolioFields, field: PortfolioField, value: string): (g: PortfolioFields)
    ensures FieldOf(g, field) == value
    ensures forall other | other != field :: FieldOf(g, other) == FieldOf(f, other)
  {
    match field
    case ProjectName => f.(projectName := value)
    case Category => f.(category := value)
    case Description => f.(description := value)
    case ProjectLink => f.(projectLink := value)
  }

  /** The guard's admission test: Redux says admin and the stored user says admin. */
  predicate Granted(isAuthenticated: bool, role: Option<string>, storedIsAdmin: bool)
  {
    isAuthenticated && role == Some(Api.AdminRole) && storedIsAdmin
  }

  /**
    The effects of the access guard, given Redux's `isAuthenticated`, the Redux user's role
    (`None` for no user) and `authAPI.isAdmin()`: send to login, or log out and go home, or load.
  */
  function AccessEffects(isAuthenticated: bool, role: Option<string>, storedIsAdmin: bool): (r: seq<Effect>)
    ensures Send(FetchPortfolio) in r <==> Granted(isAuthenticated, role, storedIsAdmin)
    ensures Navigate("/login") in r <==> !isAuthenticated
    ensures Navigate("/") in r <==> isAuthenticated && !Granted(isAuthenticated, role, storedIsAdmin)
    ensures Dispatch(LogoutAction) in r <==> isAuthenticated && !Granted(isAuthenticated, role, storedIsAdmin)
    ensures CountToasts(r, AuthAccessId) == if Granted(isAuthenticated, role, storedIsAdmin) then 0 else 1
    ensures forall e | e in r :: !e.ToastSuccess? && (e.ToastError? ==> e.id == Some(AuthAccessId))
  {
    if !isAuthenticated then
      var r := [ToastError(LoginRequired, Some(AuthAccessId))] + [Navigate("/login")];
      CountToastsAppend([ToastError(LoginRequired, Some(AuthAccessId))], [Navigate("/login")], AuthAccessId);
      r
    else if !(role == Some(Api.AdminRole) && storedIsAdmin) then
      var logout := if role != Some(Api.AdminRole) || !storedIsAdmin then [Dispatch(LogoutAction)] else [];
      var r := [ToastError(AccessDenied, Some(AuthAccessId))] + logout + [Navigate("/")];
      CountToastsAppend([ToastError(AccessDenied, Some(AuthAccessId))], logout, AuthAccessId);
      CountToastsAppend([ToastError(AccessDenied, Some(AuthAccessId))] + logout, [Navigate("/")], AuthAccessId);
      r
    else
      [Send(FetchPortfolio)]
  }

  /** The page's bearer credential agrees with `getHeaders` whenever a token is stored ... */
  lemma BearerMatchesHeaders(store: Api.Storage)
    requires Api.IsAuthenticated(store)
    ensures BearerOf(Api.GetItem(store, Api.TokenKey)) == Api.Headers(store)["Authorization"]
  {
  }

  /** ... and with no token stored it still sends a credential, the literal "Bearer null". */
  lemma BearerWithoutToken(store: Api.Storage)
    requires Api.TokenKey !in store
    ensures BearerOf(Api.GetItem(store, Api.TokenKey)) == "Bearer null"
    ensures "Authorization" !in Api.Headers(store)
  {
  }

  /** The parsed body of `/api/portfolio`: a list of items, or any other JSON value (an error object, say). */
  datatype Json = ItemList(items: seq<PortfolioItem>) | OtherJson

  /**
    How the portfolio fetch ends: the request or the body's parse rejects (`Rejected`), or a
    response arrives whose JSON body parses, with its `ok` status.
  */
  datatype FetchReply = Rejected | Replied(ok: bool, json: Json)

  /** Every field of the page except the effect log and the count of outstanding fetches. */
  datatype Screen = Screen(
    items: Json, showModal: bool, showDeleteModal: bool,
    selectedImage: Option<ImageFile>, imagePreview: string,
    isLoading: bool, isDeleting: bool, itemToDelete: Option<PortfolioItem>, form: PortfolioFields)

  class AdminPage {
    /** `portfolioItems`: typed as a list, but holding whatever JSON the fetch stored. */
    var items: Json
    var showModal: bool
    var showDeleteModal: bool
    var selectedImage: Option<ImageFile>
    var imagePreview: string
    var isLoading: bool
    var isDeleting: bool
    var itemToDelete: Option<PortfolioItem>
    var form: PortfolioFields
    /** Portfolio fetches started and not yet settled. */
    var fetching: nat
    var effects: seq<Effect>

    function Snapshot(): Screen
      reads this
    {
      Screen(items, showModal, showDeleteModal, selectedImage, imagePreview, isLoading, isDeleting, itemToDelete, form)
    }

    constructor ()
      ensures Snapshot() == Screen(ItemList([]), false, false, None, "", false, false, None, EmptyPortfolioFields)
      ensures fetching == 0 && effects == []
    {
      items, showModal, showDeleteModal := ItemList([]), false, false;
      selectedImage, imagePreview := None, "";
      isLoading, isDeleting, itemToDelete := false, false, None;
      form, fetching, effects := EmptyPortfolioFields, 0, [];
    }

    /** The guard effect: records the guard's effects and, when admitted, starts the fetch. */
    method CheckAccess(isAuthenticated: bool, role: Option<string>, storedIsAdmin: bool)
      modifies this
      ensures effects == old(effects) + AccessEffects(isAuthenticated, role, storedIsAdmin)
      ensures fetching == old(fetching) + (if Granted(isAuthenticated, role, storedIsAdmin) then 1 else 0)
      ensures Snapshot() == old(Snapshot())
    {
      effects := effects + AccessEffects(isAuthenticated, role, storedIsAdmin);
      if Granted(isAuthenticated, role, storedIsAdmin) {
        fetching := fetching + 1;
      }
    }

    /** The list renders (`portfolioItems.length` and `.map`) only while a list is stored. */
    predicate Renders()
      reads this
    {
      items.ItemList?
    }

    /**
      `fetchPortfolioItems` settles as written: any parsed body replaces the list, whatever the
      response status; only a rejection is reported, and then the list is kept.
    */
    method ItemsFetchedAsWritten(reply: FetchReply)
      requires fetching > 0
      modifies this
      ensures fetching == old(fetching) - 1
      ensures reply.Replied? ==> Snapshot() == old(Snapshot()).(items := reply.json) && effects == old(effects)
      ensures reply.Rejected? ==> Snapshot() == old(Snapshot()) && effects == old(effects) + [ToastError(FetchFailed, None)]
    {
      fetching := fetching - 1;
      match reply {
        case Replied(_, json) => items := json;
        case Rejected => effects := effects + [ToastError(FetchFailed, None)];
      }
    }

    /**
      `fetchPortfolioItems` settling as evidently intended: only an ok response carrying a list
      replaces the list; every other outcome is reported and the list kept, so it still renders.
    */
    method ItemsFetched(reply: FetchReply)
      requires fetching > 0
      modifies this
      ensures fetching == old(fetching) - 1
      ensures reply.Replied? && reply.ok && reply.json.ItemList? ==>
        Snapshot() == old(Snapshot()).(items := reply.json) && effects == old(effects)
      ensures !(reply.Replied? && reply.ok && reply.json.ItemList?) ==>
        Snapshot() == old(Snapshot()) && effects == old(effects) + [ToastError(FetchFailed, None)]
      ensures old(Renders()) ==> Renders()
    {
      fetching := fetching - 1;
      if reply.Replied? && reply.ok && reply.json.ItemList? {
        items := reply.json;
      } else {
        effects := effects + [ToastError(FetchFailed, None)];
      }
    }

    /** "Create New Project": a blank form, no image, the modal open. */
    method OpenCreateModal()
      modifies this
      ensures Snapshot() == old(Snapshot()).(form := EmptyPortfolioFields, selectedImage := None, imagePreview := "", showModal := true)
      ensures fetching == old(fetching) && effects == old(effects)
    {
      form := EmptyPortfolioFields;
      selectedImage := None;
      imagePreview := "";
      showModal := true;
    }

    /** The modal's close and cancel buttons. */
    method CloseCreateModal()
      modifies this
      ensures Snapshot() == old(Snapshot()).(showModal := false)
      ensures fetching == old(fetching) && effects == old(effects)
    {
      showModal := false;
    }

    /** A text input of the form: only the named field changes. */
    method EditField(field: PortfolioField, value: string)
      modifies this
      ensures FieldOf(form, field) == value
      ensures forall other | other != field :: FieldOf(form, other) == FieldOf(old(form), other)
      ensures Snapshot() == old(Snapshot()).(form := form)
      ensures fetching == old(fetching) && effects == old(effects)
    {
      form := WithField(form, field, value);
    }

    /** `handleImageChange`: a chosen file becomes the selected image; an empty choice changes nothing. */
    method SelectImage(file: Option<ImageFile>)
      modifies this
      ensures file.Some? ==> Snapshot() == old(Snapshot()).(selectedImage := file)
      ensures file.None? ==> Snapshot() == old(Snapshot())
      ensures fetching == old(fetching) && effects == old(effects)
    {
      if file.Some? {
        selectedImage := file;
      }
    }

    /** The remove button on the preview. */
    method RemoveImage()
      modifies this
      ensures Snapshot() == old(Snapshot()).(selectedImage := None, imagePreview := "")
      ensures fetching == old(fetching) && effects == old(effects)
    {
      selectedImage := None;
      imagePreview := "";
    }

    /**
      `handleSubmit` up to the request. Without an image it only reports the error and
      `isLoading` is not touched; otherwise it starts the upload with the stored token.
      The form exists only while the modal is open, and its save button is disabled while `isLoading`.
    */
    method Submit(storedToken: Option<string>)
      requires showModal && !isLoading
      modifies this
      ensures old(selectedImage).None? ==>
        Snapshot() == old(Snapshot()) && effects == old(effects) + [ToastError(ImageRequired, None)]
      ensures old(selectedImage).Some? ==>
        Snapshot() == old(Snapshot()).(isLoading := true)
        && effects == old(effects) + [Send(CreatePortfolio(old(selectedImage).value, old(form), BearerOf(storedToken)))]
      ensures fetching == old(fetching)
    {
      if selectedImage.None? {
        effects := effects + [ToastError(ImageRequired, None)];
        return;
      }
      isLoading := true;
      effects := effects + [Send(CreatePortfolio(selectedImage.value, form, BearerOf(storedToken)))];
    }

    /**
      The upload settles (`ok` is false for a non-ok response and for a rejected fetch alike).
      On success the form is cleared, the modal closed and the list reloaded; in every case
      `isLoading` ends false.
    */
    method SubmitSettled(ok: bool)
      requires isLoading
      modifies this
      ensures !isLoading
      ensures ok ==>
        Snapshot() == old(Snapshot()).(form := EmptyPortfolioFields, selectedImage := None, imagePreview := "",
                                       showModal := false, isLoading := false)
        && effects == old(effects) + [ToastSuccess(SaveSucceeded), Send(FetchPortfolio)]
        && fetching == old(fetching) + 1
      ensures !ok ==>
        Snapshot() == old(Snapshot()).(isLoading := false)
        && effects == old(effects) + [ToastError(SaveFailed, None)]
        && fetching == old(fetching)
    {
      if ok {
        effects := effects + [ToastSuccess(SaveSucceeded)];
        form := EmptyPortfolioFields;
        selectedImage := None;
        imagePreview := "";
        showModal := false;
        effects := effects + [Send(FetchPortfolio)];
        fetching := fetching + 1;
      } else {
        effects := effects + [ToastError(SaveFailed, None)];
      }
      isLoading := false;
    }

    /** `handleDeleteClick`: remember the item and open the confirmation dialog. */
    method DeleteClick(item: PortfolioItem)
      modifies this
      ensures Snapshot() == old(Snapshot()).(itemToDelete := Some(item), showDeleteModal := true)
      ensures fetching == old(fetching) && effects == old(effects)
    {
      itemToDelete := Some(item);
      showDeleteModal := true;
    }

    /** The dialog's cancel button. */
    method CancelDelete()
      modifies this
      ensures Snapshot() == old(Snapshot()).(showDeleteModal := false, itemToDelete := None)
      ensures fetching == old(fetching) && effects == old(effects)
    {
      showDeleteModal := false;
      itemToDelete := None;
    }

    /**
      `handleDelete` up to the request: nothing at all happens without a remembered item.
      The confirm button exists only while the dialog is open, and is disabled while `isDeleting`.
    */
    method Delete(storedToken: Option<string>)
      requires showDeleteModal && !isDeleting
      modifies this
      ensures old(itemToDelete).None? ==> Snapshot() == old(Snapshot()) && effects == old(effects)
      ensures old(itemToDelete).Some? ==>
        Snapshot() == old(Snapshot()).(isDeleting := true)
        && effects == old(effects) + [Send(DeletePortfolio(old(itemToDelete).value.id, BearerOf(storedToken)))]
      ensures fetching == old(fetching)
    {
      if itemToDelete.None? {
        return;
      }
      isDeleting := true;
      effects := effects + [Send(DeletePortfolio(itemToDelete.value.id, BearerOf(storedToken)))];
    }

    /** The deletion settles: on success the dialog closes and the list reloads; `isDeleting` ends false. */
    method DeleteSettled(ok: bool)
      requires isDeleting
      modifies this
      ensures !isDeleting
      ensures ok ==>
        Snapshot() == old(Snapshot()).(showDeleteModal := false, itemToDelete := None, isDeleting := false)
        && effects == old(effects) + [ToastSuccess(DeleteSucceeded), Send(FetchPortfolio)]
        && fetching == old(fetching) + 1
      ensures !ok ==>
        Snapshot() == old(Snapshot()).(isDeleting := false)
        && effects == old(effects) + [ToastError(DeleteFailed, None)]
        && fetching == old(fetching)
    {
      if ok {
        effects := effects + [ToastSuccess(DeleteSucceeded)];
        showDeleteModal := false;
        itemToDelete := None;
        effects := effects + [Send(FetchPortfolio)];
        fetching := fetching + 1;
      } else {
        effects := effects + [ToastError(DeleteFailed, None)];
      }
      isDeleting := false;
    }

    /** `handleLogout`: dispatch the logout and go to the login page. */
    method Logout()
      modifies this
      ensures effects == old(effects) + [Dispatch(LogoutAction), Navigate("/login")]
      ensures Snapshot() == old(Snapshot()) && fetching == old(fetching)
    {
      effects := effects + [Dispatch(LogoutAction), Navigate("/login")];
    }
  }

  /**
    An administrator opens the page and the first fetch settles with `reply`, as written:
    a non-ok reply whose body is not a list leaves nothing the table can render, and no error is shown.
  */
  method OpenAsWritten(reply: FetchReply) returns (renders: bool, reported: bool)
    ensures renders <==> reply.Rejected? || reply.json.ItemList?
    ensures reported <==> reply.Rejected?
  {
    var page := new AdminPage();
    page.CheckAccess(true, Some(Api.AdminRole), true);
    page.ItemsFetchedAsWritten(reply);
    renders := page.Renders();
    reported := ToastError(FetchFailed, None) in page.effects;
  }

  /** The same visit with the status checked: the table always renders, and every failure is reported. */
  method Open(reply: FetchReply) returns (renders: bool, reported: bool)
    ensures renders
    ensures reported <==> !(reply.Replied? && reply.ok && reply.json.ItemList?)
  {
    var page := new AdminPage();
    page.CheckAccess(true, Some(Api.AdminRole), true);
    page.ItemsFetched(reply);
    renders := page.Renders();
    reported := ToastError(FetchFailed, None) in page.effects;
  }
}
