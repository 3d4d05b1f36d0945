/**
 * The page controller: the seven pieces of page state and the handlers that
 * overwrite them. Each handler is one atomic step; every backend answer it
 * awaits is a parameter. The ghost `requests` records, in order, the API calls
 * the page has issued.
 */
module HomePage {
  import opened Wrappers
  import opened MovieTypes
  import opened Api
  import opened MovieFormModel

  const LoadFallback := "Failed to load movies"
  const CreateFallback := "Failed to create movie"
  const UpdateFallback := "Failed to update movie"
  const DeleteFallback := "Failed to delete movie"

  /** `search || undefined`: an empty search box is no search at all. */
  function SearchArgument(search: string): (r: Option<string>)
    ensures r.None? <==> search == []
    ensures Truthy(r) <==> search != []
    ensures r.Some? ==> r.value == search
  {
    if search == [] then None else Some(search)
  }

  /** The list request sends a `search` entry exactly when the search box is not empty, and then sends its text. */
  lemma SearchBoxQuery(search: string, sort: Sort)
    ensures (exists i :: 0 <= i < |QueryParams(SearchArgument(search), Some(sort))| &&
                         QueryParams(SearchArgument(search), Some(sort))[i].0 == "search") <==> search != []
    ensures search != [] ==> QueryParams(SearchArgument(search), Some(sort)) == [("search", search), ("sort", SortName(sort))]
    ensures search == [] ==> QueryParams(SearchArgument(search), Some(sort)) == [("sort", SortName(sort))]
  {
    var ps := QueryParams(SearchArgument(search), Some(sort));
    if search != [] {
      assert ps[0].0 == "search";
    } else {
      assert "sort"[1] != "search"[1];
    }
  }

  /**
   * What a create or update call throws when its answer is not ok: the plain
   * `Error` built from the status, the `catch` block's view of a rejection,
   * or a failed body read as it is.
   */
  ghost function SaveError(action: string, response: Fetched<Movie>): (e: Exception)
    requires !response.Delivered?
    ensures response.HttpError? ==> e.ErrorObject? && e.message != []
  {
    match response
    case HttpError(status, statusText, body, json) =>
      ErrorObject(PlainError, HttpErrorMessage(action, status, statusText, body, json))
    case Rejected(error) => Caught<Movie>(Failure(error)).error
    case BodyRejected(error) => error
  }

  /**
   * A failed save shows its message twice, in the page's banner and in the
   * form, and the two agree exactly when the thrown value is an `Error`; a
   * thrown non-`Error` (which only a rejection or a failed body read can
   * carry) shows each side's own fallback, and the fallbacks differ.
   */
  lemma FormAndPageMessages(action: string, response: Fetched<Movie>)
    requires !response.Delivered?
    ensures SaveError(action, response).NonErrorValue? <==>
              (response.Rejected? || response.BodyRejected?) && response.error == NonErrorValue
    ensures (MessageOr(SaveError(action, response), SaveFallback) ==
             MessageOr(SaveError(action, response), CreateFallback)) <==> SaveError(action, response).ErrorObject?
    ensures (MessageOr(SaveError(action, response), SaveFallback) ==
             MessageOr(SaveError(action, response), UpdateFallback)) <==> SaveError(action, response).ErrorObject?
  {
    assert SaveFallback[10] != CreateFallback[10] && SaveFallback[10] != UpdateFallback[10];
  }

  /** Which of the two page handlers the form's `onSubmit` is wired to. */
  datatype Handler = CreateHandler | UpdateHandler

  class Home {
    var movies: seq<Movie>
    var loading: bool
    var error: Option<string>
    var search: string
    var sort: Sort
    var showForm: bool
    var editingMovie: Option<Movie>
    ghost var requests: seq<Request>

    /** The mode invariant: the create form and the edit form are never both selected. */
    ghost predicate Valid()
      reads this
    {
      !(showForm && editingMovie.Some?)
    }

    /** The `useState` initial values (the mount effect is a following `LoadMovies`). */
    constructor ()
      ensures Valid()
      ensures movies == [] && loading && error == None && search == [] && sort == Asc
      ensures !showForm && editingMovie == None && requests == []
    {
      movies := [];
      loading := true;
      error := None;
      search := "";
      sort := Asc;
      showForm := false;
      editingMovie := None;
      requests := [];
    }

    // -------------------------------------------------------------- the modal

    /** `showForm || editingMovie`: under the mode invariant, exactly one of the two forms is selected when it is open. */
    function ModalOpen(): (open: bool)
      reads this
      ensures Valid() ==> (open <==> showForm != editingMovie.Some?)
    {
      showForm || editingMovie.Some?
    }

    /** The modal's heading names the edit form exactly when a movie is being edited. */
    function ModalHeading(): (heading: string)
      reads this
      ensures heading == "Edit Movie" <==> editingMovie.Some?
      ensures heading == "Create New Movie" <==> editingMovie.None?
    {
      assert "Create New Movie"[0] != "Edit Movie"[0];
      if editingMovie.Some? then "Edit Movie" else "Create New Movie"
    }

    /** The handler wired to the form's `onSubmit` is the update handler exactly when the heading is "Edit Movie". */
    function ActiveHandler(): (handler: Handler)
      reads this
      ensures handler == UpdateHandler <==> ModalHeading() == "Edit Movie"
    {
      if editingMovie.Some? then UpdateHandler else CreateHandler
    }

    /** The query of the list request for the current search box and sort order. */
    function ListQuery(): (query: seq<Param>)
      reads this
    {
      QueryParams(SearchArgument(search), Some(sort))
    }

    // -------------------------------------------------------------- loading

    /** The state `loadMovies` leaves: not loading, and the list replaced by the answer or kept with an error. */
    ghost predicate ReloadedFrom(previous: seq<Movie>, response: Fetched<seq<Movie>>)
      reads this
    {
      !loading &&
      match AllMoviesResult(response)
      case Success(data) => movies == data && error == None
      case Failure(e) => movies == previous && error == Some(MessageOr(e, LoadFallback))
    }

    /** `loadMovies` up to the awaited call: loading, error cleared, list request issued. */
    method BeginLoad()
      modifies this`loading, this`error, this`requests
      ensures loading && error == None
      ensures requests == old(requests) + [ListRequest(ListQuery())]
    {
      loading := true;
      error := None;
      var query := BuildQuery(SearchArgument(search), Some(sort));
      requests := requests + [ListRequest(query)];
    }

    /** `loadMovies` after the awaited call: the list wholesale, or an error and the old list; loading ends. */
    method EndLoad(response: Fetched<seq<Movie>>)
      modifies this`movies, this`loading, this`error
      ensures !loading
      ensures AllMoviesResult(response).Success? ==>
                movies == AllMoviesResult(response).value && error == old(error)
      ensures AllMoviesResult(response).Failure? ==>
                movies == old(movies) && error == Some(MessageOr(AllMoviesResult(response).error, LoadFallback))
    {
      var result := AllMoviesResult(response);
      match result {
        case Success(data) =>
          movies := data;
        case Failure(e) =>
          error := Some(MessageOr(e, LoadFallback));
      }
      loading := false;
    }

    /** The whole `loadMovies`. */
    method LoadMovies(response: Fetched<seq<Movie>>)
      modifies this`movies, this`loading, this`error, this`requests
      ensures ReloadedFrom(old(movies), response)
      ensures requests == old(requests) + [ListRequest(ListQuery())]
    {
      BeginLoad();
      EndLoad(response);
    }

    /** Typing in the search box: the text is stored and the effect reloads with it. */
    method ChangeSearch(text: string, reload: Fetched<seq<Movie>>)
      requires Valid()
      modifies this
      ensures Valid()
      ensures search == text && sort == old(sort)
      ensures showForm == old(showForm) && editingMovie == old(editingMovie)
      ensures ReloadedFrom(old(movies), reload)
      ensures requests == old(requests) + [ListRequest(QueryParams(SearchArgument(text), Some(old(sort))))]
    {
      search := text;
      LoadMovies(reload);
    }

    /** Choosing a sort order: it is stored and the effect reloads with it. */
    method ChangeSort(order: Sort, reload: Fetched<seq<Movie>>)
      requires Valid()
      modifies this
      ensures Valid()
      ensures sort == order && search == old(search)
      ensures showForm == old(showForm) && editingMovie == old(editingMovie)
      ensures ReloadedFrom(old(movies), reload)
      ensures requests == old(requests) + [ListRequest(QueryParams(SearchArgument(old(search)), Some(order)))]
    {
      sort := order;
      LoadMovies(reload);
    }

    // -------------------------------------------------------------- mutations

    /**
     * `handleCreate`: on success the create form closes, the error clears and
     * the list reloads; on failure the error is set, the mode is kept and the
     * error is thrown on to the form.
     */
    method HandleCreate(dto: Payload, response: Fetched<Movie>, reload: Fetched<seq<Movie>>)
      returns (raised: Option<Exception>)
      requires Valid()
      modifies this
      ensures Valid()
      ensures search == old(search) && sort == old(sort) && editingMovie == old(editingMovie)
      ensures raised.None? <==> response.Delivered?
      ensures response.Delivered? ==>
                !showForm && ReloadedFrom(old(movies), reload) &&
                requests == old(requests) + [CreateRequest(dto), ListRequest(ListQuery())]
      ensures raised.Some? ==>
                showForm == old(showForm) && movies == old(movies) && loading == old(loading) &&
                error == Some(MessageOr(raised.value, CreateFallback)) &&
                requests == old(requests) + [CreateRequest(dto)]
      ensures response.HttpError? ==>
                raised == Some(ErrorObject(PlainError, HttpErrorMessage("create", response.status,
                                           response.statusText, response.body, response.json)))
      ensures response.Rejected? ==> raised == Some(Caught<Movie>(Failure(response.error)).error)
      ensures response.BodyRejected? ==> raised == Some(response.error)
      ensures !response.Delivered? ==> raised == Some(SaveError("create", response))
    {
      requests := requests + [CreateRequest(dto)];
      var result := CreateMovieResult(response);
      if result.Success? {
        showForm := false;
        error := None;
        LoadMovies(reload);
        raised := None;
      } else {
        error := Some(MessageOr(result.error, CreateFallback));
        raised := Some(result.error);
      }
    }

    /**
     * `handleUpdate`: does nothing without a movie being edited; otherwise as
     * `handleCreate`, closing the edit form on success.
     */
    method HandleUpdate(dto: Payload, response: Fetched<Movie>, reload: Fetched<seq<Movie>>)
      returns (raised: Option<Exception>)
      requires Valid()
      modifies this
      ensures Valid()
      ensures old(editingMovie).None? ==> raised.None? && unchanged(this)
      ensures search == old(search) && sort == old(sort) && showForm == old(showForm)
      ensures old(editingMovie).Some? ==> (raised.None? <==> response.Delivered?)
      ensures old(editingMovie).Some? && response.Delivered? ==>
                editingMovie == None && ReloadedFrom(old(movies), reload) &&
                requests == old(requests) + [UpdateRequest(old(editingMovie).value.id, dto), ListRequest(ListQuery())]
      ensures old(editingMovie).Some? && raised.Some? ==>
                editingMovie == old(editingMovie) && movies == old(movies) && loading == old(loading) &&
                error == Some(MessageOr(raised.value, UpdateFallback)) &&
                requests == old(requests) + [UpdateRequest(old(editingMovie).value.id, dto)]
      ensures old(editingMovie).Some? && response.HttpError? ==>
                raised == Some(ErrorObject(PlainError, HttpErrorMessage("update", response.status,
                                           response.statusText, response.body, response.json)))
      ensures old(editingMovie).Some? && response.Rejected? ==>
                raised == Some(Caught<Movie>(Failure(response.error)).error)
      ensures old(editingMovie).Some? && response.BodyRejected? ==> raised == Some(response.error)
      ensures old(editingMovie).Some? && !response.Delivered? ==> raised == Some(SaveError("update", response))
    {
      if editingMovie.None? {
        return None;
      }
      requests := requests + [UpdateRequest(editingMovie.value.id, dto)];
      var result := UpdateMovieResult(response);
      if result.Success? {
        editingMovie := None;
        error := None;
        LoadMovies(reload);
        raised := None;
      } else {
        error := Some(MessageOr(result.error, UpdateFallback));
        raised := Some(result.error);
      }
    }

    /** `handleDelete`: reloads on success; on failure sets the error and throws nothing. */
    method HandleDelete(id: int, response: Fetched<()>, reload: Fetched<seq<Movie>>)
      requires Valid() && !response.BodyRejected?
      modifies this
      ensures Valid()
      ensures search == old(search) && sort == old(sort)
      ensures showForm == old(showForm) && editingMovie == old(editingMovie)
      ensures response.Delivered? ==>
                ReloadedFrom(old(movies), reload) &&
                requests == old(requests) + [DeleteRequest(id), ListRequest(ListQuery())]
      ensures !response.Delivered? ==>
                movies == old(movies) && loading == old(loading) &&
                error == Some(MessageOr(DeleteMovieResult(response).error, DeleteFallback)) &&
                requests == old(requests) + [DeleteRequest(id)]
    {
      requests := requests + [DeleteRequest(id)];
      var result := DeleteMovieResult(response);
      if result.Success? {
        LoadMovies(reload);
      } else {
        error := Some(MessageOr(result.error, DeleteFallback));
      }
    }

    // -------------------------------------------------------------- mode switches

    /** `handleEdit`: select the movie for editing, closing the create form. */
    method HandleEdit(movie: Movie)
      modifies this`editingMovie, this`showForm
      ensures Valid()
      ensures editingMovie == Some(movie) && !showForm
    {
      editingMovie := Some(movie);
      showForm := false;
    }

    /** `handleCancel`: close whichever form is open. */
    method HandleCancel()
      modifies this`editingMovie, this`showForm
      ensures Valid()
      ensures !showForm && editingMovie == None
    {
      showForm := false;
      editingMovie := None;
    }

    /**
     * The modal form's `onSubmit`: the update handler when a movie is being
     * edited, the create handler otherwise.
     */
    method HandleSubmit(dto: Payload, createResponse: Fetched<Movie>, updateResponse: Fetched<Movie>,
                        reload: Fetched<seq<Movie>>)
      returns (raised: Option<Exception>)
      requires Valid()
      modifies this
      ensures Valid()
      ensures search == old(search) && sort == old(sort)
      ensures old(editingMovie).Some? ==>
                showForm == old(showForm) &&
                (raised.None? <==> updateResponse.Delivered?)
      ensures old(editingMovie).Some? && updateResponse.Delivered? ==>
                editingMovie == None && ReloadedFrom(old(movies), reload) &&
                requests == old(requests) + [UpdateRequest(old(editingMovie).value.id, dto), ListRequest(ListQuery())]
      ensures old(editingMovie).Some? && !updateResponse.Delivered? ==>
                raised == Some(SaveError("update", updateResponse)) &&
                error == Some(MessageOr(SaveError("update", updateResponse), UpdateFallback)) &&
                editingMovie == old(editingMovie) && movies == old(movies) && loading == old(loading) &&
                requests == old(requests) + [UpdateRequest(old(editingMovie).value.id, dto)]
      ensures old(editingMovie).None? ==>
                editingMovie == None &&
                (raised.None? <==> createResponse.Delivered?)
      ensures old(editingMovie).None? && createResponse.Delivered? ==>
                !showForm && ReloadedFrom(old(movies), reload) &&
                requests == old(requests) + [CreateRequest(dto), ListRequest(ListQuery())]
      ensures old(editingMovie).None? && !createResponse.Delivered? ==>
                raised == Some(SaveError("create", createResponse)) &&
                error == Some(MessageOr(SaveError("create", createResponse), CreateFallback)) &&
                showForm == old(showForm) && movies == old(movies) && loading == old(loading) &&
                requests == old(requests) + [CreateRequest(dto)]
    {
      if editingMovie.Some? {
        raised := HandleUpdate(dto, updateResponse, reload);
      } else {
        raised := HandleCreate(dto, createResponse, reload);
      }
    }

    /** The "+ Create Movie" button: drop any edit, open the create form. */
    method OpenCreateForm()
      modifies this`editingMovie, this`showForm
      ensures Valid()
      ensures showForm && editingMovie == None
    {
      editingMovie := None;
      showForm := true;
    }

    /** The error banner's "Dismiss" button. */
    method Dismiss()
      modifies this`error
      ensures error == None
    {
      error := None;
    }
  }

  /**
   * In a valid page the modal's heading and handler follow the mode: the
   * create button's form always gets the create handler, an edited movie
   * always gets the update handler.
   */
  lemma ModalModes(page: Home)
    requires page.Valid()
    ensures page.ModalOpen() <==> page.showForm || page.editingMovie.Some?
    ensures page.ActiveHandler() == UpdateHandler <==> page.ModalHeading() == "Edit Movie"
    ensures page.ActiveHandler() == UpdateHandler <==> page.editingMovie.Some?
    ensures page.showForm ==> page.ActiveHandler() == CreateHandler && page.ModalHeading() == "Create New Movie"
    ensures page.ModalOpen() && page.ActiveHandler() == CreateHandler ==> page.showForm
  {
    assert "Create New Movie"[0] != "Edit Movie"[0];
  }

  /**
   * Submitting the open modal's form: the form's checks run, then the handler
   * the page wired (update when a movie is being edited, create otherwise)
   * runs while the form is submitting, and its outcome comes back to the form.
   */
  method SubmitModal(page: Home, form: MovieForm, createResponse: Fetched<Movie>,
                     updateResponse: Fetched<Movie>, reload: Fetched<seq<Movie>>)
    returns (call: Option<Payload>)
    requires page.Valid() && page.ModalOpen()
    modifies page, form
    ensures page.Valid()
    ensures form.Fields() == old(form.Fields())
    ensures call.None? <==> Validate(form.Fields()).Failure?
    ensures call.None? ==>
              unchanged(page) && form.isSubmitting == old(form.isSubmitting) &&
              form.error == Some(Validate(form.Fields()).error)
    ensures page.search == old(page.search) && page.sort == old(page.sort)
    ensures call.Some? ==> call.value == Validate(form.Fields()).value && !form.isSubmitting
    ensures call.Some? && old(page.editingMovie).Some? ==> page.showForm == old(page.showForm)
    ensures call.Some? && old(page.editingMovie).Some? && updateResponse.Delivered? ==>
              form.error == None && page.editingMovie == None &&
              page.ReloadedFrom(old(page.movies), reload) &&
              page.requests == old(page.requests) + [UpdateRequest(old(page.editingMovie).value.id, call.value),
                                                     ListRequest(page.ListQuery())]
    ensures call.Some? && old(page.editingMovie).Some? && !updateResponse.Delivered? ==>
              form.error == Some(MessageOr(SaveError("update", updateResponse), SaveFallback)) &&
              page.error == Some(MessageOr(SaveError("update", updateResponse), UpdateFallback)) &&
              page.editingMovie == old(page.editingMovie) &&
              page.movies == old(page.movies) && page.loading == old(page.loading) &&
              page.requests == old(page.requests) + [UpdateRequest(old(page.editingMovie).value.id, call.value)]
    ensures call.Some? && old(page.editingMovie).None? ==> page.editingMovie == None
    ensures call.Some? && old(page.editingMovie).None? && createResponse.Delivered? ==>
              form.error == None && !page.showForm &&
              page.ReloadedFrom(old(page.movies), reload) &&
              page.requests == old(page.requests) + [CreateRequest(call.value), ListRequest(page.ListQuery())]
    ensures call.Some? && old(page.editingMovie).None? && !createResponse.Delivered? ==>
              form.error == Some(MessageOr(SaveError("create", createResponse), SaveFallback)) &&
              page.error == Some(MessageOr(SaveError("create", createResponse), CreateFallback)) &&
              page.showForm &&
              page.movies == old(page.movies) && page.loading == old(page.loading) &&
              page.requests == old(page.requests) + [CreateRequest(call.value)]
  {
    call := form.StartSubmit();
    if call.None? {
      return;
    }
    var raised := page.HandleSubmit(call.value, createResponse, updateResponse, reload);
    form.FinishSubmit(raised);
  }
}
