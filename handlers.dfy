/**
 * The request handlers of gowiki/wiki.go: what each one does to the page store
 * and which responses it writes, in order.
 *
 * Each handler is given twice: a pure function over the directory that says what
 * the handler means, and a method over a PageStore that performs the same steps
 * as the source (load, branch, save or remove, respond) and is proved to agree
 * with that function.
 */
module Handlers {
  import opened Results
  import opened Titles
  import opened Pages

  /** Status codes of RFC 9110: 200 OK (section 15.3.1), 302 Found (section 15.4.3),
      404 Not Found (section 15.5.5), 500 Internal Server Error (section 15.6.1). */
  const StatusOK := 200
  const StatusFound := 302
  const StatusNotFound := 404
  const StatusInternalServerError := 500

  /** The templates the handlers render (the template engine itself is not modelled). */
  datatype Template = ViewTemplate | EditTemplate

  /** One write of a handler to its response writer. */
  datatype Response =
    | Redirect(location: string)           // http.Redirect with StatusFound
    | NotFound                             // http.NotFound
    | Render(template: Template, page: Page)
    | InlineText(text: Option<string>)     // fmt.Fprintf straight into the body; None: text not modelled
    | ServerError                          // http.Error with StatusInternalServerError
  {
    /** The status code this write asks for. */
    function Status(): int {
      match this
      case Redirect(_) => StatusFound
      case NotFound => StatusNotFound
      case Render(_, _) => StatusOK
      case InlineText(_) => StatusOK
      case ServerError => StatusInternalServerError
    }
  }

  /** The status the client receives: the first write fixes the header, later
      status changes are ignored by net/http; nothing written means 200. */
  function SentStatus(rs: seq<Response>): int {
    if rs == [] then StatusOK else rs[0].Status()
  }

  /** Prefix of saveHandler's message for a rejected form title. */
  const InvalidTitleText := "Caracteres inválidos no título: "

  /**
   * The text saveHandler writes for a rejected form title. The source passes the
   * prefix followed by the title to fmt.Fprintf as its format string, with no
   * operands. Without a '%' the format is written literally. With a '%', fmt
   * expands it as a verb (for example "%!d(MISSING)"); that expansion is not
   * modelled, so the text is None.
   */
  function RejectionText(title: string): Option<string> {
    if '%' in InvalidTitleText + title then None else Some(InvalidTitleText + title)
  }

  function EditPath(title: string): string { "/edit/" + title }
  function ViewPath(title: string): string { "/view/" + title }
  const HomePath := "/"

  /** The directory after a request, and the responses written, in order. */
  datatype Outcome = Outcome(dir: Directory, responses: seq<Response>)

  /** getTitle: the title group of the route pattern, or the "Invalid Page Title"
      error after writing NotFound. */
  datatype TitleError = InvalidPageTitle

  function GetTitle(path: string): (r: (Result<string, TitleError>, seq<Response>))
    ensures r.0.Failure? <==> MatchPath(path).None?
    ensures r.0.Success? ==> exists a: Action :: path == "/" + a.Name() + "/" + r.0.value
    ensures r.0.Success? ==> ValidTitle(r.0.value)
    ensures r.1 == if r.0.Failure? then [NotFound] else []
  {
    match MatchPath(path)
    case None => (Failure(InvalidPageTitle), [NotFound])
    case Some(m) =>
      MatchPathSound(path);
      (Success(m.title), [])
  }

  // ---------------------------------------------------------------------------
  // What each handler means, as functions of the directory.

  /** viewHandler: render the page, or redirect to its edit route when it cannot be loaded. */
  function ViewResponses(dir: Directory, title: string): seq<Response> {
    match Lookup(dir, title)
    case Failure(_) => [Redirect(EditPath(title))]
    case Success(p) => [Render(ViewTemplate, p)]
  }

  /** editHandler: render the edit form with the loaded page, or with an empty page. */
  function EditResponses(dir: Directory, title: string): seq<Response> {
    var p := match Lookup(dir, title)
      case Success(p) => p
      case Failure(_) => Page(title, []);
    [Render(EditTemplate, p)]
  }

  /** updateHandler: write the body, then redirect to the view route. */
  function UpdateOutcome(dir: Directory, title: string, body: seq<byte>, writeOk: bool): Outcome {
    if writeOk then Outcome(Stored(dir, Page(title, body)), [Redirect(ViewPath(title))])
    else Outcome(dir, [ServerError])
  }

  /** saveHandler: reject a form title outside [a-zA-Z0-9]+, else write as updateHandler does. */
  function SaveOutcome(dir: Directory, title: string, body: seq<byte>, writeOk: bool): Outcome {
    if !ValidTitle(title) then Outcome(dir, [InlineText(RejectionText(title))])
    else UpdateOutcome(dir, title, body, writeOk)
  }

  /** deleteHandler: NotFound when the page cannot be loaded, remove the file in any
      case (its error is ignored), then redirect home. */
  function DeleteOutcome(dir: Directory, title: string): Outcome {
    var notFound := if Lookup(dir, title).Failure? then [NotFound] else [];
    Outcome(Removed(dir, title), notFound + [Redirect(HomePath)])
  }

  /** A request reaching the core: a path under one of the wrapped routes (with the
      form's body field), or a POST to /save with the form's title and body fields. */
  datatype Request =
    | Routed(route: Action, path: string, body: seq<byte>)
    | SaveForm(title: string, body: seq<byte>)

  /** The wrapped handler for a route, applied to a matched title. */
  function Dispatch(dir: Directory, route: Action, title: string, body: seq<byte>, writeOk: bool): Outcome {
    match route
    case View => Outcome(dir, ViewResponses(dir, title))
    case Edit => Outcome(dir, EditResponses(dir, title))
    case Update => UpdateOutcome(dir, title, body, writeOk)
    case Delete => DeleteOutcome(dir, title)
  }

  /** makeHandler around the route's handler, or saveHandler. */
  function Serve(dir: Directory, req: Request, writeOk: bool): Outcome {
    match req
    case SaveForm(title, body) => SaveOutcome(dir, title, body, writeOk)
    case Routed(route, path, body) =>
      match MatchPath(path)
      case None => Outcome(dir, [NotFound])
      case Some(m) => Dispatch(dir, route, m.title, body, writeOk)
  }

  // ---------------------------------------------------------------------------
  // The handlers as the source runs them, against the store.

  method ViewHandler(store: PageStore, title: string) returns (rs: seq<Response>)
    ensures rs == ViewResponses(store.pages, title)
  {
    var loaded := store.Load(title);
    if loaded.Failure? {
      rs := [Redirect(EditPath(title))];
      return;
    }
    rs := [Render(ViewTemplate, loaded.value)];
  }

  method EditHandler(store: PageStore, title: string) returns (rs: seq<Response>)
    ensures rs == EditResponses(store.pages, title)
  {
    var loaded := store.Load(title);
    var p := if loaded.Success? then loaded.value else Page(title, []);
    rs := [Render(EditTemplate, p)];
  }

  method UpdateHandler(store: PageStore, title: string, body: seq<byte>, writeOk: bool)
    returns (rs: seq<Response>)
    modifies store
    ensures Outcome(store.pages, rs) == UpdateOutcome(old(store.pages), title, body, writeOk)
  {
    var err := store.Save(Page(title, body), writeOk);
    if err.Some? {
      rs := [ServerError];
      return;
    }
    rs := [Redirect(ViewPath(title))];
  }

  method SaveHandler(store: PageStore, title: string, body: seq<byte>, writeOk: bool)
    returns (rs: seq<Response>)
    modifies store
    ensures Outcome(store.pages, rs) == SaveOutcome(old(store.pages), title, body, writeOk)
  {
    if !ValidTitle(title) {
      rs := [InlineText(RejectionText(title))];
      return;
    }
    var err := store.Save(Page(title, body), writeOk);
    if err.Some? {
      rs := [ServerError];
      return;
    }
    rs := [Redirect(ViewPath(title))];
  }

  method DeleteHandler(store: PageStore, title: string) returns (rs: seq<Response>)
    modifies store
    ensures Outcome(store.pages, rs) == DeleteOutcome(old(store.pages), title)
  {
    rs := [];
    var loaded := store.Load(title);
    if loaded.Failure? {
      rs := rs + [NotFound];
    }
    var ignored := store.Remove(title);
    rs := rs + [Redirect(HomePath)];
  }

  /** The handler makeHandler builds for a route, run on a request path: a path the
      route pattern rejects gets NotFound and the route's handler is not called. */
  method MakeHandler(store: PageStore, route: Action, path: string, body: seq<byte>, writeOk: bool)
    returns (rs: seq<Response>)
    modifies store
    ensures Outcome(store.pages, rs) == Serve(old(store.pages), Routed(route, path, body), writeOk)
  {
    var m := MatchPath(path);
    if m.None? {
      rs := [NotFound];
      return;
    }
    var title := m.value.title;
    match route
    case View => rs := ViewHandler(store, title);
    case Edit => rs := EditHandler(store, title);
    case Update => rs := UpdateHandler(store, title, body, writeOk);
    case Delete => rs := DeleteHandler(store, title);
  }
}
