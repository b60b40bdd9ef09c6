# gowiki core in Dafny

A model of the routing and page-persistence core of the gowiki tutorial wiki
(`gowiki/wiki.go`). Pages are named text files in a `pages/` directory. Requests
reach handlers through a route pattern of the form `/<action>/<title>`. The
handlers view, edit, save, update and delete pages, and answer with a render,
a redirect, an inline message or an HTTP error.

- `results.dfy` (module `Results`): `Option` and `Result`, for Go's nil and `(value, err)` returns.
- `titles.dfy` (module `Titles`): the two regular expressions, written out without a regex engine.
  - `ValidTitle` is the form-title check: non-empty and all `[a-zA-Z0-9]`.
  - `MatchPath` is the route pattern: a leading `/`, an action segment that must be one of
    `edit`, `update`, `view`, `delete`, then a valid title to the end of the path.
  - `MatchPathExact` proves that a path matches with captures `(a, t)` exactly when it is
    `"/" + a + "/" + t` with `t` a valid title.
- `pages.dfy` (module `Pages`): the directory as a `map<string, seq<byte>>`.
  - Pure `Lookup`, `Stored` and `Removed` say what reading, writing and removing a file do.
  - `PageStore` is a class holding the map. Its `Save`, `Load` and `Remove` update it in place,
    like `Page.save`, `loadPage` and `os.Remove`.
- `handlers.dfy` (module `Handlers`): responses, the handlers, and `makeHandler`.
  - A pure function per handler says which directory results and which responses are written, in order.
  - A method per handler runs the source's steps against a `PageStore` and is proved to agree with its function.
  - `Serve` is the request-level function: `makeHandler`'s match, then the route's handler, or `saveHandler`.
- `laws.dfy` (module `WikiLaws`): the properties.
  - The store's round trip, isolation and overwrite laws.
  - The outcome of each handler on present and missing pages, and on write failure.
  - Rejected paths, and the round trips through the redirects.
  - No path traversal: no request, in any sequence of requests, writes or removes a file whose name is not a valid title.

Modelling choices:
- Environment outcomes are parameters. `writeOk` says whether the file system accepted a write.
  A failed write leaves the directory unchanged.
- A read fails exactly when the file is absent.
- Each handler's result is the sequence of writes it makes to its response writer.
  - `SentStatus` is the status the client receives. It is the first write's status, because net/http
    ignores a later status change by the same handler.
  - So `deleteHandler` on a missing page writes `NotFound` and then `Redirect("/")`, and the client gets 404.
  - The file removal is still attempted, and its error is ignored, as in the source.
- The server's mux sends `/view/...`, `/edit/...`, `/update/...` and `/delete/...` to the handler
  that `makeHandler` wrapped for that route. The wrapper ignores the action group and uses only the title.
  - `Request.Routed` carries the route explicitly.
  - `RouteAgreesWithMatch` proves that the action group equals the route whenever the path starts with `/<route>/`.

Notes on the source:
- The route pattern's actions are `edit|update|view|delete`. `save` and `create` are not among them.
- Handlers do not check the HTTP method.
- The invalid-form-title response is plain text written with status 200.

## Model

| member | source | states |
|---|---|---|
| Titles.AllAlnum | gowiki/wiki.go:106 | true exactly when every character is in `[a-zA-Z0-9]` |
| Titles.ValidTitle | gowiki/wiki.go:106-108 | the form title matches `^([a-zA-Z0-9]+)$`: non-empty and every character ASCII alphanumeric |
| Titles.ParseAction | gowiki/wiki.go:20 | a segment maps to the action with that name; no action has the name of a rejected segment |
| Titles.FindSlash | gowiki/wiki.go:20 | finds the first `/` of a string, or reports that there is none |
| Titles.MatchPathSound | gowiki/wiki.go:20 | a successful route match means the path is `"/" + action + "/" + title` with a valid title |
| Titles.MatchPathComplete | gowiki/wiki.go:20 | every path `"/" + action + "/" + t` with valid `t` matches, capturing that action and `t` |
| Titles.MatchPath | gowiki/wiki.go:20 | the route pattern's match and its two captures; `MatchPathExact` states exactly which paths match and what is captured |
| Titles.MatchPathExact | gowiki/wiki.go:20 | a path matches with captures `(a, t)` if and only if it is `"/" + a + "/" + t` and `t` is valid |
| Titles.MatchedTitleIsValid | gowiki/wiki.go:20 | a captured title is valid, contains no `/`, and is neither `.` nor `..` |
| Titles.RouteAgreesWithMatch | gowiki/wiki.go:26-29 | for a path under `/<route>/`, the captured action is that route, so ignoring it is sound |
| Handlers.GetTitle | gowiki/wiki.go:39-46 | fails, after writing NotFound, exactly when the path does not match; otherwise returns a valid title the path ends with |
| Pages.Lookup | gowiki/wiki.go:48-55 | loading fails if and only if the file is absent; on success the page has the requested title and the stored body |
| Pages.Stored | gowiki/wiki.go:34-37 | writing a page makes its title hold its body and leaves every other title as it was |
| Pages.Removed | gowiki/wiki.go:150 | removing makes the title absent and leaves every other title as it was |
| Pages.PageStore.Save | gowiki/wiki.go:34-37 | returns no error iff the write succeeds; the store becomes `Stored` on success and is unchanged on failure |
| Pages.PageStore.Load | gowiki/wiki.go:48-55 | returns the lookup of the title in the current store, changing nothing |
| Pages.PageStore.Remove | gowiki/wiki.go:150 | the store becomes `Removed`; an error is returned exactly when the file was absent |
| Handlers.SentStatus | gowiki/wiki.go:144-153 | the status the client receives is the first write's; `DeleteLaws` uses it to show that deleting a missing page sends 404 although a redirect follows |
| Handlers.RejectionText | gowiki/wiki.go:109 | the inline rejection text; `RejectionTextLiteral` and `PercentTitleRejected` state when it is the prefix followed by the title |
| Handlers.ViewResponses | gowiki/wiki.go:88-96 | viewHandler's decision; `ViewLaws` states its missing and present cases and that it writes nothing |
| Handlers.EditResponses | gowiki/wiki.go:135-142 | editHandler's decision; `EditLaws` states its missing and present cases and that it writes nothing |
| Handlers.UpdateOutcome | gowiki/wiki.go:123-133 | updateHandler's effect and responses; `UpdateLaws` states the success and failure cases |
| Handlers.SaveOutcome | gowiki/wiki.go:102-121 | saveHandler's effect and responses; `InvalidFormTitleRejected` and `SaveLaws` state the rejection, success and failure cases |
| Handlers.DeleteOutcome | gowiki/wiki.go:144-153 | deleteHandler's effect and responses; `DeleteLaws` states the removal and both response sequences |
| Handlers.Dispatch | gowiki/wiki.go:26-29 | the handler wrapped for each route; `RoutedPathReachesHandler` states that a route path with a valid title reaches it with that title |
| Handlers.Serve | gowiki/wiki.go:64-73 | makeHandler's match followed by the route's handler, or saveHandler; `RejectedPathChangesNothing` and `ServeTouchesOnlyValidTitles` state its properties |
| Handlers.ViewHandler | gowiki/wiki.go:88-96 | returns the responses `ViewResponses` gives for the store, and modifies nothing |
| Handlers.EditHandler | gowiki/wiki.go:135-142 | returns the responses `EditResponses` gives for the store, and modifies nothing |
| Handlers.UpdateHandler | gowiki/wiki.go:123-133 | the new store and the responses are those of `UpdateOutcome` on the old store |
| Handlers.SaveHandler | gowiki/wiki.go:102-121 | the new store and the responses are those of `SaveOutcome` on the old store |
| Handlers.DeleteHandler | gowiki/wiki.go:144-153 | the new store and the responses are those of `DeleteOutcome` on the old store |
| Handlers.MakeHandler | gowiki/wiki.go:64-73 | the new store and the responses are those of `Serve` for the routed request |
| WikiLaws.LoadAfterSave | gowiki/wiki.go:34-55 | after writing `(t, b)`, loading `t` gives the page `(t, b)` |
| WikiLaws.SaveIsolation | gowiki/wiki.go:34-37 | writing one page does not change what any other title loads |
| WikiLaws.SaveTwice | gowiki/wiki.go:34-37 | writing the same title twice equals writing the second body once |
| WikiLaws.RemoveLaws | gowiki/wiki.go:150 | after removal the title fails to load, and other titles load as before |
| WikiLaws.SaveThenLoad | gowiki/wiki.go:34-55 | on the store class, a successful save followed by a load returns the saved page, and no other title changes |
| WikiLaws.RejectsUnknownAction | gowiki/wiki.go:20 | `/save/x` does not match |
| WikiLaws.RejectsEmptyTitle | gowiki/wiki.go:20 | `/view/` does not match |
| WikiLaws.RejectsSpaceInTitle | gowiki/wiki.go:20 | `/view/a b` does not match |
| WikiLaws.RejectsNestedPath | gowiki/wiki.go:20 | `/view/a/b` does not match |
| WikiLaws.AcceptsViewPath | gowiki/wiki.go:20 | `/view/Alpha1` matches with action view and title `Alpha1` |
| WikiLaws.RejectedPathChangesNothing | gowiki/wiki.go:66-70 | a non-matching path gets NotFound (404), the handler is not run, and the store is unchanged |
| WikiLaws.RoutedPathReachesHandler | gowiki/wiki.go:66-71 | a route path with a valid title runs the route's handler on exactly that title |
| WikiLaws.ViewLaws | gowiki/wiki.go:88-96 | view of a missing page redirects (302) to `/edit/<t>`; of a present page it renders the stored page; the store is unchanged |
| WikiLaws.EditLaws | gowiki/wiki.go:135-142 | edit of a missing page renders an empty-body page titled `t`; of a present page it renders the stored page; the store is unchanged |
| WikiLaws.InvalidFormTitleRejected | gowiki/wiki.go:106-111 | a form title outside `[a-zA-Z0-9]+` gets the inline message and nothing is written, whatever the file system would do |
| WikiLaws.RejectionTextLiteral | gowiki/wiki.go:109 | for a rejected title without `%`, the message is the prefix followed by the title, written literally |
| WikiLaws.PercentTitleRejected | gowiki/wiki.go:106-111 | a title containing `%` is rejected and nothing is written; its message text is left unmodelled |
| WikiLaws.SaveLaws | gowiki/wiki.go:113-120 | with a valid title, save stores the body and redirects to `/view/<t>` on success, and answers 500 with the store unchanged on failure |
| WikiLaws.UpdateLaws | gowiki/wiki.go:123-133 | update stores the body and redirects (302) to `/view/<t>` on success, and answers 500 with the store unchanged on failure |
| WikiLaws.DeleteLaws | gowiki/wiki.go:144-153 | delete removes the title and nothing else; present: redirect to `/` (302); missing: NotFound then the redirect, so 404 is sent |
| WikiLaws.UpdateThenView | gowiki/wiki.go:123-133 | after a successful update, its redirect target (the view route) renders the body just written |
| WikiLaws.DeleteThenView | gowiki/wiki.go:144-153 | after a delete, viewing the page redirects to its edit route |
| WikiLaws.ServeTouchesOnlyValidTitles | gowiki/wiki.go:64-73 | for any request and file-system outcome, a file whose name is not a valid title is neither written nor removed |
| WikiLaws.RunKeepsTitlesValid | gowiki/wiki.go:34-37 | over any sequence of requests, a file whose name is not a valid title is never written or removed |
| WikiLaws.RunPreservesAllTitlesValid | gowiki/wiki.go:35 | a directory whose files all have valid titles keeps that property under any sequence of requests |
| WikiLaws.ScenarioAlpha1 | gowiki/wiki.go:102-121 | saving `Alpha1` = "hello" redirects to `/view/Alpha1` and loads back; after deleting it, loading fails |
| WikiLaws.ScenarioBadTitle | gowiki/wiki.go:106-111 | saving under the title `bad title!` leaves the store unchanged |

## Left out

- Server wiring (`main`, `http.HandleFunc`, `ListenAndServe`): this is I/O. The mux's prefix routing is represented only by the route a request carries.
- net/http path cleaning, such as the redirect for paths containing `..` or `//`: this belongs to the server library, not to the core.
- Template parsing and execution, including `renderTemplate`'s 500 when the template engine fails: the engine is a foreign library. A render is the opaque value `Render(template, page)`.
- `createHandler`: it only renders the empty create form and never touches the store.
- `listHandler`: it lists the directory in whatever order the file system returns, and its error path is plain text. The model makes no claim about it.
- File-system details: the `0600` mode, joining `pages/` to the title (the title is the key), and the kinds of OS error.
- Read errors other than absence, and removal errors other than absence: both come from the operating system.
- Partial writes: a failed write is modelled as leaving the file unchanged.
- Concurrent requests racing on the same file: this is concurrency, and the source promises nothing about it.
- Message texts: the bodies of `http.NotFound` and `http.Error` are left out.
- Handlers.RejectionText: the inline text is given only for a title without `%`. The source passes the user's title to `fmt.Fprintf` as part of the format string, so fmt reads each `%` in it as a verb: `a%d` is sent as `…a%!d(MISSING)`, `100%` as `…100%!(NOVERB)`, and `a%%b` as `…a%b`. That expansion is not modelled, and the text is `None` for such titles. A constant format string with the title as an operand would print it literally.
- Form decoding: the form's `title` and `body` fields arrive already decoded. A missing field is the empty value, as `FormValue` returns.
- Go strings are byte strings. Titles are modelled as strings of characters, and bodies as bytes. The character class is ASCII, so a non-ASCII character is rejected either way.
