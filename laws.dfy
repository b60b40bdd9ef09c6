/**
 * Properties of the wiki model: the store's round-trip and isolation laws, the
 * outcome of each handler on present and missing pages, and the safety property
 * that every file a request writes or removes is named by a valid title.
 */
module WikiLaws {
  import opened Results
  import opened Titles
  import opened Pages
  import opened Handlers

  // ---------------------------------------------------------------------------
  // The store

  /** Loading a page right after writing it gives back that title and body. */
  lemma LoadAfterSave(dir: Directory, t: string, b: seq<byte>)
    ensures Lookup(Stored(dir, Page(t, b)), t) == Success(Page(t, b))
  {
  }

  /** Writing one page leaves what every other title loads unchanged. */
  lemma SaveIsolation(dir: Directory, p: Page, k: string)
    requires k != p.title
    ensures Lookup(Stored(dir, p), k) == Lookup(dir, k)
  {
  }

  /** Writing twice is writing the second body once. */
  lemma SaveTwice(dir: Directory, t: string, b1: seq<byte>, b2: seq<byte>)
    ensures Stored(Stored(dir, Page(t, b1)), Page(t, b2)) == Stored(dir, Page(t, b2))
  {
  }

  /** After removal the page no longer loads; every other title loads as before. */
  lemma RemoveLaws(dir: Directory, t: string, k: string)
    ensures Lookup(Removed(dir, t), t) == Failure(NoSuchFile)
    ensures k != t ==> Lookup(Removed(dir, t), k) == Lookup(dir, k)
  {
  }

  /** The store class: a successful save followed by a load returns the saved page,
      and no other title's contents change. */
  method SaveThenLoad(store: PageStore, t: string, b: seq<byte>) returns (r: Result<Page, LoadError>)
    modifies store
    ensures r == Success(Page(t, b))
    ensures forall k :: k != t ==> (k in store.pages <==> k in old(store.pages))
    ensures forall k :: k != t && k in old(store.pages) ==> store.pages[k] == old(store.pages)[k]
  {
    var err := store.Save(Page(t, b), true);
    r := store.Load(t);
  }

  // ---------------------------------------------------------------------------
  // Routing

  /** An action segment outside the action set is rejected. */
  lemma RejectsUnknownAction()
    ensures MatchPath("/save/x").None?
  {
    var rest := "/save/x"[1..];
    assert rest == "save/x";
    assert FindSlash(rest) == Some(4) by {
      assert rest[0] != '/' && rest[1] != '/' && rest[2] != '/' && rest[3] != '/' && rest[4] == '/';
    }
    assert rest[..4] == "save";
  }

  /** An empty title is rejected. */
  lemma RejectsEmptyTitle()
    ensures MatchPath("/view/").None?
  {
    if MatchPath("/view/").Some? {
      MatchPathSound("/view/");
    }
  }

  /** A title with a space is rejected. */
  lemma RejectsSpaceInTitle()
    ensures MatchPath("/view/a b").None?
  {
    if MatchPath("/view/a b").Some? {
      MatchPathSound("/view/a b");
    }
  }

  /** A title with a further '/' is rejected. */
  lemma RejectsNestedPath()
    ensures MatchPath("/view/a/b").None?
  {
    if MatchPath("/view/a/b").Some? {
      MatchPathSound("/view/a/b");
    }
  }

  /** A well-formed route path is accepted with its action and title. */
  lemma AcceptsViewPath()
    ensures MatchPath("/view/Alpha1") == Some(Match(View, "Alpha1"))
  {
    assert "/view/Alpha1" == "/" + View.Name() + "/" + "Alpha1";
    MatchPathComplete(View, "Alpha1");
  }

  /** A path the route pattern rejects gets NotFound and changes nothing. */
  lemma RejectedPathChangesNothing(dir: Directory, route: Action, path: string, body: seq<byte>, writeOk: bool)
    requires MatchPath(path).None?
    ensures Serve(dir, Routed(route, path, body), writeOk) == Outcome(dir, [NotFound])
    ensures SentStatus(Serve(dir, Routed(route, path, body), writeOk).responses) == StatusNotFound
  {
  }

  /** A route path built from a valid title reaches the route's handler with that title. */
  lemma RoutedPathReachesHandler(dir: Directory, route: Action, t: string, body: seq<byte>, writeOk: bool)
    requires ValidTitle(t)
    ensures Serve(dir, Routed(route, "/" + route.Name() + "/" + t, body), writeOk)
         == Dispatch(dir, route, t, body, writeOk)
  {
    MatchPathComplete(route, t);
  }

  // ---------------------------------------------------------------------------
  // Handlers

  /** View of a missing page redirects (302) to its edit route, and of a present page
      renders it; the directory is never changed. */
  lemma ViewLaws(dir: Directory, t: string, b: seq<byte>, writeOk: bool)
    ensures t !in dir ==> ViewResponses(dir, t) == [Redirect("/edit/" + t)]
    ensures t !in dir ==> SentStatus(ViewResponses(dir, t)) == StatusFound
    ensures t in dir ==> ViewResponses(dir, t) == [Render(ViewTemplate, Page(t, dir[t]))]
    ensures Dispatch(dir, View, t, b, writeOk).dir == dir
  {
  }

  /** Edit of a missing page renders the edit form with an empty page of that title;
      of a present page it renders the stored page; the directory is never changed. */
  lemma EditLaws(dir: Directory, t: string, b: seq<byte>, writeOk: bool)
    ensures t !in dir ==> EditResponses(dir, t) == [Render(EditTemplate, Page(t, []))]
    ensures t in dir ==> EditResponses(dir, t) == [Render(EditTemplate, Page(t, dir[t]))]
    ensures Dispatch(dir, Edit, t, b, writeOk).dir == dir
  {
  }

  /** A form title outside [a-zA-Z0-9]+ is answered with the inline message and nothing
      is written, whatever the file system would do. */
  lemma InvalidFormTitleRejected(dir: Directory, t: string, b: seq<byte>, writeOk: bool)
    requires !ValidTitle(t)
    ensures SaveOutcome(dir, t, b, writeOk) == Outcome(dir, [InlineText(RejectionText(t))])
    ensures SentStatus(SaveOutcome(dir, t, b, writeOk).responses) == StatusOK
  {
  }

  /** For a rejected title without '%', the message is the prefix followed by the title,
      written literally. */
  lemma RejectionTextLiteral(t: string)
    requires '%' !in t
    ensures RejectionText(t) == Some(InvalidTitleText + t)
  {
    assert '%' !in InvalidTitleText;
    assert forall i :: 0 <= i < |InvalidTitleText + t| ==>
      (InvalidTitleText + t)[i] == if i < |InvalidTitleText| then InvalidTitleText[i] else t[i - |InvalidTitleText|];
  }

  /** A title with '%' is rejected by the form check, and its message text is left open. */
  lemma PercentTitleRejected(dir: Directory, t: string, b: seq<byte>, writeOk: bool)
    requires '%' in t
    ensures !ValidTitle(t)
    ensures SaveOutcome(dir, t, b, writeOk) == Outcome(dir, [InlineText(None)])
  {
    assert !IsAlnum('%');
    var i :| 0 <= i < |t| && t[i] == '%';
    assert (InvalidTitleText + t)[|InvalidTitleText| + i] == '%';
  }

  /** With a valid form title, save behaves as update: a successful write stores the body
      and redirects (302) to the view route; a failed one answers 500 and changes nothing. */
  lemma SaveLaws(dir: Directory, t: string, b: seq<byte>, writeOk: bool)
    requires ValidTitle(t)
    ensures SaveOutcome(dir, t, b, writeOk) == UpdateOutcome(dir, t, b, writeOk)
    ensures writeOk ==> SaveOutcome(dir, t, b, writeOk) == Outcome(Stored(dir, Page(t, b)), [Redirect("/view/" + t)])
    ensures !writeOk ==> SaveOutcome(dir, t, b, writeOk) == Outcome(dir, [ServerError])
  {
  }

  /** Update: a successful write stores exactly the new body under the title and redirects
      to the view route; a failed one answers 500 and changes nothing. */
  lemma UpdateLaws(dir: Directory, t: string, b: seq<byte>, writeOk: bool)
    ensures writeOk ==> UpdateOutcome(dir, t, b, writeOk).dir == Stored(dir, Page(t, b))
    ensures writeOk ==> UpdateOutcome(dir, t, b, writeOk).responses == [Redirect("/view/" + t)]
    ensures writeOk ==> SentStatus(UpdateOutcome(dir, t, b, writeOk).responses) == StatusFound
    ensures !writeOk ==> UpdateOutcome(dir, t, b, writeOk) == Outcome(dir, [ServerError])
    ensures !writeOk ==> SentStatus(UpdateOutcome(dir, t, b, writeOk).responses) == StatusInternalServerError
  {
  }

  /** Delete removes the title whether or not it existed and leaves the rest; on a missing
      page NotFound is written first (so the client gets 404) and the redirect still follows. */
  lemma DeleteLaws(dir: Directory, t: string)
    ensures DeleteOutcome(dir, t).dir == Removed(dir, t)
    ensures t !in DeleteOutcome(dir, t).dir
    ensures t in dir ==> DeleteOutcome(dir, t).responses == [Redirect("/")]
    ensures t in dir ==> SentStatus(DeleteOutcome(dir, t).responses) == StatusFound
    ensures t !in dir ==> DeleteOutcome(dir, t).responses == [NotFound, Redirect("/")]
    ensures t !in dir ==> SentStatus(DeleteOutcome(dir, t).responses) == StatusNotFound
  {
  }

  /** The redirect after a successful save or update lands on the view route of the same
      page, which then renders the body just written. */
  lemma UpdateThenView(dir: Directory, t: string, b: seq<byte>, b2: seq<byte>)
    requires ValidTitle(t)
    ensures var after := Serve(dir, Routed(Update, "/update/" + t, b), true);
            after.responses == [Redirect("/view/" + t)]
            && Serve(after.dir, Routed(View, "/view/" + t, b2), true)
               == Outcome(after.dir, [Render(ViewTemplate, Page(t, b))])
  {
    assert "/update/" + t == "/" + Update.Name() + "/" + t;
    assert "/view/" + t == "/" + View.Name() + "/" + t;
    RoutedPathReachesHandler(dir, Update, t, b, true);
    var after := Stored(dir, Page(t, b));
    assert Serve(dir, Routed(Update, "/update/" + t, b), true) == Outcome(after, [Redirect("/view/" + t)]);
    RoutedPathReachesHandler(after, View, t, b2, true);
    assert Serve(after, Routed(View, "/view/" + t, b2), true) == Outcome(after, ViewResponses(after, t));
    ViewLaws(after, t, b2, true);
  }

  /** After a page is deleted, viewing it redirects to its edit route. */
  lemma DeleteThenView(dir: Directory, t: string, b: seq<byte>)
    requires ValidTitle(t)
    ensures var gone := Serve(dir, Routed(Delete, "/delete/" + t, b), true).dir;
            Serve(gone, Routed(View, "/view/" + t, b), true).responses == [Redirect("/edit/" + t)]
  {
    assert "/delete/" + t == "/" + Delete.Name() + "/" + t;
    assert "/view/" + t == "/" + View.Name() + "/" + t;
    RoutedPathReachesHandler(dir, Delete, t, b, true);
    var gone := Removed(dir, t);
    assert Serve(dir, Routed(Delete, "/delete/" + t, b), true).dir == gone;
    RoutedPathReachesHandler(gone, View, t, b, true);
    assert Serve(gone, Routed(View, "/view/" + t, b), true) == Outcome(gone, ViewResponses(gone, t));
    ViewLaws(gone, t, b, true);
  }

  // ---------------------------------------------------------------------------
  // No path traversal

  /** The directory holds the same thing for key k before and after. */
  ghost predicate SameAt(before: Directory, after: Directory, k: string) {
    (k in before <==> k in after) && (k in before ==> before[k] == after[k])
  }

  /** Every file name in the directory is a valid title. */
  ghost predicate AllTitlesValid(dir: Directory) {
    forall k :: k in dir ==> ValidTitle(k)
  }

  /** Whatever the request and whatever the file system does, the only file a request
      can write or remove is named by a non-empty alphanumeric title. */
  lemma ServeTouchesOnlyValidTitles(dir: Directory, req: Request, writeOk: bool, k: string)
    requires !ValidTitle(k)
    ensures SameAt(dir, Serve(dir, req, writeOk).dir, k)
  {
    match req
    case SaveForm(_, _) =>
    case Routed(route, path, body) =>
      if MatchPath(path).Some? {
        MatchPathSound(path);
      }
  }

  /** The directory after serving a sequence of requests, each with its file-system outcome. */
  function Run(dir: Directory, reqs: seq<(Request, bool)>): Directory
    decreases |reqs|
  {
    if reqs == [] then dir else Run(Serve(dir, reqs[0].0, reqs[0].1).dir, reqs[1..])
  }

  /** Starting from a directory of valid titles, no sequence of requests ever creates a
      file whose name is not a valid title, and invalid names are never touched. */
  lemma {:induction false} RunKeepsTitlesValid(dir: Directory, reqs: seq<(Request, bool)>, k: string)
    requires !ValidTitle(k)
    ensures SameAt(dir, Run(dir, reqs), k)
    decreases |reqs|
  {
    if reqs != [] {
      var next := Serve(dir, reqs[0].0, reqs[0].1).dir;
      ServeTouchesOnlyValidTitles(dir, reqs[0].0, reqs[0].1, k);
      RunKeepsTitlesValid(next, reqs[1..], k);
    }
  }

  /** A store of valid titles stays one. */
  lemma RunPreservesAllTitlesValid(dir: Directory, reqs: seq<(Request, bool)>)
    requires AllTitlesValid(dir)
    ensures AllTitlesValid(Run(dir, reqs))
  {
    forall k | k in Run(dir, reqs) ensures ValidTitle(k) {
      if !ValidTitle(k) {
        RunKeepsTitlesValid(dir, reqs, k);
      }
    }
  }

  // ---------------------------------------------------------------------------
  // The worked scenario: save Alpha1 = "hello", load it, delete it, reject "bad title!"

  lemma ScenarioAlpha1(dir: Directory)
    ensures var hello: seq<byte> := [104, 101, 108, 108, 111];
            var saved := Serve(dir, SaveForm("Alpha1", hello), true);
            && saved.responses == [Redirect("/view/Alpha1")]
            && Lookup(saved.dir, "Alpha1") == Success(Page("Alpha1", hello))
            && Lookup(Serve(saved.dir, Routed(Delete, "/delete/Alpha1", []), true).dir, "Alpha1").Failure?
  {
    var hello: seq<byte> := [104, 101, 108, 108, 111];
    var t := "Alpha1";
    assert ValidTitle(t) by {
      assert forall i :: 0 <= i < |t| ==> IsAlnum(t[i]);
    }
    SaveLaws(dir, t, hello, true);
    var saved := Stored(dir, Page(t, hello));
    assert Serve(dir, SaveForm(t, hello), true) == Outcome(saved, [Redirect("/view/" + t)]);
    assert "/view/" + t == "/view/Alpha1";
    assert "/delete/Alpha1" == "/" + Delete.Name() + "/" + t;
    RoutedPathReachesHandler(saved, Delete, t, [], true);
    DeleteLaws(saved, t);
  }

  lemma ScenarioBadTitle(dir: Directory)
    ensures Serve(dir, SaveForm("bad title!", [120]), true).dir == dir
  {
    assert !IsAlnum("bad title!"[3]);
  }
}
