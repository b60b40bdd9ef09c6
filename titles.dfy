/**
 * Title validation and route matching of gowiki/wiki.go.
 *
 * The source uses two regular expressions:
 *   the route pattern, anchored, with an action group (edit|update|view|delete)
 *   and a title group [a-zA-Z0-9]+, and
 *   the form-title pattern, anchored, [a-zA-Z0-9]+.
 * Here both are written out without a regex engine: a leading '/' check, the
 * segment up to the next '/' checked for membership in the action set, and an
 * all-alphanumeric check of the remainder.
 */
module Titles {
  import opened Results

  /** One character of the class [a-zA-Z0-9] (ASCII only). */
  predicate IsAlnum(c: char) {
    ('a' <= c <= 'z') || ('A' <= c <= 'Z') || ('0' <= c <= '9')
  }

  /** Every character of s is in [a-zA-Z0-9]. */
  function AllAlnum(s: string): (b: bool)
    ensures b <==> forall i :: 0 <= i < |s| ==> IsAlnum(s[i])
  {
    s == [] || (IsAlnum(s[0]) && AllAlnum(s[1..]))
  }

  /** The whole of s matches [a-zA-Z0-9]+: the form-title check of saveHandler. */
  function ValidTitle(s: string): (b: bool)
    ensures b <==> |s| > 0 && forall i :: 0 <= i < |s| ==> IsAlnum(s[i])
  {
    |s| > 0 && AllAlnum(s)
  }

  /** The actions of the route pattern, in the order its alternation lists them. */
  datatype Action = Edit | Update | View | Delete {
    /** The path segment that selects the action. */
    function Name(): string {
      match this
      case Edit => "edit"
      case Update => "update"
      case View => "view"
      case Delete => "delete"
    }
  }

  /** Membership of a path segment in the action set. */
  function ParseAction(s: string): (r: Option<Action>)
    ensures r.Some? ==> r.value.Name() == s
    ensures r.None? ==> forall a: Action :: a.Name() != s
  {
    if s == "edit" then Some(Edit)
    else if s == "update" then Some(Update)
    else if s == "view" then Some(View)
    else if s == "delete" then Some(Delete)
    else None
  }

  /** Index of the first '/' in s, if any. */
  function FindSlash(s: string): (r: Option<nat>)
    ensures r.Some? ==> r.value < |s| && s[r.value] == '/'
    ensures r.Some? ==> forall j :: 0 <= j < r.value ==> s[j] != '/'
    ensures r.None? ==> forall j :: 0 <= j < |s| ==> s[j] != '/'
  {
    if s == [] then None
    else if s[0] == '/' then Some(0)
    else match FindSlash(s[1..])
      case None => None
      case Some(k) => Some(k + 1)
  }

  /** The two capture groups of a successful route match. */
  datatype Match = Match(action: Action, title: string)

  /**
   * The route pattern's FindStringSubmatch: None when the path does not match,
   * otherwise the action group and the title group.
   */
  function MatchPath(path: string): Option<Match> {
    if |path| == 0 || path[0] != '/' then None
    else
      var rest := path[1..];
      match FindSlash(rest)
      case None => None
      case Some(k) =>
        match ParseAction(rest[..k])
        case None => None
        case Some(a) =>
          if ValidTitle(rest[k + 1..]) then Some(Match(a, rest[k + 1..])) else None
  }

  /** No action name contains '/'. */
  lemma NameHasNoSlash(a: Action)
    ensures forall j :: 0 <= j < |a.Name()| ==> a.Name()[j] != '/'
  {
  }

  /** Distinct actions have distinct names, so the membership check finds the action back. */
  lemma ParseActionName(a: Action)
    ensures ParseAction(a.Name()) == Some(a)
  {
  }

  /** A successful match has the shape "/" + action name + "/" + title. */
  lemma MatchPathSound(path: string)
    requires MatchPath(path).Some?
    ensures path == "/" + MatchPath(path).value.action.Name() + "/" + MatchPath(path).value.title
    ensures ValidTitle(MatchPath(path).value.title)
  {
    var rest := path[1..];
    var k := FindSlash(rest).value;
    assert rest == rest[..k] + "/" + rest[k + 1..];
    assert path == [path[0]] + rest;
  }

  /** Every path of that shape matches, with the action and title it was built from. */
  lemma MatchPathComplete(a: Action, t: string)
    requires ValidTitle(t)
    ensures MatchPath("/" + a.Name() + "/" + t) == Some(Match(a, t))
  {
    var n := a.Name();
    NameHasNoSlash(a);
    var path := "/" + n + "/" + t;
    var rest := path[1..];
    assert rest == n + "/" + t;
    assert forall j :: 0 <= j < |n| ==> rest[j] == n[j];
    assert rest[|n|] == '/';
    var f := FindSlash(rest);
    assert f.Some? && f.value == |n|;
    assert rest[..|n|] == n;
    assert rest[|n| + 1..] == t;
    ParseActionName(a);
  }

  /** The path matches with captures (a, t) exactly when it is "/" + a's name + "/" + t
      and t is a valid title. */
  lemma MatchPathExact(path: string, a: Action, t: string)
    ensures MatchPath(path) == Some(Match(a, t)) <==> path == "/" + a.Name() + "/" + t && ValidTitle(t)
  {
    if MatchPath(path) == Some(Match(a, t)) {
      MatchPathSound(path);
    }
    if path == "/" + a.Name() + "/" + t && ValidTitle(t) {
      MatchPathComplete(a, t);
    }
  }

  /** A matched title is a valid title (so it holds no '/' and is neither "." nor ".."). */
  lemma MatchedTitleIsValid(path: string)
    requires MatchPath(path).Some?
    ensures ValidTitle(MatchPath(path).value.title)
    ensures '/' !in MatchPath(path).value.title
    ensures MatchPath(path).value.title != "." && MatchPath(path).value.title != ".."
  {
    var m := MatchPath(path).value;
    assert !IsAlnum('/') && !IsAlnum('.');
  }

  /**
   * The server's mux sends paths starting with "/<route>/" to the handler wrapped
   * for that route, and the wrapper ignores the action group: this is sound because
   * the action group then always equals the route.
   */
  lemma RouteAgreesWithMatch(route: Action, path: string)
    requires |path| >= |route.Name()| + 2
    requires path[..|route.Name()| + 2] == "/" + route.Name() + "/"
    requires MatchPath(path).Some?
    ensures MatchPath(path).value.action == route
  {
    var m := MatchPath(path).value;
    MatchPathExact(path, m.action, m.title);
    var b := m.action.Name();
    var n := route.Name();
    NameHasNoSlash(route);
    NameHasNoSlash(m.action);
    var rest := path[1..];
    assert rest == b + "/" + m.title;
    assert rest[|n|] == '/';
    assert rest[|b|] == '/';
    assert |b| == |n|;
    assert rest[..|n|] == n;
    assert rest[..|b|] == b;
    ParseActionName(route);
    ParseActionName(m.action);
  }
}
