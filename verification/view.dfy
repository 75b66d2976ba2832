/**
 * Which of the two views the login page shows, how the page's elements are
 * marked for it, and the URL that selects each view.
 */
module View {

  /** The two views of the page. */
  datatype Mode = SignIn | SignUp

  /** The view selected by the value of the `type` query parameter ("" when it is absent). */
  function ModeOf(typ: string): Mode {
    if typ == "new" then SignUp else SignIn
  }

  function Other(m: Mode): Mode {
    if m == SignIn then SignUp else SignIn
  }

  /** The class naming the elements of each view's section. */
  function SectionClass(m: Mode): string {
    if m == SignIn then "signin" else "signup"
  }

  /** The heading of each view, used in the page title. */
  function Heading(m: Mode): string {
    if m == SignIn then "Sign in" else "Create account"
  }

  /** The class that hides an element. */
  const Hide := "hide"

  /** The suffix of every page title. */
  const TitleSuffix := " - GMT"

  /** The class to hide, the class to show and the heading, as the page update chooses them. */
  datatype Selection = Selection(hide: string, show: string, title: string)

  /** The update's choice shows the section of the selected view, hides the other one, and uses its heading. */
  function SelectionOf(typ: string): (sel: Selection)
    ensures sel.show == SectionClass(ModeOf(typ))
    ensures sel.hide == SectionClass(Other(ModeOf(typ)))
    ensures sel.title == Heading(ModeOf(typ))
    ensures sel.hide != sel.show && sel.hide != Hide && sel.show != Hide
  {
    match typ
    case "new" => Selection("signin", "signup", "Create account")
    case _ => Selection("signup", "signin", "Sign in")
  }

  /** The page title: "Create account - GMT" for `type=new`, "Sign in - GMT" for anything else. */
  function PageTitle(typ: string): (title: string)
    ensures title == Heading(ModeOf(typ)) + TitleSuffix
    ensures typ == "new" ==> title == "Create account - GMT"
    ensures typ != "new" ==> title == "Sign in - GMT"
  {
    SelectionOf(typ).title + TitleSuffix
  }

  /**
   * The classes of one element after the update: `hide` is added if the
   * element carries the class to hide, and then removed if it carries the
   * class to show. Only the `hide` class can change.
   */
  function RenderOne(classes: set<string>, typ: string): (r: set<string>)
    ensures r - {Hide} == classes - {Hide}
    ensures SelectionOf(typ).show in classes ==> Hide !in r
    ensures SelectionOf(typ).hide in classes && SelectionOf(typ).show !in classes ==> Hide in r
    ensures SelectionOf(typ).hide !in classes && SelectionOf(typ).show !in classes ==> r == classes
  {
    var sel := SelectionOf(typ);
    var afterHide := if sel.hide in classes then classes + {Hide} else classes;
    if sel.show in afterHide then afterHide - {Hide} else afterHide
  }

  /**
   * The class lists of all elements of the page, in document order, after the
   * update: as many as before, each updated on its own.
   */
  function Rendered(page: seq<set<string>>, typ: string): (r: seq<set<string>>)
    ensures |r| == |page|
    ensures forall k :: 0 <= k < |page| ==> r[k] == RenderOne(page[k], typ)
  {
    if page == [] then [] else [RenderOne(page[0], typ)] + Rendered(page[1..], typ)
  }

  /** Updating an element that is already up to date changes nothing. */
  lemma RenderOneIdempotent(classes: set<string>, typ: string)
    ensures RenderOne(RenderOne(classes, typ), typ) == RenderOne(classes, typ)
  {
  }

  /** Updating the page twice with the same query is the same as updating it once. */
  lemma RenderedIdempotent(page: seq<set<string>>, typ: string)
    ensures Rendered(Rendered(page, typ), typ) == Rendered(page, typ)
  {
  }

  /** An element is visible when it does not carry the `hide` class. */
  predicate Visible(classes: set<string>) {
    Hide !in classes
  }

  /**
   * After the update, an element of only one section is visible exactly when
   * that section's view is selected; an element of both sections is visible;
   * an element of neither is untouched.
   */
  lemma SectionsFollowMode(page: seq<set<string>>, typ: string, k: int)
    requires 0 <= k < |page|
    ensures |Rendered(page, typ)| == |page|
    ensures forall m: Mode :: SectionClass(m) in page[k] && SectionClass(Other(m)) !in page[k] ==>
      (Visible(Rendered(page, typ)[k]) <==> ModeOf(typ) == m)
    ensures "signin" in page[k] && "signup" in page[k] ==> Visible(Rendered(page, typ)[k])
    ensures "signin" !in page[k] && "signup" !in page[k] ==> Rendered(page, typ)[k] == page[k]
  {
  }

  /**
   * The positions, in document order, of the elements carrying class cls:
   * every such element is listed once and nothing else is listed.
   */
  function ElementsByClassName(page: seq<set<string>>, cls: string): (r: seq<nat>)
    ensures forall a :: 0 <= a < |r| ==> r[a] < |page| && cls in page[r[a]]
    ensures forall k :: 0 <= k < |page| && cls in page[k] ==> k in r
    ensures forall a, b :: 0 <= a < b < |r| ==> r[a] < r[b]
  {
    if page == [] then []
    else
      var front := ElementsByClassName(page[..|page| - 1], cls);
      if cls in page[|page| - 1] then front + [|page| - 1] else front
  }

  /** The query string that selects a view: `?type=new` for "signup", empty otherwise. */
  function SearchFor(t: string): (search: string)
    ensures search == "?type=new" <==> t == "signup"
    ensures t != "signup" ==> search == ""
  {
    if t == "signup" then "?type=new" else ""
  }

  /** The URL pushed for a change of view: the current path, plus `?type=new` exactly for "signup". */
  function NewUrl(pathname: string, t: string): (url: string)
    ensures url == pathname + "?type=new" <==> t == "signup"
    ensures t != "signup" ==> url == pathname
  {
    pathname + SearchFor(t)
  }

  /**
   * A URL that starts with `//` is a network-path reference: it names a host
   * of its own, so it may resolve to another origin than the page's.
   */
  predicate IsNetworkPath(url: string) {
    |url| >= 2 && url[..2] == "//"
  }

  /** The pushed URL is a network-path reference exactly when the current path is one. */
  lemma NewUrlNetworkPath(pathname: string, t: string)
    ensures IsNetworkPath(NewUrl(pathname, t)) <==> IsNetworkPath(pathname)
  {
    var url := NewUrl(pathname, t);
    if |pathname| >= 2 {
      assert url[..2] == pathname[..2];
    } else if |url| >= 2 {
      // The first character after the path opens the query string.
      assert url[|pathname|] == '?';
      assert url[..2] != "//" by { assert url[..2][|pathname|] == '?'; }
    }
  }
}
