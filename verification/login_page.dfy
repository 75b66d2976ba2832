/**
 * The login page as state: its title, the class lists of its elements, its
 * location and history, the two input fields, the error display and the two
 * submit buttons. The page's operations update that state in place.
 */
module LoginPage {
  import opened Wire
  import opened Identifier
  import opened Validation
  import opened View

  /** A submit button: whether it is disabled, and its text. */
  datatype Button = Button(disabled: bool, text: string)

  const SignInLabel := "Sign in"
  const CreateAccountLabel := "Create account"
  const SigningInLabel := "Signing in..."
  const CreatingAccountLabel := "Creating account..."

  class Document {
    /** The page title. */
    var title: string
    /** The class list of every element of the page, in document order. */
    var elements: array<set<string>>
    /** The path and the query string of the current location. */
    var pathname: string
    var search: string
    /** The value of the `type` parameter of the query string, "" when absent. */
    var typeParam: string
    /** The URLs pushed onto the session history, oldest first. */
    var history: seq<string>
    /** The values of the identifier and password inputs. */
    var identifier: string
    var password: string
    /** The text and the class list of the error display. */
    var errorText: string
    var errorClasses: set<string>
    /** The sign-in and create-account submit buttons. */
    var signinButton: Button
    var createButton: Button

    /**
     * The extracted `type` value agrees with the query string for the two
     * query strings the page itself writes.
     */
    ghost predicate Valid()
      reads this
    {
      (search == "" ==> typeParam == "") &&
      (search == "?type=new" ==> typeParam == "new")
    }

    /** Both buttons are enabled and carry their resting labels. */
    ghost predicate ButtonsIdle()
      reads this
    {
      signinButton == Button(false, SignInLabel) &&
      createButton == Button(false, CreateAccountLabel)
    }

    /** A freshly loaded page with the given location and element class lists. */
    constructor (pathname: string, search: string, typeParam: string, page: seq<set<string>>)
      requires (search == "" ==> typeParam == "") && (search == "?type=new" ==> typeParam == "new")
      ensures Valid() && ButtonsIdle() && fresh(elements)
      ensures this.pathname == pathname && this.search == search && this.typeParam == typeParam
      ensures elements[..] == page && history == [] && title == ""
      ensures identifier == "" && password == "" && errorText == "" && errorClasses == {Hide}
    {
      this.pathname, this.search, this.typeParam := pathname, search, typeParam;
      elements := new set<string>[|page|](i requires 0 <= i < |page| => page[i]);
      history, title := [], "";
      identifier, password := "", "";
      errorText, errorClasses := "", {Hide};
      signinButton := Button(false, SignInLabel);
      createButton := Button(false, CreateAccountLabel);
    }

    /**
     * Shows the view selected by the `type` query parameter: sets the title,
     * adds `hide` to every element of the other view's class, then removes
     * it from every element of the selected view's class.
     */
    method Update()
      requires Valid()
      modifies this`title, elements
      ensures Valid()
      ensures title == PageTitle(typeParam)
      ensures elements[..] == Rendered(old(elements[..]), typeParam)
    {
      ghost var before := elements[..];
      var sel := SelectionOf(typeParam);
      title := sel.title + TitleSuffix;

      var hidden := ElementsByClassName(elements[..], sel.hide);
      AddHide(hidden);
      ghost var middle := elements[..];
      var shown := ElementsByClassName(elements[..], sel.show);
      RemoveHide(shown);

      forall j | 0 <= j < elements.Length
        ensures |Rendered(before, typeParam)| == elements.Length
        ensures elements[..][j] == Rendered(before, typeParam)[j]
      {
        assert (j in hidden) == (sel.hide in before[j]);
        assert middle[j] == if sel.hide in before[j] then before[j] + {Hide} else before[j];
        assert (j in shown) == (sel.show in middle[j]);
      }
      if elements.Length == 0 {
        assert before == [];
      }
    }

    /** Adds `hide` to the class list of every listed element, in order; the others are untouched. */
    method AddHide(indices: seq<nat>)
      requires forall a :: 0 <= a < |indices| ==> indices[a] < elements.Length
      requires forall a, b :: 0 <= a < b < |indices| ==> indices[a] < indices[b]
      modifies elements
      ensures forall j :: 0 <= j < elements.Length ==>
        elements[j] == if j in indices then old(elements[j]) + {Hide} else old(elements[j])
    {
      for i := 0 to |indices|
        invariant forall j :: 0 <= j < elements.Length ==>
          elements[j] == if j in indices[..i] then old(elements[j]) + {Hide} else old(elements[j])
      {
        var k := indices[i];
        assert k !in indices[..i];
        assert indices[..i + 1] == indices[..i] + [k];
        elements[k] := elements[k] + {Hide};
      }
      assert indices[..|indices|] == indices;
    }

    /** Removes `hide` from the class list of every listed element, in order; the others are untouched. */
    method RemoveHide(indices: seq<nat>)
      requires forall a :: 0 <= a < |indices| ==> indices[a] < elements.Length
      requires forall a, b :: 0 <= a < b < |indices| ==> indices[a] < indices[b]
      modifies elements
      ensures forall j :: 0 <= j < elements.Length ==>
        elements[j] == if j in indices then old(elements[j]) - {Hide} else old(elements[j])
    {
      for i := 0 to |indices|
        invariant forall j :: 0 <= j < elements.Length ==>
          elements[j] == if j in indices[..i] then old(elements[j]) - {Hide} else old(elements[j])
      {
        var k := indices[i];
        assert k !in indices[..i];
        assert indices[..i + 1] == indices[..i] + [k];
        elements[k] := elements[k] - {Hide};
      }
      assert indices[..|indices|] == indices;
    }

    /**
     * Switches the view: pushes the current path, with `?type=new` exactly
     * when t is "signup", onto the history, and updates the page for it.
     * The browser refuses to push a URL that resolves to another origin;
     * sameOrigin is its verdict on the new URL. On a refusal the handler
     * aborts before anything changes and before the page is updated.
     */
    method ChangeState(t: string, sameOrigin: bool) returns (pushed: bool)
      requires Valid()
      modifies this`search, this`typeParam, this`history, this`title, elements
      ensures Valid()
      ensures pushed == sameOrigin
      ensures pushed ==> search == SearchFor(t)
      ensures pushed ==> history == old(history) + [NewUrl(pathname, t)]
      ensures pushed ==> (ModeOf(typeParam) == SignUp <==> t == "signup")
      ensures pushed ==> title == PageTitle(typeParam)
      ensures pushed ==> elements[..] == Rendered(old(elements[..]), typeParam)
      ensures !pushed ==> search == old(search) && typeParam == old(typeParam) && history == old(history)
      ensures !pushed ==> title == old(title) && elements[..] == old(elements[..])
    {
      var url := pathname + if t == "signup" then "?type=new" else "";
      if !sameOrigin {
        return false;
      }
      history := history + [url];
      search := url[|pathname|..];
      // The value the URL's search parameters give for `type`.
      typeParam := if search == "?type=new" then "new" else "";
      Update();
      pushed := true;
    }

    /**
     * Submits the form: computes the error from the blank-field check and the
     * identifier classification, shows it and stops if there is one, and
     * otherwise hides the error display, disables both buttons and returns
     * the request to send.
     */
    method Signin() returns (request: Option<GetToken>)
      requires Valid()
      modifies this`errorText, this`errorClasses, this`signinButton, this`createButton
      ensures SubmitError(identifier, password).Some? ==>
        errorText == SubmitError(identifier, password).value &&
        errorClasses == old(errorClasses) - {Hide} &&
        request == None &&
        signinButton == old(signinButton) && createButton == old(createButton)
      ensures SubmitError(identifier, password) == None ==>
        errorText == "" &&
        errorClasses == old(errorClasses) + {Hide} &&
        request == Some(GetToken(identifier, Classify(identifier).kind, password)) &&
        signinButton == Button(true, SigningInLabel) &&
        createButton == Button(true, CreatingAccountLabel)
      ensures Valid()
    {
      var error := BlankCheck(identifier, password);
      var identifierType;
      if MatchesEmailPattern(identifier) {
        identifierType := Email;
      } else if '@' in identifier {
        error := Some(InvalidEmailMessage);
        identifierType := Username;
      } else {
        identifierType := Username;
      }

      errorText := if error.Some? then error.value else "";
      if error.Some? {
        errorClasses := errorClasses - {Hide};
        return None;
      }
      errorClasses := errorClasses + {Hide};

      var req := GetToken(identifier, identifierType, password);
      DisableButtons(true);
      request := Some(req);
    }

    /** Sets both buttons' disabled flag to busy, with the in-progress labels when busy and the resting ones otherwise. */
    method DisableButtons(busy: bool)
      requires Valid()
      modifies this`signinButton, this`createButton
      ensures Valid()
      ensures signinButton == Button(busy, if busy then SigningInLabel else SignInLabel)
      ensures createButton == Button(busy, if busy then CreatingAccountLabel else CreateAccountLabel)
      ensures busy <==> !ButtonsIdle()
    {
      signinButton := Button(busy, if busy then SigningInLabel else SignInLabel);
      createButton := Button(busy, if busy then CreatingAccountLabel else CreateAccountLabel);
    }

    /**
     * The handler run when the token request's promise is fulfilled, whatever
     * the HTTP status: both buttons return to rest.
     */
    method Complete()
      requires Valid()
      modifies this`signinButton, this`createButton
      ensures Valid()
      ensures ButtonsIdle()
    {
      DisableButtons(false);
    }
  }
}
