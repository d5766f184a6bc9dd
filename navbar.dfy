/** The top navigation bar (src/components/Navbar.tsx): which page the current path
    is, where the back button leads, the menu state, and the profile line. */
module Navbar {
  import opened Js

  // ---------------------------------------------------------------- pages

  /** Lines 22-27: exact paths, and the `/insight/` prefix. */
  predicate IsHistoryPath(path: string) { path == "/history" }
  predicate IsTermsPath(path: string) { path == "/terms-of-use" }
  predicate IsPrivacyPath(path: string) { path == "/privacy-policy" }
  predicate IsResponsibleAIPath(path: string) { path == "/responsible-ai" }
  predicate IsInsightPath(path: string) { |path| >= 9 && path[..9] == "/insight/" }

  datatype Page = HistoryPage | TermsPage | PrivacyPage | ResponsibleAIPage | InsightPage | OtherPage

  function Classify(path: string): (p: Page)
    ensures p == HistoryPage <==> IsHistoryPath(path)
    ensures p == TermsPage <==> IsTermsPath(path)
    ensures p == PrivacyPage <==> IsPrivacyPath(path)
    ensures p == ResponsibleAIPage <==> IsResponsibleAIPath(path)
    ensures p == InsightPage <==> IsInsightPath(path)
  {
    PagesDisjoint(path);
    if IsHistoryPath(path) then HistoryPage
    else if IsTermsPath(path) then TermsPage
    else if IsPrivacyPath(path) then PrivacyPage
    else if IsResponsibleAIPath(path) then ResponsibleAIPage
    else if IsInsightPath(path) then InsightPage
    else OtherPage
  }

  /** No path is two of these pages at once: the exact paths are distinct and none
      of them starts with "/insight/". */
  lemma PagesDisjoint(path: string)
    ensures IsInsightPath(path) ==> !IsHistoryPath(path) && !IsTermsPath(path)
                                    && !IsPrivacyPath(path) && !IsResponsibleAIPath(path)
  {
    if IsInsightPath(path) {
      assert path[1] == 'i';
      assert "/terms-of-use"[1] == 't' && "/privacy-policy"[1] == 'p' && "/responsible-ai"[1] == 'r';
    }
  }

  /** Line 79: the back button is shown on the history, legal and insight pages. */
  predicate ShowsBack(path: string) {
    || IsHistoryPath(path) || IsTermsPath(path) || IsPrivacyPath(path)
    || IsResponsibleAIPath(path) || IsInsightPath(path)
  }

  /** Lines 57-65: where `handleBack` goes, or nowhere. */
  function BackTarget(path: string): (t: Option<string>)
    ensures IsHistoryPath(path) ==> t == Some("/spider")
    ensures IsTermsPath(path) || IsPrivacyPath(path) || IsResponsibleAIPath(path) ==> t == Some("/")
    ensures IsInsightPath(path) ==> t == Some("/history")
  {
    PagesDisjoint(path);
    if IsHistoryPath(path) then Some("/spider")
    else if IsTermsPath(path) || IsPrivacyPath(path) || IsResponsibleAIPath(path) then Some("/")
    else if IsInsightPath(path) then Some("/history")
    else None
  }

  /** Whenever the back button is visible it leads somewhere, and only then. */
  lemma BackShownIffTarget(path: string)
    ensures ShowsBack(path) <==> BackTarget(path).Some?
  {
  }

  /** The upload page itself has no back button. */
  lemma SpiderHasNoBack()
    ensures !ShowsBack("/spider") && BackTarget("/spider") == None
  {
    PagesDisjoint("/spider");
  }

  /** Every report page goes back to the history list, which goes back to the upload page. */
  lemma BackChain(id: string)
    ensures BackTarget("/insight/" + id) == Some("/history")
    ensures BackTarget("/history") == Some("/spider")
  {
    var path := "/insight/" + id;
    assert path[..9] == "/insight/";
    PagesDisjoint(path);
  }

  // ---------------------------------------------------------------- profile and menu

  /** Line 162: `user?.user_metadata?.full_name || user?.email || 'Please Sign In'`. */
  function ProfileName(user: Value): (r: Value)
    ensures !Truthy(user) ==> r == Str("Please Sign In")
    ensures Truthy(Get(Get(user, "user_metadata"), "full_name")) ==> r == Get(Get(user, "user_metadata"), "full_name")
    ensures !Truthy(Get(Get(user, "user_metadata"), "full_name")) ==> r == Or(Get(user, "email"), Str("Please Sign In"))
    ensures Truthy(r)
  {
    Or(Or(Get(Get(user, "user_metadata"), "full_name"), Get(user, "email")), Str("Please Sign In"))
  }

  datatype MenuItem = HistoryItem | UpgradePlan | Logout | SignIn

  /** Lines 176-199. */
  function MenuItems(user: Value): (items: seq<MenuItem>)
    ensures Truthy(user) ==> items == [HistoryItem, UpgradePlan, Logout]
    ensures !Truthy(user) ==> items == [SignIn]
  {
    if Truthy(user) then [HistoryItem, UpgradePlan, Logout] else [SignIn]
  }

  /** The route a menu item navigates to; Upgrade Plan opens the subscription modal instead. */
  function ItemTarget(item: MenuItem): Option<string> {
    match item
    case HistoryItem => Some("/history")
    case UpgradePlan => None
    case Logout => Some("/")
    case SignIn => Some("/auth/login")
  }

  /** Signed-out visitors can only sign in, and that leads to the login page. */
  lemma SignedOutMenu(user: Value)
    requires !Truthy(user)
    ensures forall i :: 0 <= i < |MenuItems(user)| ==> ItemTarget(MenuItems(user)[i]) == Some("/auth/login")
  {
  }

  class NavbarState {
    var isOpen: bool
    var isSubscriptionModalOpen: bool
    var user: Value
    var navigations: seq<string>

    constructor ()
      ensures !isOpen && !isSubscriptionModalOpen && user == Null && navigations == []
    {
      isOpen := false;
      isSubscriptionModalOpen := false;
      user := Null;
      navigations := [];
    }

    /** Lines 47-49. */
    method ToggleMenu()
      modifies this
      ensures isOpen == !old(isOpen)
      ensures isSubscriptionModalOpen == old(isSubscriptionModalOpen) && user == old(user)
      ensures navigations == old(navigations)
    {
      isOpen := !isOpen;
    }

    /** Lines 51-55: sign out (the auth call is outside the model), go home, close the menu. */
    method HandleLogout()
      modifies this
      ensures !isOpen && navigations == old(navigations) + ["/"]
      ensures isSubscriptionModalOpen == old(isSubscriptionModalOpen) && user == old(user)
    {
      navigations := navigations + ["/"];
      isOpen := false;
    }

    /** Lines 67-70. */
    method OpenSubscriptionModal()
      modifies this
      ensures !isOpen && isSubscriptionModalOpen
      ensures user == old(user) && navigations == old(navigations)
    {
      isOpen := false;
      isSubscriptionModalOpen := true;
    }

    /** Lines 72-74. */
    method CloseSubscriptionModal()
      modifies this
      ensures !isSubscriptionModalOpen
      ensures isOpen == old(isOpen) && user == old(user) && navigations == old(navigations)
    {
      isSubscriptionModalOpen := false;
    }

    /** Lines 57-65: navigate to the back target of the current path, if it has one. */
    method HandleBack(path: string)
      modifies this
      ensures BackTarget(path).Some? ==> navigations == old(navigations) + [BackTarget(path).value]
      ensures BackTarget(path).None? ==> navigations == old(navigations)
      ensures isOpen == old(isOpen) && isSubscriptionModalOpen == old(isSubscriptionModalOpen) && user == old(user)
    {
      if path == "/history" {
        navigations := navigations + ["/spider"];
      } else if path == "/terms-of-use" || path == "/privacy-policy" || path == "/responsible-ai" {
        navigations := navigations + ["/"];
      } else if IsInsightPath(path) {
        navigations := navigations + ["/history"];
      }
    }

    /** Lines 38-40: `setUser(session?.user ?? null)`. */
    method OnAuthStateChange(session: Value)
      modifies this
      ensures user == Coalesce(Get(session, "user"), Null)
      ensures isOpen == old(isOpen) && isSubscriptionModalOpen == old(isSubscriptionModalOpen)
      ensures navigations == old(navigations)
    {
      user := Coalesce(Get(session, "user"), Null);
    }

    /** Lines 31-34: `setUser(user)` with the user the auth service reports. */
    method SetUser(u: Value)
      modifies this
      ensures user == u
      ensures isOpen == old(isOpen) && isSubscriptionModalOpen == old(isSubscriptionModalOpen)
      ensures navigations == old(navigations)
    {
      user := u;
    }
  }
}
