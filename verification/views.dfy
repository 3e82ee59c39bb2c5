/**
 * The main render dispatch of both copies of App.js: the `currentView`
 * string tag and the logged-in user select the screen.
 */
module Views {
  import opened Wrappers
  import opened ClientModel
  import Text

  datatype Screen =
    | Welcome | Auth | Products | CartScreen | CheckedInPassengers
    | UserSelection(targetRole: string) | Chat(chatType: string)
    | DriverDashboard | PassengerDashboard | VendorDashboard

  const SelectionPrefix := "user-selection-"
  const ChatPrefix := "chat-"

  /** `view.split('-')[k]`; the callers only ask for a piece that exists. */
  function Piece(view: string, k: nat): string {
    var parts := Text.Split(view, '-');
    if k < |parts| then parts[k] else ""
  }

  /** The role switch: each of the three roles has its own dashboard; an unknown role shows `fallback`. */
  function Dashboard(role: string, fallback: Screen): (s: Screen)
    ensures role == "driver" ==> s == DriverDashboard
    ensures role == "passenger" ==> s == PassengerDashboard
    ensures role == "vendor" ==> s == VendorDashboard
    ensures role !in {"driver", "passenger", "vendor"} ==> s == fallback
  {
    if role == "driver" then DriverDashboard
    else if role == "passenger" then PassengerDashboard
    else if role == "vendor" then VendorDashboard
    else fallback
  }

  /** The dispatch of frontend/src/App.js. */
  function FrontendScreen(view: string, user: Option<ClientUser>): (s: Screen)
    ensures view == "welcome" ==> s == Welcome
    ensures view != "welcome" && s != Welcome ==> s == RootScreen(view, user)
  {
    if view == "welcome" then Welcome
    else if view == "auth" || user.None? then Auth
    else if view == "products" then Products
    else if view == "cart" then CartScreen
    else if view == "checked-in-passengers" then CheckedInPassengers
    else if SelectionPrefix <= view then UserSelection(Piece(view, 2))
    else if ChatPrefix <= view then Chat(Piece(view, 1))
    else Dashboard(user.value.role, Welcome)
  }

  /** The dispatch of src/App.js: no welcome screen, an unknown role shows the login form. */
  function RootScreen(view: string, user: Option<ClientUser>): (s: Screen)
    ensures s != Welcome
    ensures user.None? ==> s == Auth
  {
    if view == "auth" || user.None? then Auth
    else if view == "products" then Products
    else if view == "cart" then CartScreen
    else if view == "checked-in-passengers" then CheckedInPassengers
    else if SelectionPrefix <= view then UserSelection(Piece(view, 2))
    else if ChatPrefix <= view then Chat(Piece(view, 1))
    else Dashboard(user.value.role, Auth)
  }

  /** A view tag the dispatch recognises before falling through to the role switch. */
  predicate NamedView(view: string) {
    view in {"welcome", "auth", "products", "cart", "checked-in-passengers"} ||
    SelectionPrefix <= view || ChatPrefix <= view
  }

  /** `'user-selection-' + role` splits as 'user', 'selection', then the pieces of `role`. */
  lemma SelectionPieces(rest: string)
    ensures Text.Split(SelectionPrefix + rest, '-') == ["user", "selection"] + Text.Split(rest, '-')
  {
    var user, selection := "user", "selection";
    assert '-' !in user && '-' !in selection;
    assert SelectionPrefix == user + ['-'] + selection + ['-'];
    TwoHeads(user, selection, rest, '-');
  }

  lemma TwoHeads(a: string, b: string, rest: string, sep: char)
    requires sep !in a && sep !in b
    ensures Text.Split(a + [sep] + b + [sep] + rest, sep) == [a, b] + Text.Split(rest, sep)
  {
    var tail := b + [sep] + rest;
    Text.SplitAfterHead(b, rest, sep);
    Text.SplitAfterHead(a, tail, sep);
    assert a + [sep] + b + [sep] + rest == a + [sep] + tail;
  }

  /** `'chat-' + type` splits as 'chat', then the pieces of `type`. */
  lemma ChatPieces(rest: string)
    ensures Text.Split(ChatPrefix + rest, '-') == ["chat"] + Text.Split(rest, '-')
  {
    var chat := "chat";
    assert '-' !in chat;
    Text.SplitAfterHead(chat, rest, '-');
    assert chat + ['-'] + rest == ChatPrefix + rest;
  }

  /**
   * For a logged-in user, 'user-selection-R' opens the selection screen in
   * both copies, for the first '-'-separated piece of R as target role; when
   * R contains no '-' that is R itself.
   */
  lemma SelectionTagRoundTrip(rest: string, user: ClientUser)
    ensures FrontendScreen(SelectionPrefix + rest, Some(user)) == UserSelection(Text.Split(rest, '-')[0])
    ensures RootScreen(SelectionPrefix + rest, Some(user)) == UserSelection(Text.Split(rest, '-')[0])
    ensures '-' !in rest ==> FrontendScreen(SelectionPrefix + rest, Some(user)) == UserSelection(rest)
    ensures '-' !in rest ==> RootScreen(SelectionPrefix + rest, Some(user)) == UserSelection(rest)
  {
    var view := SelectionPrefix + rest;
    assert view[..|SelectionPrefix|] == SelectionPrefix;
    assert view[0] == 'u';
    assert SelectionPrefix <= view;
    assert view !in {"welcome", "auth", "products", "cart", "checked-in-passengers"};
    assert FrontendScreen(view, Some(user)) == UserSelection(Piece(view, 2));
    assert RootScreen(view, Some(user)) == UserSelection(Piece(view, 2));
    SelectionPieces(rest);
    var parts := Text.Split(view, '-');
    assert parts == ["user", "selection"] + Text.Split(rest, '-');
    assert parts[2] == Text.Split(rest, '-')[0];
    if '-' !in rest {
      Text.SplitNoSeparator(rest, '-');
    }
  }

  /** Likewise 'chat-T' opens the chat screen for the first piece of T, which is T when T has no '-'. */
  lemma ChatTagRoundTrip(rest: string, user: ClientUser)
    ensures FrontendScreen(ChatPrefix + rest, Some(user)) == Chat(Text.Split(rest, '-')[0])
    ensures RootScreen(ChatPrefix + rest, Some(user)) == Chat(Text.Split(rest, '-')[0])
    ensures '-' !in rest ==> FrontendScreen(ChatPrefix + rest, Some(user)) == Chat(rest)
    ensures '-' !in rest ==> RootScreen(ChatPrefix + rest, Some(user)) == Chat(rest)
  {
    var view := ChatPrefix + rest;
    ChatTagDispatch(view, user);
    ChatPieces(rest);
    assert Piece(view, 1) == Text.Split(rest, '-')[0];
    if '-' !in rest {
      Text.SplitNoSeparator(rest, '-');
    }
  }

  /** A tag starting with 'chat-' reaches the chat branch of both dispatches. */
  lemma ChatTagDispatch(view: string, user: ClientUser)
    requires ChatPrefix <= view
    ensures FrontendScreen(view, Some(user)) == Chat(Piece(view, 1))
    ensures RootScreen(view, Some(user)) == Chat(Piece(view, 1))
  {
    assert view[0] == ChatPrefix[0] && view[1] == ChatPrefix[1] && view[2] == ChatPrefix[2];
    assert view != "checked-in-passengers" by { assert view[2] != "checked-in-passengers"[2]; }
    assert view != "cart" by { assert view[1] != "cart"[1]; }
    assert !(SelectionPrefix <= view) by { assert view[0] != SelectionPrefix[0]; }
  }


  /** The 'dashboard' tag a successful login sets shows the user's role dashboard. */
  lemma DashboardTag(user: ClientUser)
    ensures FrontendScreen("dashboard", Some(user)) == Dashboard(user.role, Welcome)
    ensures RootScreen("dashboard", Some(user)) == Dashboard(user.role, Auth)
  {
    var view := "dashboard";
    assert view[0] == 'd';
    assert !(SelectionPrefix <= view) && !(ChatPrefix <= view);
  }

  /** With a user logged in, the four fixed tags show their own screens in both copies. */
  lemma NamedTags(u: ClientUser)
    ensures FrontendScreen("auth", Some(u)) == Auth && RootScreen("auth", Some(u)) == Auth
    ensures FrontendScreen("products", Some(u)) == Products && RootScreen("products", Some(u)) == Products
    ensures FrontendScreen("cart", Some(u)) == CartScreen && RootScreen("cart", Some(u)) == CartScreen
    ensures FrontendScreen("checked-in-passengers", Some(u)) == CheckedInPassengers
    ensures RootScreen("checked-in-passengers", Some(u)) == CheckedInPassengers
  {
  }

  /** Without a user every view but 'welcome' shows the login form; the root copy has no exception. */
  lemma NoUserShowsAuth(view: string)
    ensures view != "welcome" ==> FrontendScreen(view, None) == Auth
    ensures RootScreen(view, None) == Auth
  {
  }

  /** A view outside the named ones shows the user's dashboard, or the fallback screen for an unknown role. */
  lemma UnnamedViewShowsDashboard(view: string, user: ClientUser)
    requires !NamedView(view)
    ensures FrontendScreen(view, Some(user)) == Dashboard(user.role, Welcome)
    ensures RootScreen(view, Some(user)) == Dashboard(user.role, Auth)
    ensures user.role !in {"driver", "passenger", "vendor"} ==>
      FrontendScreen(view, Some(user)) == Welcome && RootScreen(view, Some(user)) == Auth
  {
  }
}
