/**
 * The view component of src/App.js, the earlier copy: it has no welcome
 * screen, logs in locally with a name, a password and a role, and keeps
 * `allUsers` itself, so that list's ids stay unique. Handlers replace
 * fields with values the pure functions of Cart, ClientLists and
 * ClientSteps compute; API answers, the clock and prompts are parameters.
 */
module RootApp {
  import opened Wrappers
  import opened ClientModel
  import Cart
  import ClientLists
  import ClientSteps
  import Forms
  import Text
  import Views

  class App {
    var currentView: string
    var user: Option<ClientUser>
    var allUsers: seq<ClientUser>
    var products: seq<Product>
    var vendorProducts: seq<Product>
    var chatMessages: map<string, seq<ChatMessage>>
    var newProduct: ProductDraft
    var cart: seq<CartItem>
    var checkInLocation: string
    var selectedChatUser: Option<ClientUser>
    var checkedInPassengers: seq<Checkin>

    /**
     * The cart never holds two items for one product, nor an item with
     * quantity below 1, and no two entries of `allUsers` share an id.
     */
    ghost predicate Valid()
      reads this
    {
      Cart.WellFormed(cart) && ClientLists.UniqueIds(allUsers)
    }

    /** The screen the component renders now. */
    function Screen(): Views.Screen
      reads this
    {
      Views.RootScreen(currentView, user)
    }

    /** The initial state: the login form, nobody logged in, everything empty. */
    constructor ()
      ensures Valid()
      ensures currentView == "auth" && user.None? && Screen() == Views.Auth
      ensures allUsers == [] && products == [] && vendorProducts == [] && chatMessages == map[]
      ensures newProduct == EmptyDraft && cart == [] && checkInLocation == ""
      ensures selectedChatUser.None? && checkedInPassengers == []
    {
      currentView := "auth";
      user := None;
      allUsers := [];
      products := [];
      vendorProducts := [];
      chatMessages := map[];
      newProduct := EmptyDraft;
      cart := [];
      checkInLocation := "";
      selectedChatUser := None;
      checkedInPassengers := [];
    }

    /** A button that only switches the screen. */
    method Navigate(view: string)
      modifies this`currentView
      ensures currentView == view
    {
      currentView := view;
    }

    /** The check-in location input. */
    method TypeLocation(text: string)
      modifies this`checkInLocation
      ensures checkInLocation == text
    {
      checkInLocation := text;
    }

    /** The new-product form inputs (the image arrives as a data URL). */
    method EditDraft(draft: ProductDraft)
      modifies this`newProduct
      ensures newProduct == draft
    {
      newProduct := draft;
    }

    /**
     * Logging out marks the user's entries in `allUsers` offline, forgets
     * the user and returns to the login form.
     */
    method Logout()
      requires Valid() && user.Some?
      modifies this`allUsers, this`user, this`currentView
      ensures Valid()
      ensures allUsers == ClientLists.MarkOffline(old(allUsers), old(user).value.id)
      ensures user.None? && currentView == "auth" && Screen() == Views.Auth
    {
      allUsers := ClientLists.MarkOffline(allUsers, user.value.id);
      user := None;
      currentView := "auth";
    }

    /**
     * handleAuth followed by handleLogin. An empty name, password or role is
     * refused with an alert and changes nothing. Otherwise the user gets the
     * clock reading as id, or the id the backend gave (`reply`; an answer
     * carrying an error field keeps the clock id, as Offline does), is
     * logged in, marked online in `allUsers` (added if not listed) and sees
     * the dashboard. A create call that threw changes nothing.
     */
    method SubmitAuth(username: string, password: string, role: string, reply: Reply<int>, now: int)
      requires Valid()
      modifies this`user, this`allUsers, this`currentView
      ensures Valid()
      ensures Forms.RootAuthCheck(username, password, role).Reject? || reply.Failed? ==>
        user == old(user) && allUsers == old(allUsers) && currentView == old(currentView)
      ensures Forms.RootAuthCheck(username, password, role) == Forms.Accept && !reply.Failed? ==>
        var u := ClientUser(if reply.Saved? then reply.value else now, username, "", role, false);
        && user == Some(u)
        && allUsers == ClientLists.UpsertOnline(old(allUsers), u)
        && currentView == "dashboard"
        && Screen() == Views.Dashboard(role, Views.Auth)
    {
      if Forms.RootAuthCheck(username, password, role) == Forms.Accept && !reply.Failed? {
        var u := ClientUser(if reply.Saved? then reply.value else now, username, "", role, false);
        ClientLists.UpsertLeavesOneOnlineEntry(allUsers, u);
        user := Some(u);
        allUsers := ClientLists.UpsertOnline(allUsers, u);
        currentView := "dashboard";
        Views.DashboardTag(u);
      }
    }

    /**
     * addProduct: an incomplete draft, or an API call that threw, changes
     * nothing; otherwise the stored product is appended to both product
     * lists and the form is cleared.
     */
    method AddProduct(reply: Reply<Stamp>, now: int)
      requires user.Some?
      modifies this`products, this`vendorProducts, this`newProduct
      ensures Forms.DraftCheck(old(newProduct)).Reject? || reply.Failed? ==>
        products == old(products) && vendorProducts == old(vendorProducts) && newProduct == old(newProduct)
      ensures Forms.DraftCheck(old(newProduct)) == Forms.Accept && !reply.Failed? ==>
        var p := ClientSteps.StoredProduct(old(newProduct), user.value.username, reply, now).value;
        && products == old(products) + [p] && vendorProducts == old(vendorProducts) + [p]
        && p.category == "General" && p.vendor == user.value.username
        && newProduct == EmptyDraft
    {
      if Forms.DraftCheck(newProduct) == Forms.Accept {
        var stored := ClientSteps.StoredProduct(newProduct, user.value.username, reply, now);
        if stored.Some? {
          vendorProducts := vendorProducts + [stored.value];
          products := products + [stored.value];
          newProduct := EmptyDraft;
        }
      }
    }

    method AddToCart(p: Product)
      requires Valid()
      modifies this`cart
      ensures Valid() && cart == Cart.AddToCart(old(cart), p)
    {
      cart := Cart.AddToCart(cart, p);
    }

    method RemoveFromCart(productId: int)
      requires Valid()
      modifies this`cart
      ensures Valid() && cart == Cart.RemoveFromCart(old(cart), productId)
    {
      cart := Cart.RemoveFromCart(cart, productId);
    }

    method UpdateQuantity(productId: int, quantity: int)
      requires Valid()
      modifies this`cart
      ensures Valid() && cart == Cart.UpdateQuantity(old(cart), productId, quantity)
    {
      cart := Cart.UpdateQuantity(cart, productId, quantity);
    }

    /**
     * handleCheckout with the prompt's answer (None when cancelled), under
     * the intended payment check of Forms.PaymentAccepted: an empty cart or
     * an answer other than '1', '2' or '3' changes nothing; a valid answer
     * empties the cart and returns to the dashboard.
     */
    method Checkout(answer: Option<string>)
      requires Valid()
      modifies this`cart, this`currentView
      ensures Valid()
      ensures old(cart) == [] || !Forms.PaymentAccepted(answer) ==>
        cart == old(cart) && currentView == old(currentView)
      ensures old(cart) != [] && Forms.PaymentAccepted(answer) ==> cart == [] && currentView == "dashboard"
    {
      if cart != [] && Forms.PaymentAccepted(answer) {
        cart := [];
        currentView := "dashboard";
      }
    }

    /**
     * sendMessage for the logged-in sender: blank text changes nothing, and
     * so does a save call that threw; otherwise the message is appended to
     * its chat's history. `save` is what storing the message came to.
     */
    method SendMessage(chatKey: string, text: string, save: Reply<()>, now: int)
      requires user.Some?
      modifies this`chatMessages
      ensures Text.IsBlank(text) || save.Failed? ==> chatMessages == old(chatMessages)
      ensures !Text.IsBlank(text) && !save.Failed? ==>
        chatMessages == ClientLists.AppendMessage(old(chatMessages), chatKey,
                                                  ClientSteps.SentMessage(text, user.value, now))
    {
      if !Text.TrimsToEmpty(text) && !save.Failed? {
        chatMessages := ClientLists.AppendMessage(chatMessages, chatKey, ClientSteps.SentMessage(text, user.value, now));
      }
    }

    /**
     * handleCheckIn: a blank location, or an API call that threw, changes
     * nothing; otherwise the user's earlier check-ins give way to the new
     * one, which goes last, and the location input is cleared.
     */
    method CheckIn(reply: Reply<Stamp>, now: int, localTime: string)
      requires user.Some?
      modifies this`checkedInPassengers, this`checkInLocation
      ensures var outcome := ClientSteps.CheckInOutcome(old(checkedInPassengers), user.value,
                                                        old(checkInLocation), reply, now, localTime);
        && (outcome.None? ==> checkedInPassengers == old(checkedInPassengers) && checkInLocation == old(checkInLocation))
        && (outcome.Some? ==> checkedInPassengers == outcome.value && checkInLocation == "")
    {
      var outcome := ClientSteps.CheckInOutcome(checkedInPassengers, user.value, checkInLocation, reply, now, localTime);
      if outcome.Some? {
        checkedInPassengers := outcome.value;
        checkInLocation := "";
      }
    }

    /** UserSelectionScreen: picking a user opens the chat screen for the target role. */
    method SelectChatUser(selected: ClientUser, targetRole: string)
      modifies this`selectedChatUser, this`currentView
      ensures selectedChatUser == Some(selected) && currentView == Views.ChatPrefix + targetRole
      ensures user.Some? ==> Screen() == Views.Chat(Text.Split(targetRole, '-')[0])
    {
      selectedChatUser := Some(selected);
      currentView := Views.ChatPrefix + targetRole;
      if user.Some? {
        Views.ChatTagRoundTrip(targetRole, user.value);
      }
    }

    /**
     * CheckedInPassengersScreen: chatting with a check-in opens the passenger
     * chat with the user of that id, and does nothing when no user has it.
     */
    method ChatWithPassenger(passenger: Checkin)
      modifies this`selectedChatUser, this`currentView
      ensures ClientSteps.FindUser(allUsers, passenger.passengerId).None? ==>
        selectedChatUser == old(selectedChatUser) && currentView == old(currentView)
      ensures ClientSteps.FindUser(allUsers, passenger.passengerId).Some? ==>
        && selectedChatUser == ClientSteps.FindUser(allUsers, passenger.passengerId)
        && currentView == "chat-passenger"
    {
      var found := ClientSteps.FindUser(allUsers, passenger.passengerId);
      if found.Some? {
        selectedChatUser := found;
        currentView := "chat-passenger";
      }
    }
  }
}
