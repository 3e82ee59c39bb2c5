/**
 * The records the view component builds before it updates its lists: the
 * product and check-in it stores after asking the API layer, the message
 * it appends, and the user it looks up. Both copies of App.js build them
 * the same way.
 */
module ClientSteps {
  import opened Wrappers
  import opened ClientModel
  import ClientLists
  import Text
  import Seqs

  /** The first user with the given id, as an array `find` returns it. */
  function FindUser(users: seq<ClientUser>, id: int): (r: Option<ClientUser>)
    ensures r.None? <==> forall i :: 0 <= i < |users| ==> users[i].id != id
    ensures r.Some? ==> r.value.id == id && exists i :: (0 <= i < |users| && users[i] == r.value &&
      forall j :: 0 <= j < i ==> users[j].id != id)
  {
    Seqs.FindFirst(users, (u: ClientUser) => u.id == id)
  }

  /**
   * The product addProduct stores for a complete draft: the draft's fields,
   * the vendor's name, category 'General' and a description naming the
   * vendor; its id and creation time are the server's, or the clock reading
   * when there is no backend. None when the API call threw.
   */
  function StoredProduct(draft: ProductDraft, vendor: string, reply: Reply<Stamp>, now: int): (r: Option<Product>)
    ensures r.None? <==> reply.Failed?
    ensures r.Some? ==>
      && r.value.name == draft.name && r.value.price == draft.price && r.value.image == draft.image
      && r.value.vendor == vendor && r.value.category == "General"
      && r.value.description == "Product from " + vendor
    ensures reply.Offline? ==> r.value.id == now && r.value.createdAt.None?
    ensures reply.Saved? ==> r.value.id == reply.value.id && r.value.createdAt == Some(reply.value.time)
  {
    match reply
    case Failed => None
    case Offline => Some(Product(now, draft.name, draft.price, draft.image, vendor, "General",
                                 "Product from " + vendor, None))
    case Saved(stamp) => Some(Product(stamp.id, draft.name, draft.price, draft.image, vendor, "General",
                                      "Product from " + vendor, Some(stamp.time)))
  }

  /**
   * The check-in handleCheckIn stores for `user` at `location`: the server's
   * id and timestamp, or the clock reading and the local time text when
   * there is no backend. None when the API call threw.
   */
  function StoredCheckin(user: ClientUser, location: string, reply: Reply<Stamp>, now: int, localTime: string)
    : (r: Option<Checkin>)
    ensures r.None? <==> reply.Failed?
    ensures r.Some? ==>
      r.value.passengerId == user.id && r.value.passengerName == user.username && r.value.location == location
    ensures reply.Offline? ==> r.value.id == now && r.value.timestamp == localTime
    ensures reply.Saved? ==> r.value.id == reply.value.id && r.value.timestamp == reply.value.time
  {
    match reply
    case Failed => None
    case Offline => Some(Checkin(now, user.id, user.username, location, localTime))
    case Saved(stamp) => Some(Checkin(stamp.id, user.id, user.username, location, stamp.time))
  }

  /** The message sendMessage appends: sent by 'user', under the sender's name, stamped with the clock. */
  function SentMessage(text: string, sender: ClientUser, now: int): (m: ChatMessage)
    ensures m.text == text && m.sender == "user" && m.senderName == sender.username
    ensures m.id == now && m.timestamp == now
  {
    ChatMessage(now, text, "user", sender.username, now)
  }

  /**
   * What handleCheckIn makes of the check-in list: None (nothing changes)
   * for a blank location or an API call that threw, otherwise the list
   * with the user's earlier check-ins dropped and the stored one last.
   */
  function CheckInOutcome(checkedIn: seq<Checkin>, user: ClientUser, location: string, reply: Reply<Stamp>,
                          now: int, localTime: string): (r: Option<seq<Checkin>>)
    ensures reply.Failed? ==> r.None?
  {
    var stored := StoredCheckin(user, location, reply, now, localTime);
    if Text.TrimsToEmpty(location) || stored.None? then None
    else Some(ClientLists.ReplaceCheckin(checkedIn, stored.value))
  }

  /**
   * handleCheckIn refuses a blank location and an API call that threw, and
   * otherwise replaces the user's check-ins with the stored one.
   */
  lemma CheckInOutcomeMeaning(checkedIn: seq<Checkin>, user: ClientUser, location: string, reply: Reply<Stamp>,
                              now: int, localTime: string)
    ensures var r := CheckInOutcome(checkedIn, user, location, reply, now, localTime);
      && (r.None? <==> Text.IsBlank(location) || reply.Failed?)
      && (r.Some? ==>
        r.value == ClientLists.ReplaceCheckin(checkedIn, StoredCheckin(user, location, reply, now, localTime).value))
  {
  }
}
