/**
 * The list and map updates of the view component besides the cart: the
 * online flags of `allUsers`, the per-chat message map, the check-in list
 * and the two screen filters.
 */
module ClientLists {
  import opened ClientModel
  import Seqs

  /** handleLogout's update of `allUsers`: the entries with the user's id go offline, the rest stay. */
  function MarkOffline(users: seq<ClientUser>, id: int): (r: seq<ClientUser>)
    ensures |r| == |users|
    ensures forall i :: 0 <= i < |users| ==> r[i].id == users[i].id
    ensures forall i :: 0 <= i < |users| && users[i].id == id ==> r[i] == users[i].(online := false)
    ensures forall i :: 0 <= i < |users| && users[i].id != id ==> r[i] == users[i]
  {
    Seqs.MapWhere(users, (u: ClientUser) => u.id == id, (u: ClientUser) => u.(online := false))
  }

  predicate HasUser(users: seq<ClientUser>, id: int) {
    exists i :: 0 <= i < |users| && users[i].id == id
  }

  ghost predicate UniqueIds(users: seq<ClientUser>) {
    forall i, j :: 0 <= i < j < |users| ==> users[i].id != users[j].id
  }

  /** The root copy's handleLogin: mark a listed user online, or append the user as online. */
  function UpsertOnline(users: seq<ClientUser>, user: ClientUser): (r: seq<ClientUser>)
    ensures HasUser(users, user.id) ==>
      && |r| == |users|
      && (forall i :: 0 <= i < |users| && users[i].id == user.id ==> r[i] == users[i].(online := true))
      && (forall i :: 0 <= i < |users| && users[i].id != user.id ==> r[i] == users[i])
    ensures !HasUser(users, user.id) ==> r == users + [user.(online := true)]
  {
    if HasUser(users, user.id) then
      Seqs.MapWhere(users, (u: ClientUser) => u.id == user.id, (u: ClientUser) => u.(online := true))
    else users + [user.(online := true)]
  }

  /** With unique ids, after the upsert exactly one entry has the user's id, and it is online. */
  lemma UpsertLeavesOneOnlineEntry(users: seq<ClientUser>, user: ClientUser)
    requires UniqueIds(users)
    ensures UniqueIds(UpsertOnline(users, user))
    ensures HasUser(UpsertOnline(users, user), user.id)
    ensures var r := UpsertOnline(users, user);
      forall i :: 0 <= i < |r| && r[i].id == user.id ==> r[i].online
  {
    var r := UpsertOnline(users, user);
    if HasUser(users, user.id) {
      var k :| 0 <= k < |users| && users[k].id == user.id;
      assert r[k].id == user.id;
    } else {
      assert r[|users|].id == user.id;
    }
  }

  /** sendMessage's update of the chat map: the message goes at the end of its chat's history, which may be new. */
  function AppendMessage(chats: map<string, seq<ChatMessage>>, key: string, message: ChatMessage)
    : (r: map<string, seq<ChatMessage>>)
    ensures r.Keys == chats.Keys + {key}
    ensures r[key] == (if key in chats then chats[key] else []) + [message]
    ensures forall k :: k in chats && k != key ==> r[k] == chats[k]
  {
    chats[key := (if key in chats then chats[key] else []) + [message]]
  }

  /** The message map only grows: every chat's earlier history is a prefix of its new one. */
  lemma AppendOnly(chats: map<string, seq<ChatMessage>>, key: string, message: ChatMessage)
    ensures var r := AppendMessage(chats, key, message);
      forall k :: k in chats ==> k in r && chats[k] <= r[k] && |r[k]| == |chats[k]| + (if k == key then 1 else 0)
  {
  }

  function PassengerOf(c: Checkin): int { c.passengerId }

  /** handleCheckIn's update of the list: the passenger's earlier check-ins give way to the new one, placed last. */
  function ReplaceCheckin(checkedIn: seq<Checkin>, checkIn: Checkin): (r: seq<Checkin>)
    ensures |r| > 0 && r[|r| - 1] == checkIn
    ensures forall i :: 0 <= i < |r| && r[i].passengerId == checkIn.passengerId ==> i == |r| - 1
    ensures Seqs.SubsequenceOf(r[..|r| - 1], checkedIn)
    ensures forall c: Checkin :: c.passengerId != checkIn.passengerId ==> multiset(r)[c] == multiset(checkedIn)[c]
  {
    Seqs.ReplaceByKey(checkedIn, checkIn, PassengerOf)
  }

  /** UserSelectionScreen: the users of the target role other than oneself, in list order. */
  function ChatTargets(users: seq<ClientUser>, targetRole: string, me: int): (r: seq<ClientUser>)
    ensures Seqs.SubsequenceOf(r, users)
    ensures forall u :: u in r <==> u in users && u.role == targetRole && u.id != me
    ensures forall u :: multiset(r)[u] == if u.role == targetRole && u.id != me then multiset(users)[u] else 0
  {
    var keep := (u: ClientUser) => u.role == targetRole && u.id != me;
    Seqs.FilterCount(users, keep);
    Seqs.Filter(users, keep)
  }

  /** ProductsScreen: everything for 'All', otherwise the products of that category, in list order. */
  function InCategory(products: seq<Product>, category: string): (r: seq<Product>)
    ensures category == "All" ==> r == products
    ensures category != "All" ==>
      && Seqs.SubsequenceOf(r, products)
      && (forall p :: p in r <==> p in products && p.category == category)
      && (forall p :: multiset(r)[p] == if p.category == category then multiset(products)[p] else 0)
  {
    if category == "All" then products
    else
      var keep := (p: Product) => p.category == category;
      Seqs.FilterCount(products, keep);
      Seqs.Filter(products, keep)
  }
}
