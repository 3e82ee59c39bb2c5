/**
 * The stateless mock API in backend/server.js: each POST builds a record
 * from the request body with `||` defaults, each GET list answers `[]`.
 * The clock (`Date.now()`, `new Date().toISOString()`) is passed in.
 */
module MockServer {
  import opened Wrappers
  import opened Http
  import Text

  /** A scalar JSON value of the request body. */
  datatype Json = JNull | JBool(b: bool) | JNum(n: int) | JStr(s: string)

  /** `req.body`: a missing key reads as `undefined`. */
  type Body = map<string, Json>

  function Field(body: Body, key: string): (v: Option<Json>)
    ensures v.Some? <==> key in body
    ensures v.Some? ==> v.value == body[key]
  {
    if key in body then Some(body[key]) else None
  }

  /** JavaScript truthiness; `undefined` is falsy. */
  predicate Truthy(v: Option<Json>) {
    match v
    case None => false
    case Some(JNull) => false
    case Some(JBool(b)) => b
    case Some(JNum(n)) => n != 0
    case Some(JStr(s)) => s != ""
  }

  /** `v || fallback`. */
  function Or(v: Option<Json>, fallback: Json): (r: Json)
    ensures Truthy(v) ==> r == v.value
    ensures !Truthy(v) ==> r == fallback
  {
    if Truthy(v) then v.value else fallback
  }

  datatype Health = Health(status: string, message: string, timestamp: string)

  /** `GET /api/health`. */
  function HealthCheck(nowIso: string): (r: Health)
    ensures r.status == "OK" && r.timestamp == nowIso
  {
    Health("OK", "Backend is running perfectly!", nowIso)
  }

  datatype Notice = Notice(message: string, status: string)

  /** `GET /api/test`: a fixed success notice. */
  function ApiTest(): (r: Notice)
    ensures r.status == "success" && r.message == "API is working!"
  {
    Notice("API is working!", "success")
  }

  datatype Resource = Users | Products | Checkins | Messages(chatKey: string)

  /** Every GET list route answers `[]`: nothing is stored between requests. */
  function List(resource: Resource): (r: seq<Json>)
    ensures r == []
  {
    []
  }

  datatype MockUser = MockUser(id: int, username: Option<Json>, email: Option<Json>, role: Json,
                               online: bool, createdAt: string)

  /** `POST /api/users`. */
  function CreateUser(body: Body, now: int, nowIso: string): (u: MockUser)
    ensures u.role == (if Truthy(Field(body, "role")) then body["role"] else JStr("vendor"))
    ensures u.online && u.id == now && u.createdAt == nowIso
    ensures u.username == Field(body, "username") && u.email == Field(body, "email")
  {
    MockUser(now, Field(body, "username"), Field(body, "email"), Or(Field(body, "role"), JStr("vendor")),
             true, nowIso)
  }

  datatype MockLogin = MockLogin(id: int, username: string, email: string, role: string, online: bool)

  /** `email.split('@')[0]`: the part of the email before the first `@`. */
  function UsernameOf(email: string): (name: string)
    ensures name <= email && '@' !in name
    ensures |name| < |email| ==> email[|name|] == '@'
  {
    Text.SplitFirst(email, '@');
    Text.Split(email, '@')[0]
  }

  /**
   * `POST /api/users/login`: the username is derived from the email, the
   * role is always 'vendor'. A body whose email is not a string makes
   * `.split` throw, which the handler answers with 500.
   */
  function Login(body: Body, now: int): (r: Response<MockLogin>)
    ensures r.Ok? <==> Field(body, "email").Some? && Field(body, "email").value.JStr?
    ensures r.Ok? ==> var email := body["email"].s;
      r.body == MockLogin(now, UsernameOf(email), email, "vendor", true)
    ensures r.Error? ==> r.status == 500
  {
    match Field(body, "email")
    case Some(JStr(email)) => Ok(MockLogin(now, UsernameOf(email), email, "vendor", true))
    case None => Error(500, "Cannot read properties of undefined (reading 'split')")
    case Some(JNull) => Error(500, "Cannot read properties of null (reading 'split')")
    case Some(_) => Error(500, "req.body.email.split is not a function")
  }

  /** An email without `@` is its own username. */
  lemma UsernameWithoutAt(email: string)
    requires '@' !in email
    ensures UsernameOf(email) == email
  {
    Text.SplitNoSeparator(email, '@');
  }

  datatype MockProduct = MockProduct(id: int, name: Option<Json>, price: Option<Json>, image: Option<Json>,
                                     vendor: Option<Json>, category: Json, description: Json,
                                     createdAt: string)

  /** `POST /api/products`. */
  function CreateProduct(body: Body, now: int, nowIso: string): (p: MockProduct)
    ensures p.category == (if Truthy(Field(body, "category")) then body["category"] else JStr("General"))
    ensures p.description == (if Truthy(Field(body, "description")) then body["description"] else JStr(""))
    ensures p.name == Field(body, "name") && p.price == Field(body, "price")
    ensures p.image == Field(body, "image") && p.vendor == Field(body, "vendor")
    ensures p.id == now && p.createdAt == nowIso
  {
    MockProduct(now, Field(body, "name"), Field(body, "price"), Field(body, "image"), Field(body, "vendor"),
                Or(Field(body, "category"), JStr("General")), Or(Field(body, "description"), JStr("")), nowIso)
  }

  datatype MockCheckin = MockCheckin(id: int, passengerId: Option<Json>, passengerName: Option<Json>,
                                     location: Option<Json>, timestamp: string)

  /** `POST /api/checkins`: the fields are echoed, nothing is replaced or stored. */
  function CreateCheckin(body: Body, now: int, nowIso: string): (c: MockCheckin)
    ensures c.passengerId == Field(body, "passenger_id") && c.passengerName == Field(body, "passenger_name")
    ensures c.location == Field(body, "location")
    ensures c.id == now && c.timestamp == nowIso
  {
    MockCheckin(now, Field(body, "passenger_id"), Field(body, "passenger_name"), Field(body, "location"), nowIso)
  }

  datatype MockMessage = MockMessage(id: int, chatKey: Option<Json>, text: Option<Json>, sender: Option<Json>,
                                     senderName: Option<Json>, timestamp: string)

  /** `POST /api/messages`: the fields are echoed, nothing is stored. */
  function CreateMessage(body: Body, now: int, nowIso: string): (m: MockMessage)
    ensures m.chatKey == Field(body, "chat_key") && m.text == Field(body, "text")
    ensures m.sender == Field(body, "sender") && m.senderName == Field(body, "sender_name")
    ensures m.id == now && m.timestamp == nowIso
  {
    MockMessage(now, Field(body, "chat_key"), Field(body, "text"), Field(body, "sender"),
                Field(body, "sender_name"), nowIso)
  }
}
