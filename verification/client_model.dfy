/**
 * The records the view component (both copies of App.js) keeps in its
 * state, and the outcome of a call into the client API layer.
 */
module ClientModel {
  import opened Wrappers

  /**
   * An entry of `allUsers` or the logged-in `user`. The root copy's users
   * carry no email (the empty string here) and no online flag until they
   * are listed (false here, as `undefined` is falsy).
   */
  datatype ClientUser = ClientUser(id: int, username: string, email: string, role: string, online: bool)

  /** A product; `createdAt` is absent when it was created offline. The price stays text. */
  datatype Product = Product(id: int, name: string, price: string, image: string, vendor: string,
                             category: string, description: string, createdAt: Option<string>)

  /** A cart entry: the product's fields plus a quantity. */
  datatype CartItem = CartItem(product: Product, quantity: int)

  /** An entry of `checkedInPassengers`. */
  datatype Checkin = Checkin(id: int, passengerId: int, passengerName: string, location: string,
                             timestamp: string)

  /** An entry of `chatMessages[chatKey]`; the timestamp is the clock reading passed in. */
  datatype ChatMessage = ChatMessage(id: int, text: string, sender: string, senderName: string,
                                     timestamp: int)

  /** The new-product form: `{ name, price, image }`; an image not chosen yet is "". */
  datatype ProductDraft = ProductDraft(name: string, price: string, image: string)

  /** The cleared form. */
  const EmptyDraft := ProductDraft("", "", "")

  /**
   * What a call into the API layer came to: not made because the backend
   * is unreachable (`dbConnected` false), answered with a value, or thrown.
   */
  datatype Reply<T> = Offline | Saved(value: T) | Failed

  /** The id and creation time the server gives a stored product or check-in. */
  datatype Stamp = Stamp(id: int, time: string)
}
