/** What a route handler sends back: a JSON body, or an error status with `{ error: message }`. */
module Http {
  datatype Response<+T> = Ok(body: T) | Error(status: nat, message: string)
}
