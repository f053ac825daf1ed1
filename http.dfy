/** What a route handler answers: a JSON body with status 200, or an error status with its message. */
module Http {

  datatype Response<T> = Ok(body: T) | Error(status: nat, error: string)
}
