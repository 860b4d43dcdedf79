/** The JSON envelope every controller answers with: `{ success, message, data }` or `{ success: false, message, errors }`. */
module Http {

  const StatusOk: nat := 200
  const StatusCreated: nat := 201
  const StatusBadRequest: nat := 400
  const StatusNotFound: nat := 404
  const StatusServerError: nat := 500

  /** `Done` carries `success: true` and `Refused` carries `success: false`; a `Done` reply without a message has `message == ""`. */
  datatype Reply<T> =
    | Done(status: nat, message: string, data: T)
    | Refused(status: nat, message: string, errors: seq<string>)
}
