/** Vocabulary shared by every route: identifiers, optional request fields and
    the three outcomes a route can answer with. */
module Common {

  /** Document identifiers (Mongo ObjectIds) and user identifiers. */
  type Id = nat
  type UserId = nat

  /** A request-body field that may be absent. */
  datatype Option<T> = None | Some(value: T)

  /** The `active|inactive` status of a category, payment method or amount type. */
  datatype Status = Active | Inactive

  /** Why a route answered with a validation error (HTTP 400). */
  datatype Reason =
    | AmountRequired          // missing or non-positive amount on a create
    | AmountNotPositive       // a supplied amount <= 0 on an update
    | CategoryRequired
    | PaymentMethodRequired
    | AmountTypeRequired
    | InactiveCategory        // absent or not `active`
    | InactivePaymentMethod
    | InactiveAmountType
    | NameRequired            // missing or whitespace-only name
    | NameTooShort            // untrimmed length below 2
    | NameTaken
    | BadStatus               // status outside `active|inactive`
    | BalanceRequired         // undefined or null balance
    | BalanceNotNumber
    | BadTransactionType      // type outside the four transaction types
    | TypeMismatch            // transaction type not allowed for the account kind
    | SchemaViolation         // a validation error raised by the schema on save

  /** The answer of a route: success with a value, a validation error, or not found (404). */
  datatype Outcome<T> = Ok(value: T) | Invalid(reason: Reason) | NotFound

  /** A JSON body field read by the balance routes: undefined, null, a number, or any other JSON value. */
  datatype Json = Missing | Null | Num(n: int) | NonNumber
}
