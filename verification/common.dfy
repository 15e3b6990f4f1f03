/** Small shared vocabulary: optional values and the exceptions the saves raise. */
module Common {

  datatype Option<+T> = None | Some(value: T)

  /** The exceptions (or HTTP error responses) an operation of the model ends with. */
  datatype Error =
    | ValidationError    // django.core.exceptions.ValidationError raised by full_clean
    | ExpressionRefused  // full_clean met an unevaluated F() value and raised; its exception class is framework behaviour
    | IntegrityError     // a unique constraint rejected the row at the database
    | PermissionDenied   // django.core.exceptions.PermissionDenied raised by a view
    | NotFound           // the object is outside the caller's queryset (HTTP 404)
    | BadRequest         // the serializer rejected the submitted data (HTTP 400)
    | NoManagedBranch    // `user.managed_branch` raised: the caller manages no branch

  datatype Result<+T> = Ok(value: T) | Err(error: Error)
}
