/**
 * The persistence layer seen from the handlers: document identifiers and the
 * exceptions that Mongoose, MongoDB or bcrypt can throw into a `.catch`.
 */
module Store {
  import opened Wrappers

  /** A document `_id`, in its string form (`String(objectId)`). */
  type Id = string

  /** MongoDB's error code for a unique-index violation. */
  const DUPLICATE_KEY: int := 11000

  /** The class of a thrown error, as far as the handlers' `instanceof` tests can see it. */
  datatype ThrownClass =
    | CastError          // mongoose.Error.CastError: an id that is not an ObjectId
    | MongooseValidation // mongoose.Error.ValidationError (its `name` is "ValidationError")
    | MongooseOther      // any other subclass of mongoose.Error
    | NotMongoose        // MongoServerError, bcrypt's errors, anything else

  /** A thrown error: its numeric `code` (if any) and its class. */
  datatype Thrown = Thrown(code: Option<int>, cls: ThrownClass)

  /** `error instanceof mongoose.Error.CastError` */
  predicate IsCastError(t: Thrown) { t.cls == CastError }

  /**
   * `error instanceof mongoose.Error.ValidationError`, and equally
   * `error instanceof mongoose.Error && error.name === "ValidationError"`.
   */
  predicate IsValidationError(t: Thrown) { t.cls == MongooseValidation }

  /** `error.code === 11000` */
  predicate IsDuplicateKey(t: Thrown) { t.code == Some(DUPLICATE_KEY) }

  /** What Mongoose throws when a document fails its schema validators. */
  const SCHEMA_REJECTED: Thrown := Thrown(None, MongooseValidation)

  /** What MongoDB throws when an insert collides with a unique index (`email` or `_id`). */
  const INDEX_COLLISION: Thrown := Thrown(Some(DUPLICATE_KEY), NotMongoose)

  /** What bcrypt throws when asked to hash `undefined`. */
  const HASH_REJECTED: Thrown := Thrown(None, NotMongoose)
}
