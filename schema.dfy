/** What Mongoose does when a document is inserted: schema validation (required fields, enums,
    minimums) and the unique indexes, and the errors it throws when either fails. */
module Schema {
  import opened Wrappers
  import opened Text
  import opened ErrorMiddleware

  /** One failed schema path. */
  datatype PathError =
    | Required(path: string)
    | NotInEnum(path: string, value: string)
    | BelowMin(path: string, amount: int, min: int)

  /** Mongoose's default message for a failed path. */
  function PathMessage(e: PathError): (m: string)
    ensures m != ""
  {
    match e
    case Required(p) => "Path `" + p + "` is required."
    case NotInEnum(p, v) => "`" + v + "` is not a valid enum value for path `" + p + "`."
    case BelowMin(p, v, min) =>
      "Path `" + p + "` (" + IntToString(v) + ") is less than minimum allowed value (" + IntToString(min) + ")."
  }

  datatype DbError =
      // a ValidationError listing the failed paths in schema order
    | ValidationFailed(model: string, failures: seq<PathError>)
      // a duplicate key error (code 11000) on a unique index
    | DuplicateKey(collection: string, field: string, value: string)

  /** A required string path: Mongoose rejects both a missing value and the empty string. */
  function RequiredString(path: string, v: string): seq<PathError>
  {
    if v == "" then [Required(path)] else []
  }

  /** A string path restricted to `allowed`. A missing value fails only a required path; the
      empty string fails the required check first and the enum check otherwise. */
  function EnumString(path: string, v: Option<string>, allowed: seq<string>, required: bool): seq<PathError>
  {
    if v.None? then (if required then [Required(path)] else [])
    else if required && v.value == "" then [Required(path)]
    else if v.value in allowed then []
    else [NotInEnum(path, v.value)]
  }

  function Messages(failures: seq<PathError>): (ms: seq<string>)
    ensures |ms| == |failures|
    ensures forall i :: 0 <= i < |ms| ==> ms[i] == PathMessage(failures[i])
  {
    seq(|failures|, i requires 0 <= i < |failures| => PathMessage(failures[i]))
  }

  function Described(failures: seq<PathError>): seq<string>
  {
    seq(|failures|, i requires 0 <= i < |failures| => failures[i].path + ": " + PathMessage(failures[i]))
  }

  /** The error object the store throws, as the error handler sees it. */
  function ToAppError(e: DbError): AppError
  {
    match e
    case ValidationFailed(model, failures) =>
      AppError("ValidationError", model + " validation failed: " + Join(Described(failures), ", "),
               None, None, None, "undefined", Some(Messages(failures)), None)
    case DuplicateKey(collection, field, value) =>
      AppError("MongoServerError",
               "E11000 duplicate key error collection: " + collection + " index: " + field
                 + "_1 dup key: { " + field + ": \"" + value + "\" }",
               None, Some(11000), Some([field]), "undefined", None, None)
  }

  lemma JoinNonEmpty(parts: seq<string>, sep: string)
    requires parts != [] && parts[0] != ""
    ensures Join(parts, sep) != ""
  {
    if |parts| > 1 {
      assert Join(parts, sep) == parts[0] + (sep + Join(parts[1..], sep));
    }
  }

  /** Every error the store throws on an insert or save is answered 400 by the error handler:
      a validation error with its field messages joined by ", ", a duplicate key with the
      offending field. */
  lemma StoreErrorsAre400(e: DbError, production: bool)
    requires e.ValidationFailed? ==> e.failures != []
    ensures Handle(ToAppError(e), production).Respond?
    ensures Handle(ToAppError(e), production).status == 400
    ensures e.ValidationFailed? ==>
      Handle(ToAppError(e), production).body.message == Join(Messages(e.failures), ", ")
    ensures e.DuplicateKey? ==>
      Handle(ToAppError(e), production).body.message == "Duplicate field value entered: " + e.field
  {
    if e.ValidationFailed? {
      JoinNonEmpty(Messages(e.failures), ", ");
    }
  }

  /** The message of every failed path appears among the error's messages. */
  lemma MessageOfMember(failures: seq<PathError>, f: PathError)
    requires f in failures
    ensures PathMessage(f) in Messages(failures)
  {
    var i :| 0 <= i < |failures| && failures[i] == f;
    assert Messages(failures)[i] == PathMessage(f);
  }

  /** A document missing a required path is answered 400, and the answer's error lists that
      path's message. */
  lemma MissingPathAnswered(e: DbError, path: string, production: bool)
    requires e.ValidationFailed? && Required(path) in e.failures
    ensures ToAppError(e).name == "ValidationError"
    ensures "Path `" + path + "` is required." in ToAppError(e).errors.value
    ensures Handle(ToAppError(e), production).Respond? && Handle(ToAppError(e), production).status == 400
  {
    MessageOfMember(e.failures, Required(path));
    StoreErrorsAre400(e, production);
  }
}
