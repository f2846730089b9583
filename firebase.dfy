/** The Firebase services as the authentication core sees them: the
    identity the auth service reports, the errors its calls raise, and the
    Firestore collections the core reads and writes, each a map from
    document ID to a schemaless document. Calls that may fail are driven by
    fault parameters of their callers (`None` = the call succeeds). */
module Firebase {
  import opened JsText

  /** A field value of a stored document. */
  datatype Value =
    | Str(s: string)
    | Bool(b: bool)
    | Int(i: int)
    | Null
    | List(items: seq<Value>)

  /** JavaScript truthiness of a field value. */
  predicate IsTruthy(v: Value) {
    match v
    case Str(s) => s != ""
    case Bool(b) => b
    case Int(i) => i != 0
    case Null => false
    case List(_) => true
  }

  /** A document: field name to value. The profile records the core builds
      are plain JavaScript objects written as documents. */
  type Document = map<string, Value>

  /** The theme every newly created profile starts with. */
  const DefaultTheme := "Lake White"

  /** An error thrown by the auth service, the document store or the
      JavaScript runtime; `code` is `""` when the error has none (a
      `TypeError`, or an `Error` built from a message). */
  datatype FirebaseError = FirebaseError(code: string, message: string)

  /** An `Error` thrown with a message only. */
  function Thrown(message: string): FirebaseError {
    FirebaseError("", message)
  }

  /** The `TypeError` that `email.split('@')` raises when the identity has no
      email (`email` is `null`). */
  const NullEmailSplit := Thrown("Cannot read properties of null (reading 'split')")

  datatype Result<+T> = Ok(value: T) | Err(error: FirebaseError)

  /** The identity the auth service reports (`firebaseUser`); absent fields
      are `null`. */
  datatype AuthUser = AuthUser(
    uid: string,
    email: Option<string>,
    displayName: Option<string>,
    photoURL: Option<string>)

  /** `user.email.split('@')[0]`, or `None` when the email is `null` and the
      call throws `NullEmailSplit`. */
  function EmailLocalPart(u: AuthUser): (r: Option<string>)
    ensures r.Some? <==> u.email.Some?
    ensures r.Some? ==> '@' !in r.value && r.value <= u.email.value
  {
    if u.email.Some? then Some(BeforeFirst(u.email.value, '@')) else None
  }

  /** The `email` field a profile record copies from the identity. */
  function EmailValue(u: AuthUser): Value {
    if u.email.Some? then Str(u.email.value) else Null
  }

  /** The outcomes of the Firestore calls one profile fetch-or-create makes:
      the profile read, the profile write, and the lookup write (whose error
      is always swallowed). */
  datatype Faults = Faults(read: Option<FirebaseError>, write: Option<FirebaseError>, lookupWriteFails: bool)

  /** What a store-touching step returns, with the `AccountData` and
      `UserLookup` collections after it. */
  datatype Stored<+T> = Stored(result: Result<T>, accounts: map<string, Document>, lookup: map<string, Document>)

  /** The three collections the core touches. */
  class Database {
    /** `AccountData`: profile documents keyed by auth uid. */
    var accountData: map<string, Document>
    /** `UserLookup`: `{uid}` documents keyed by lower-cased username. */
    var userLookup: map<string, Document>
    /** `resetKeys`: `{uid, expires}` documents keyed by reset key. */
    var resetKeys: map<string, Document>

    constructor (accounts: map<string, Document>, lookup: map<string, Document>, keys: map<string, Document>)
      ensures accountData == accounts && userLookup == lookup && resetKeys == keys
    {
      accountData := accounts;
      userLookup := lookup;
      resetKeys := keys;
    }
  }
}
