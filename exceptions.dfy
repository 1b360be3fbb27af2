/** The service's closed exception hierarchy (exceptions.py) and the Python
    exceptions the rest of the model raises.

    Each class is one constructor of `ExceptionClass`; `Parent` gives its
    base class, so `isinstance` is a walk up the parent links. An
    exception value carries its class and its `info` dict. */
module Exceptions {
  import opened Json
  import opened Wrappers

  const DeveloperMessageKey := "developer_message"
  const UserMessageKey := "user_message"
  const MoreInfoKey := "more_info"
  const ContextKey := "context"

  datatype ExceptionClass =
    | InfoException
    | GeneralInfoException
    | BadRequestBase
    | BadRequest
    | InvalidArgument
    | MissingArgumentValue
    | InvalidArgumentValue
    | ForbiddenBase
    | Forbidden
    | UnauthorizedBase
    | Unauthorized
    | UnauthorizedRead
    | UnauthorizedWrite
    | UnauthorizedExecute
    | NotFoundBase
    | NotFound
    | MethodNotAllowedBase
    | MethodNotAllowed
    | PermanentServiceError
    | TemporaryServiceError
    | CouldNotConnectToDatabase
    | DatabaseOperationError
    | ExternalProviderUnavailablePermanently
    | ExternalProviderUnavailableTemporarily
    | ExternalProviderBadResponse

  /** Distance from the root `InfoException`. */
  function Depth(c: ExceptionClass): nat {
    match c
    case InfoException => 0
    case GeneralInfoException => 1
    case BadRequestBase => 1
    case ForbiddenBase => 1
    case UnauthorizedBase => 1
    case NotFoundBase => 1
    case MethodNotAllowedBase => 1
    case PermanentServiceError => 1
    case TemporaryServiceError => 1
    case _ => 2
  }

  /** The base class each class is declared with; the root's base
      (Python's `Exception`) lies outside the taxonomy. */
  function Parent(c: ExceptionClass): (p: Option<ExceptionClass>)
    ensures p.Some? ==> Depth(p.value) < Depth(c)
    ensures p.None? <==> c == InfoException
    ensures Depth(c) == 1 ==> p == Some(InfoException)
    ensures Depth(c) == 2 ==> p.Some? && Depth(p.value) == 1
  {
    match c
    case InfoException => None
    case GeneralInfoException => Some(InfoException)
    case BadRequestBase => Some(InfoException)
    case BadRequest => Some(BadRequestBase)
    case InvalidArgument => Some(BadRequestBase)
    case MissingArgumentValue => Some(BadRequestBase)
    case InvalidArgumentValue => Some(BadRequestBase)
    case ForbiddenBase => Some(InfoException)
    case Forbidden => Some(ForbiddenBase)
    case UnauthorizedBase => Some(InfoException)
    case Unauthorized => Some(UnauthorizedBase)
    case UnauthorizedRead => Some(UnauthorizedBase)
    case UnauthorizedWrite => Some(UnauthorizedBase)
    case UnauthorizedExecute => Some(UnauthorizedBase)
    case NotFoundBase => Some(InfoException)
    case NotFound => Some(NotFoundBase)
    case MethodNotAllowedBase => Some(InfoException)
    case MethodNotAllowed => Some(MethodNotAllowedBase)
    case PermanentServiceError => Some(InfoException)
    case TemporaryServiceError => Some(InfoException)
    case CouldNotConnectToDatabase => Some(TemporaryServiceError)
    case DatabaseOperationError => Some(TemporaryServiceError)
    case ExternalProviderUnavailablePermanently => Some(PermanentServiceError)
    case ExternalProviderUnavailableTemporarily => Some(TemporaryServiceError)
    case ExternalProviderBadResponse => Some(PermanentServiceError)
  }

  /** `issubclass(c, base)` */
  predicate IsSubclass(c: ExceptionClass, base: ExceptionClass)
    decreases Depth(c)
  {
    c == base || (Parent(c).Some? && IsSubclass(Parent(c).value, base))
  }

  /** The seven family bases: the classes one below the root except
      `GeneralInfoException` (`BadRequestBase`, `UnauthorizedBase`,
      `ForbiddenBase`, `NotFoundBase`, `PermanentServiceError`,
      `TemporaryServiceError` and `MethodNotAllowedBase`). */
  predicate IsFamilyBase(c: ExceptionClass) {
    Depth(c) == 1 && c != GeneralInfoException
  }

  /** Classes whose constructor takes a `context`; the others are bases that
      take a ready `info` dict ("do not use directly"). */
  predicate IsConcrete(c: ExceptionClass) {
    Depth(c) == 2 || c == GeneralInfoException
  }

  /** The family of each concrete class, as a table independent of the
      parent links. */
  function FamilyTable(c: ExceptionClass): Option<ExceptionClass> {
    match c
    case BadRequest => Some(BadRequestBase)
    case InvalidArgument => Some(BadRequestBase)
    case MissingArgumentValue => Some(BadRequestBase)
    case InvalidArgumentValue => Some(BadRequestBase)
    case Forbidden => Some(ForbiddenBase)
    case Unauthorized => Some(UnauthorizedBase)
    case UnauthorizedRead => Some(UnauthorizedBase)
    case UnauthorizedWrite => Some(UnauthorizedBase)
    case UnauthorizedExecute => Some(UnauthorizedBase)
    case NotFound => Some(NotFoundBase)
    case MethodNotAllowed => Some(MethodNotAllowedBase)
    case ExternalProviderUnavailablePermanently => Some(PermanentServiceError)
    case ExternalProviderBadResponse => Some(PermanentServiceError)
    case CouldNotConnectToDatabase => Some(TemporaryServiceError)
    case DatabaseOperationError => Some(TemporaryServiceError)
    case ExternalProviderUnavailableTemporarily => Some(TemporaryServiceError)
    case _ => None
  }

  /** Every concrete class is a subclass of exactly the family base the
      table gives it and of no other; `GeneralInfoException` is in no
      family, only under the root. Hence the families are disjoint. */
  lemma FamilyMembership(c: ExceptionClass, base: ExceptionClass)
    requires IsConcrete(c) && IsFamilyBase(base)
    ensures IsSubclass(c, base) <==> FamilyTable(c) == Some(base)
    ensures IsSubclass(c, InfoException)
  {
    Superclasses(c);
    if c != GeneralInfoException {
      ParentIsFamily(c);
    }
  }

  /** The superclasses of a class: itself, its parent (for a class two
      below the root) and the root. */
  lemma Superclasses(c: ExceptionClass)
    ensures Depth(c) == 2 ==> forall b :: IsSubclass(c, b) <==> b == c || Parent(c) == Some(b) || b == InfoException
    ensures Depth(c) == 1 ==> forall b :: IsSubclass(c, b) <==> b == c || b == InfoException
  {
    if Depth(c) == 2 {
      var p := Parent(c).value;
      forall b ensures IsSubclass(c, b) <==> b == c || p == b || b == InfoException {
        DepthOneSubclass(p, b);
      }
    } else if Depth(c) == 1 {
      forall b ensures IsSubclass(c, b) <==> c == b || b == InfoException {
        DepthOneSubclass(c, b);
      }
    }
  }

  /** A class one below the root is a subclass only of itself and the
      root. */
  lemma DepthOneSubclass(p: ExceptionClass, base: ExceptionClass)
    requires Depth(p) == 1
    ensures IsSubclass(p, base) <==> p == base || base == InfoException
  {
    assert Parent(p) == Some(InfoException);
    assert IsSubclass(InfoException, base) <==> base == InfoException;
  }

  /** The family table of a class two below the root is its parent link. */
  lemma ParentIsFamily(c: ExceptionClass)
    requires Depth(c) == 2
    ensures Parent(c).Some? && FamilyTable(c) == Parent(c) && IsFamilyBase(Parent(c).value)
  {
  }

  /** The developer message each concrete class fixes. Every class but
      `GeneralInfoException` uses the same text as its user message. */
  function DeveloperMessage(c: ExceptionClass): string
    requires IsConcrete(c)
  {
    match c
    case GeneralInfoException => "Exception occurred"
    case BadRequest => "An invalid request was provided"
    case InvalidArgument => "An invalid argument was provided"
    case MissingArgumentValue => "No value provided for an argument with required value"
    case InvalidArgumentValue => "A valid argument was provided with an invalid value"
    case Forbidden => "Forbidden to access requested resource"
    case Unauthorized => "Unauthorized to access requested resource"
    case UnauthorizedRead => "Unauthorized to read requested resource"
    case UnauthorizedWrite => "Unauthorized to write requested resource"
    case UnauthorizedExecute => "Unauthorized to execute requested resource"
    case NotFound => "Resource not found"
    case MethodNotAllowed => "Method not allowed"
    case CouldNotConnectToDatabase => "Could not connect to database"
    case DatabaseOperationError => "Error while trying to read/write database"
    case ExternalProviderUnavailablePermanently => "An external provider is unavailable permanently"
    case ExternalProviderUnavailableTemporarily => "An external provider is unavailable temporarily"
    case ExternalProviderBadResponse => "The external provider's response is not valid"
  }

  /** The developer and user messages of a concrete class. */
  function Messages(c: ExceptionClass): (m: (string, string))
    requires IsConcrete(c)
  {
    (DeveloperMessage(c), if c == GeneralInfoException then "Service error" else DeveloperMessage(c))
  }

  /** Only `GeneralInfoException` has different developer and user
      messages. */
  lemma MessagesAgreeExceptGeneral(c: ExceptionClass)
    requires IsConcrete(c)
    ensures Messages(c).0 == Messages(c).1 <==> c != GeneralInfoException
  {
    if c == GeneralInfoException {
      assert |Messages(c).0| == 18 && |Messages(c).1| == 13;
    }
  }

  /** An exception of the taxonomy: its class and its `info` dict. */
  datatype TypedError = TypedError(cls: ExceptionClass, info: map<string, Value>)

  /** The constructor of a concrete class: a fresh three-key info dict with
      the class's messages and the caller's context. */
  function New(c: ExceptionClass, context: Value): (e: TypedError)
    requires IsConcrete(c)
    ensures e.cls == c
  {
    TypedError(c, Envelope(Messages(c).0, Messages(c).1, context))
  }

  /** The three-key info dict every concrete constructor builds. */
  function Envelope(developer: string, user: string, context: Value): map<string, Value> {
    map[DeveloperMessageKey := Str(developer), UserMessageKey := Str(user), ContextKey := context]
  }

  /** An envelope has exactly the two message keys and the context key,
      holding what it was built from. */
  lemma EnvelopeShape(developer: string, user: string, context: Value)
    ensures var info := Envelope(developer, user, context);
      && info.Keys == {DeveloperMessageKey, UserMessageKey, ContextKey} && MoreInfoKey !in info
      && info[DeveloperMessageKey] == Str(developer) && info[UserMessageKey] == Str(user)
      && info[ContextKey] == context
  {
  }

  /** The constructor of a base class (`InfoException(info)` and the family
      bases): it keeps the given dict, and reading `info['context']` for the
      exception's argument raises `KeyError` when that key is missing. */
  function FromInfo(c: ExceptionClass, info: map<string, Value>): Result<TypedError, Failure>
    requires !IsConcrete(c)
  {
    if ContextKey in info then Ok(TypedError(c, info)) else Err(KeyError("'context'"))
  }

  /** An exception built by one of the constructors above. */
  predicate WellFormed(e: TypedError) {
    ContextKey in e.info
  }

  /** `information()` returns the info dict itself. */
  function Information(e: TypedError): map<string, Value> {
    e.info
  }

  /** The exception's single argument, `info['context']`; under Python 2 it
      is also `ex.message`. */
  function Argument(e: TypedError): Value
    requires WellFormed(e)
  {
    e.info[ContextKey]
  }

  /** `ex.message` (Python 2): the constructor's argument `info['context']`.
      Every constructor above sets that key, so the `Null` branch is only
      reached by a hand-built value. */
  function Message(e: TypedError): Value {
    if ContextKey in e.info then e.info[ContextKey] else Null
  }

  /** `str(ex)`: the JSON text of the info dict. */
  function Text(e: TypedError): Payload {
    Encoded(Dict(e.info))
  }

  /** What every concrete constructor promises: exactly three keys (no
      `more_info`), the class's fixed messages and the caller's context as
      given, which is also the exception's argument. */
  lemma ConstructorContract(c: ExceptionClass, context: Value)
    requires IsConcrete(c)
    ensures WellFormed(New(c, context))
    ensures Information(New(c, context)).Keys == {DeveloperMessageKey, UserMessageKey, ContextKey}
    ensures MoreInfoKey !in Information(New(c, context))
    ensures Information(New(c, context))[DeveloperMessageKey] == Str(Messages(c).0)
    ensures Information(New(c, context))[UserMessageKey] == Str(Messages(c).1)
    ensures Argument(New(c, context)) == context && Message(New(c, context)) == context
    ensures Text(New(c, context)) == Encoded(Dict(Information(New(c, context))))
  {
    EnvelopeShape(Messages(c).0, Messages(c).1, context);
  }

  /** What a base-class constructor promises: it succeeds exactly when the
      info dict has a context, keeps that dict as it was given (so
      `information()` and `str()` return it), and its argument and message
      are the context; otherwise it raises `KeyError('context')`. */
  lemma BaseConstructorContract(c: ExceptionClass, info: map<string, Value>)
    requires !IsConcrete(c)
    ensures FromInfo(c, info).Ok? <==> ContextKey in info
    ensures FromInfo(c, info).Err? ==> FromInfo(c, info).error == KeyError("'context'")
    ensures FromInfo(c, info).Ok? ==> var e := FromInfo(c, info).value;
      && e.cls == c && WellFormed(e) && Information(e) == info && Text(e) == Encoded(Dict(info))
      && Argument(e) == info[ContextKey] && Message(e) == info[ContextKey]
  {
  }

  /** Reading an error envelope back from its decoded JSON document: the two
      messages and the context, when the document is a dict with exactly
      those keys and string messages. */
  function ReadEnvelope(doc: Value): (r: Option<(string, string, Value)>)
  {
    if doc.Dict? && doc.fields.Keys == {DeveloperMessageKey, UserMessageKey, ContextKey}
       && doc.fields[DeveloperMessageKey].Str? && doc.fields[UserMessageKey].Str?
    then Some((doc.fields[DeveloperMessageKey].s, doc.fields[UserMessageKey].s, doc.fields[ContextKey]))
    else None
  }

  /** Serialising a constructed exception and reading it back gives its
      messages and its context; conversely, an envelope that reads back is
      exactly the text of the exception with those fields. */
  lemma EnvelopeRoundTrip(c: ExceptionClass, context: Value)
    requires IsConcrete(c)
    ensures ReadEnvelope(Text(New(c, context)).doc) == Some((Messages(c).0, Messages(c).1, context))
  {
    EnvelopeShape(Messages(c).0, Messages(c).1, context);
  }

  lemma EnvelopeDetermined(doc: Value, c: ExceptionClass)
    requires IsConcrete(c)
    requires ReadEnvelope(doc).Some?
    requires ReadEnvelope(doc).value.0 == Messages(c).0 && ReadEnvelope(doc).value.1 == Messages(c).1
    ensures Text(New(c, ReadEnvelope(doc).value.2)).doc == doc
  {
    var (developer, user, context) := ReadEnvelope(doc).value;
    EnvelopeFields(doc, developer, user, context);
  }

  /** A document that reads back as an envelope is the dict of its three
      fields. */
  lemma EnvelopeFields(doc: Value, developer: string, user: string, context: Value)
    requires ReadEnvelope(doc) == Some((developer, user, context))
    ensures doc == Dict(map[DeveloperMessageKey := Str(developer), UserMessageKey := Str(user), ContextKey := context])
  {
    var fields := map[DeveloperMessageKey := Str(developer), UserMessageKey := Str(user), ContextKey := context];
    assert fields.Keys == doc.fields.Keys;
    assert forall k :: k in fields ==> fields[k] == doc.fields[k];
  }

  /** Python exceptions as the model sees them: one of the taxonomy, the
      two Tornado HTTP errors, or a built-in error with the text of its
      `str()`. */
  datatype Failure =
    | Typed(error: TypedError)
    | WebHttpError(statusCode: int, text: string)
    | ClientHttpError(code: int, message: string)
    | KeyError(text: string)
    | TypeError(text: string)
    | ValueError(text: string)
    | AttributeError(text: string)
    | OtherError(text: string)

  /** A concrete taxonomy member raised with a string context. */
  function Raise(c: ExceptionClass, context: string): (f: Failure)
    requires IsConcrete(c)
    ensures f.Typed? && f.error.cls == c && WellFormed(f.error)
    ensures Argument(f.error) == Str(context)
  {
    Typed(New(c, Str(context)))
  }
}
