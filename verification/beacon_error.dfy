/** The closed taxonomy of domain errors and their `[kind]:detail` text form. */
module BeaconErrors {
  import opened Wrappers

  /** The closed set of domain error kinds (`BeaconErrorType`). */
  datatype BeaconErrorType =
    | BroadcastError
    | NetworkNotSupported
    | NoAddressError
    | NoPrivateKeyFoundError
    | NotGrantedError
    | ParametersInvalidError
    | TooManyOperations
    | TransactionInvalidError
    | UnknownError

  /** The concrete error classes the factory can build. */
  datatype ErrorClass =
    | NetworkNotSupportedBeaconError
    | NoAddressBeaconError
    | NoPrivateKeyBeaconError
    | NotGrantedBeaconError
    | ParametersInvalidBeaconError
    | TooManyOperationsBeaconError
    | TransactionInvalidBeaconError
    | UnknownBeaconError

  /** A constructed error: its `name` and its rendered `message`. */
  datatype BeaconError = BeaconError(name: string, message: string)

  const DefaultName: string := "BeaconError"

  /** The text a kind renders to inside `[...]`. */
  function TypeName(kind: BeaconErrorType): string
  {
    match kind
    case BroadcastError => "BROADCAST_ERROR"
    case NetworkNotSupported => "NETWORK_NOT_SUPPORTED"
    case NoAddressError => "NO_ADDRESS_ERROR"
    case NoPrivateKeyFoundError => "NO_PRIVATE_KEY_FOUND_ERROR"
    case NotGrantedError => "NOT_GRANTED_ERROR"
    case ParametersInvalidError => "PARAMETERS_INVALID_ERROR"
    case TooManyOperations => "TOO_MANY_OPERATIONS"
    case TransactionInvalidError => "TRANSACTION_INVALID_ERROR"
    case UnknownError => "UNKNOWN_ERROR"
  }

  /** The base constructor: the message is the kind in brackets, a colon and the
      detail; the name defaults to `BeaconError`. */
  function NewBeaconError(kind: BeaconErrorType, detail: string): (e: BeaconError)
    ensures e.name == DefaultName
    ensures |e.message| == |TypeName(kind)| + 3 + |detail|
    ensures e.message[0] == '[' && e.message[|TypeName(kind)| + 1] == ']'
    ensures e.message[|TypeName(kind)| + 2] == ':'
    ensures e.message[1..|TypeName(kind)| + 1] == TypeName(kind)
    ensures e.message[|TypeName(kind)| + 3..] == detail
  {
    BeaconError(DefaultName, "[" + TypeName(kind) + "]:" + detail)
  }

  /** `getError`: the factory from kinds to classes. The match is exhaustive, so
      `getError`'s trailing `default` branch cannot be reached and has no
      counterpart here. */
  function GetError(kind: BeaconErrorType): (c: ErrorClass)
    ensures c == NetworkNotSupportedBeaconError <==>
            kind == BroadcastError || kind == NetworkNotSupported
  {
    match kind
    case BroadcastError => NetworkNotSupportedBeaconError
    case NetworkNotSupported => NetworkNotSupportedBeaconError
    case NoAddressError => NoAddressBeaconError
    case NoPrivateKeyFoundError => NoPrivateKeyBeaconError
    case NotGrantedError => NotGrantedBeaconError
    case ParametersInvalidError => ParametersInvalidBeaconError
    case TooManyOperations => TooManyOperationsBeaconError
    case TransactionInvalidError => TransactionInvalidBeaconError
    case UnknownError => UnknownBeaconError
  }

  /** The kind each class is named after: an independent reading of the
      taxonomy to check `GetError` against. */
  function ClassKind(c: ErrorClass): BeaconErrorType
  {
    match c
    case NetworkNotSupportedBeaconError => NetworkNotSupported
    case NoAddressBeaconError => NoAddressError
    case NoPrivateKeyBeaconError => NoPrivateKeyFoundError
    case NotGrantedBeaconError => NotGrantedError
    case ParametersInvalidBeaconError => ParametersInvalidError
    case TooManyOperationsBeaconError => TooManyOperations
    case TransactionInvalidBeaconError => TransactionInvalidError
    case UnknownBeaconError => UnknownError
  }

  /** Every kind but `BROADCAST_ERROR` gets the class named after it; every class
      is reached; `BROADCAST_ERROR` shares its class with `NETWORK_NOT_SUPPORTED`. */
  lemma GetErrorMatchesClassNames(kind: BeaconErrorType, c: ErrorClass)
    ensures kind != BroadcastError ==> ClassKind(GetError(kind)) == kind
    ensures GetError(ClassKind(c)) == c
    ensures GetError(BroadcastError) == GetError(NetworkNotSupported)
  {
  }

  /** Two kinds share a class exactly when they are the same kind or the pair
      `BROADCAST_ERROR`/`NETWORK_NOT_SUPPORTED`. */
  lemma GetErrorInjectiveButForBroadcast(a: BeaconErrorType, b: BeaconErrorType)
    ensures GetError(a) == GetError(b) <==>
            a == b || (a in {BroadcastError, NetworkNotSupported} && b in {BroadcastError, NetworkNotSupported})
  {
    if a != BroadcastError && b != BroadcastError && GetError(a) == GetError(b) {
      GetErrorMatchesClassNames(a, GetError(a));
      GetErrorMatchesClassNames(b, GetError(b));
    }
  }

  /** Reads a kind back from its text. */
  function TypeFromName(name: string): (r: Option<BeaconErrorType>)
    ensures r.Some? ==> TypeName(r.value) == name
  {
    if name == "BROADCAST_ERROR" then Some(BroadcastError)
    else if name == "NETWORK_NOT_SUPPORTED" then Some(NetworkNotSupported)
    else if name == "NO_ADDRESS_ERROR" then Some(NoAddressError)
    else if name == "NO_PRIVATE_KEY_FOUND_ERROR" then Some(NoPrivateKeyFoundError)
    else if name == "NOT_GRANTED_ERROR" then Some(NotGrantedError)
    else if name == "PARAMETERS_INVALID_ERROR" then Some(ParametersInvalidError)
    else if name == "TOO_MANY_OPERATIONS" then Some(TooManyOperations)
    else if name == "TRANSACTION_INVALID_ERROR" then Some(TransactionInvalidError)
    else if name == "UNKNOWN_ERROR" then Some(UnknownError)
    else None
  }

  /** The position of the first `c` in `s` at or after `from`, if any. */
  function IndexOf(s: string, c: char, from: nat): (r: Option<nat>)
    decreases |s| - from
    ensures r.Some? ==> from <= r.value < |s| && s[r.value] == c
    ensures r.Some? ==> forall k :: from <= k < r.value ==> s[k] != c
    ensures r.None? ==> forall k :: from <= k < |s| ==> s[k] != c
  {
    if from >= |s| then None
    else if s[from] == c then Some(from)
    else IndexOf(s, c, from + 1)
  }

  /** Reads a `[kind]:detail` message back into its kind and detail, as a
      receiver of an encoded error response would. */
  function ParseMessage(message: string): Option<(BeaconErrorType, string)>
  {
    if |message| == 0 || message[0] != '[' then None
    else match IndexOf(message, ']', 1)
      case None => None
      case Some(close) =>
        if close + 1 < |message| && message[close + 1] == ':' then
          match TypeFromName(message[1..close])
          case None => None
          case Some(kind) => Some((kind, message[close + 2..]))
        else None
  }

  /** Kind names contain no closing bracket, so the first `]` ends the kind. */
  lemma NoBracketInTypeName(kind: BeaconErrorType)
    ensures ']' !in TypeName(kind)
  {
  }

  /** The text form is a faithful encoding: every message the constructor builds
      parses back to the kind and detail it was built from, whatever the detail. */
  lemma MessageRoundTrip(kind: BeaconErrorType, detail: string)
    ensures ParseMessage(NewBeaconError(kind, detail).message) == Some((kind, detail))
  {
    var name := TypeName(kind);
    var m := NewBeaconError(kind, detail).message;
    NoBracketInTypeName(kind);
    forall k | 1 <= k < |name| + 1
      ensures m[k] != ']'
    {
      assert m[k] == name[k - 1];
      assert name[k - 1] in name;
    }
    assert IndexOf(m, ']', 1) == Some(|name| + 1);
    assert m[1..|name| + 1] == name;
    assert TypeFromName(name) == Some(kind);
  }
}
