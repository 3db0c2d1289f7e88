/** Go error values as the quote service uses them: package-level sentinels
    compared by identity, fresh errors made at the call site, `%w` wrapping
    with `fmt.Errorf`, and the `validate.FieldErrors` collection. */
module GoErrors {

  datatype Option<+T> = None | Some(value: T)

  /** A Go `(value, error)` return: a value when the error is nil, the error otherwise. */
  datatype Result<+T> = Ok(value: T) | Err(error: Error)

  /** validate.FieldError: one violation, reported under the field's wire name. */
  datatype FieldError = FieldError(field: string, error: string)

  /** The package-level sentinel errors. Go compares them by identity, so two
      sentinels with the same text (validate.ErrInvalidID and quote.ErrInvalidID)
      are still different values. */
  datatype SentinelKind =
    | RegionUnsupportedCountryCode
    | ValidateInvalidID
    | QuoteInvalidID
    | QuoteNotFound
    | SqlNoRows

  datatype Error =
    | Sentinel(kind: SentinelKind)
      /** errors.New (or fmt.Errorf without %w) at the point of failure: a fresh
          value that is equal to no sentinel */
    | Fresh(text: string)
      /** fmt.Errorf("<context>: %w", inner) */
    | Wrapped(context: string, inner: Error)
      /** a validate.FieldErrors value used as an error */
    | FieldErrors(fields: seq<FieldError>)

  /** The text errors.New gave each sentinel. Only the validate and quote
      packages' two ErrInvalidID values share a text; errors.Is tells them
      apart by identity. */
  function SentinelText(k: SentinelKind): (text: string)
    ensures text != ""
    ensures text == "ID is not in its proper form" <==> k in {ValidateInvalidID, QuoteInvalidID}
  {
    match k
    case RegionUnsupportedCountryCode => "country code not supported"
    case ValidateInvalidID => "ID is not in its proper form"
    case QuoteInvalidID => "ID is not in its proper form"
    case QuoteNotFound => "not found"
    case SqlNoRows => "sql: no rows in result set"
  }

  /** errors.Is(err, target) for a sentinel target: walks the %w chain. */
  predicate Is(err: Error, target: SentinelKind)
  {
    match err
    case Sentinel(k) => k == target
    case Fresh(_) => false
    case Wrapped(_, inner) => Is(inner, target)
    case FieldErrors(_) => false
  }

  /** errors.As(err, &ferrors) with ferrors a validate.FieldErrors: the first
      FieldErrors value on the %w chain, if any. */
  function AsFieldErrors(err: Error): (r: Option<seq<FieldError>>)
    ensures Is(err, QuoteNotFound) ==> r.None?
  {
    match err
    case Sentinel(_) => None
    case Fresh(_) => None
    case Wrapped(_, inner) => AsFieldErrors(inner)
    case FieldErrors(fs) => Some(fs)
  }

  /** err.Error() for an error with no FieldErrors on its chain (the JSON text
      that FieldErrors.Error produces is not part of this model). */
  function Message(err: Error): string
    requires AsFieldErrors(err).None?
  {
    match err
    case Sentinel(k) => SentinelText(k)
    case Fresh(text) => text
    case Wrapped(context, inner) => context + ": " + Message(inner)
  }
}
