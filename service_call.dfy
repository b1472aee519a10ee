/** The convention both backend services follow: await one call, then turn
    its `{data, error}` answer, or the exception it threw, into a
    `{success, error, needsConfirmation, message, data}` record. */
module ServiceCall {
  import opened JsText

  /** What an awaited backend call produced: a `{data, error}` pair, where
      the error carries its message, or an exception, whose message may be
      missing. */
  datatype Call<D> =
    | Returned(data: D, error: Option<string>)
    | Threw(message: Option<string>)

  /** What a component's awaited call did: it settled with a result record,
      which may be missing, or it threw. */
  datatype Settled<R> = Resolved(result: Option<R>) | Rejected

  /** The data of an operation that hands back nothing worth keeping. */
  datatype Unit = Unit

  /** The result record the services return. */
  datatype Outcome<D> = Outcome(
    success: bool,
    error: Option<string>,
    needsConfirmation: bool,
    message: Option<string>,
    data: Option<D>)

  /** A failure carries an error text, a success carries none, and only a
      failure can ask for e-mail confirmation. */
  predicate WellFormed<D>(r: Outcome<D>)
  {
    && (r.success <==> r.error.None?)
    && (r.needsConfirmation ==> !r.success)
  }

  function Fail<D>(error: string): (r: Outcome<D>)
    ensures WellFormed(r) && !r.success && r.error == Some(error) && !r.needsConfirmation
  {
    Outcome(false, Some(error), false, None, None)
  }

  function Succeed<D>(data: Option<D>, message: Option<string>): (r: Outcome<D>)
    ensures WellFormed(r) && r.success && r.data == data && r.message == message
  {
    Outcome(true, None, false, message, data)
  }

  /** Whether an exception message contains one of two markers; a missing
      message contains nothing. */
  predicate MentionsEither(message: Option<string>, a: string, b: string)
  {
    message.Some? && (Includes(message.value, a) || Includes(message.value, b))
  }

  const DatabaseConnectionMessage: string :=
    "Cannot connect to database. Your Supabase project may be paused or deleted. Please visit your Supabase dashboard to check project status."

  /** A fetch failure of the database client. */
  predicate IsDatabaseNetworkFailure(message: Option<string>)
  {
    MentionsEither(message, "Failed to fetch", "NetworkError")
  }

  /** The common shape: a backend error fails with its message, an answer
      succeeds with the data and an optional message, and any exception
      fails with the operation's fallback text. */
  function Classify<D>(call: Call<D>, successMessage: Option<string>, fallback: string): (r: Outcome<D>)
    ensures WellFormed(r) && !r.needsConfirmation
    ensures call.Returned? && call.error.Some? ==> r == Fail(call.error.value)
    ensures call.Returned? && call.error.None? ==> r == Succeed(Some(call.data), successMessage)
    ensures call.Threw? ==> r == Fail(fallback)
  {
    match call
    case Returned(data, error) =>
      if error.Some? then Fail(error.value) else Succeed(Some(data), successMessage)
    case Threw(_) => Fail(fallback)
  }

  /** The shape of the database operations: like `Classify`, except that an
      exception that is a fetch failure gets the connection text. */
  function ClassifyDatabaseCall<D>(call: Call<D>, fallback: string): (r: Outcome<D>)
    ensures WellFormed(r) && !r.needsConfirmation
    ensures call.Returned? ==> r == Classify(call, None, fallback)
    ensures call.Threw? ==>
      r == Fail(if IsDatabaseNetworkFailure(call.message) then DatabaseConnectionMessage else fallback)
  {
    if call.Threw? && IsDatabaseNetworkFailure(call.message) then Fail(DatabaseConnectionMessage)
    else Classify(call, None, fallback)
  }

  /** A fallback text is never mistaken for the connection text: an
      exception gets the connection text exactly when it is a fetch
      failure. */
  lemma ConnectionTextIffNetworkFailure<D>(message: Option<string>, fallback: string)
    requires fallback != DatabaseConnectionMessage
    ensures ClassifyDatabaseCall(Call<D>.Threw(message), fallback).error == Some(DatabaseConnectionMessage)
        <==> IsDatabaseNetworkFailure(message)
  {
  }
}
