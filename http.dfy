/**
 * What a handler sends back, and the guard-clause shape both upload handlers share:
 * a list of checks made in order, each with the response its failure produces.
 */
module Http {
  import opened Wrappers
  import opened Database

  const StatusOK := 200
  const StatusBadRequest := 400
  const StatusUnauthorized := 401
  const StatusInternalServerError := 500

  datatype Response =
    | ErrorResponse(status: int, message: string)   // respondWithError(w, status, message, err)
    | JsonResponse(status: int, video: Video)       // respondWithJSON(w, status, video)
    | EmptyResponse                                 // the handler returned without writing: 200, empty body
    | Aborted                                       // the handler panicked: the connection is dropped

  /** The status the client sees, none when the connection is dropped. */
  function StatusOf(r: Response): Option<int>
  {
    match r
    case ErrorResponse(status, _) => Some(status)
    case JsonResponse(status, _) => Some(status)
    case EmptyResponse => Some(StatusOK)
    case Aborted => None
  }

  /**
   * The index of the first check that did not pass, `|checks|` when all passed.
   * A handler's checks are listed in the order it makes them.
   */
  function FirstFailed(checks: seq<bool>): (k: nat)
    ensures k <= |checks|
    ensures forall j :: 0 <= j < k ==> checks[j]
    ensures k < |checks| ==> !checks[k]
    decreases |checks|
  {
    if |checks| == 0 || !checks[0] then 0 else 1 + FirstFailed(checks[1..])
  }

  /** The two properties above determine the index. */
  lemma FirstFailedIs(checks: seq<bool>, k: nat)
    requires k <= |checks|
    requires forall j :: 0 <= j < k ==> checks[j]
    requires k < |checks| ==> !checks[k]
    ensures FirstFailed(checks) == k
  {
  }

  /** Checks made one list after another: the first failure is in the first list, or else in the second. */
  lemma {:induction false} FirstFailedAppend(a: seq<bool>, b: seq<bool>)
    ensures FirstFailed(a + b) == if FirstFailed(a) < |a| then FirstFailed(a) else |a| + FirstFailed(b)
    decreases |a|
  {
    if |a| == 0 {
      assert a + b == b;
    } else if a[0] {
      assert (a + b)[1..] == a[1..] + b;
      FirstFailedAppend(a[1..], b);
    }
  }
}
