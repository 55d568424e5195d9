/** The course service: its assignment records and how its GraphQL replies are interpreted. */
module Canvas {
  import opened Wrappers
  import opened Strings
  import opened Time
  import opened Urls

  /** An assignment as the course service reports it: the due time is always present,
      the description may be absent. */
  datatype Assignment = Assignment(
    id: string,
    name: string,
    description: Option<string>,
    dueAt: Timestamp,
    htmlUrl: Url,
    expectsSubmission: bool)

  datatype GraphqlError = GraphqlError(message: string)

  /** A decoded GraphQL response: optional data and a list of errors (an absent list is empty). */
  datatype GraphqlResponse<T> = GraphqlResponse(data: Option<T>, errors: seq<GraphqlError>)

  function Messages(errors: seq<GraphqlError>): (ms: seq<string>)
    ensures |ms| == |errors|
    ensures forall i | 0 <= i < |errors| :: ms[i] == errors[i].message
  {
    seq(|errors|, i requires 0 <= i < |errors| => errors[i].message)
  }

  const NoDataMessage: string := "Canvas GraphQL response did not contain data"

  /** The end of `query`: any error makes the whole response an error, whatever data it
      carries; otherwise the data is the result, and missing data is an error. */
  function InterpretResponse<T(==)>(r: GraphqlResponse<T>): (res: Result<T, Error>)
    ensures res.Ok? <==> |r.errors| == 0 && r.data.Some?
    ensures res.Ok? ==> res.value == r.data.value
    ensures |r.errors| > 0 ==> res == Err(Root(Join(Messages(r.errors), "; ")))
    ensures |r.errors| == 0 && r.data.None? ==> res == Err(Root(NoDataMessage))
  {
    if |r.errors| > 0 then Err(Root(Join(Messages(r.errors), "; ")))
    else if r.data.None? then Err(Root(NoDataMessage))
    else Ok(r.data.value)
  }

  /** When there are errors, the data the response carries makes no difference. */
  lemma ErrorsWinOverData<T>(errors: seq<GraphqlError>, d1: Option<T>, d2: Option<T>)
    requires |errors| > 0
    ensures InterpretResponse(GraphqlResponse(d1, errors)) == InterpretResponse(GraphqlResponse(d2, errors))
    ensures InterpretResponse(GraphqlResponse(d1, errors)).Err?
  {
  }

  /** The combined message lists the errors in the order they came: the message for
      `e1 + e2` is that for `e1`, then `"; "`, then that for `e2`. */
  lemma ErrorMessagesInOrder<T>(d: Option<T>, e1: seq<GraphqlError>, e2: seq<GraphqlError>)
    requires |e1| > 0 && |e2| > 0
    ensures InterpretResponse(GraphqlResponse(d, e1 + e2)) ==
      Err(Root(Join(Messages(e1), "; ") + "; " + Join(Messages(e2), "; ")))
  {
    assert Messages(e1 + e2) == Messages(e1) + Messages(e2);
    JoinConcat(Messages(e1), Messages(e2), "; ");
  }

  /** What the course service answers for a course: the assignment list, if the
      response's data held one that decodes. */
  type CourseReply = Reply<GraphqlResponse<Result<seq<Assignment>, string>>>

  /** `get_assignments` once its request has gone out. */
  function GetAssignments(courseId: string, reply: CourseReply): (r: Result<seq<Assignment>, Error>)
    ensures r.Ok? <==>
      && reply.Received? && reply.body.Ok?
      && reply.body.value.errors == [] && reply.body.value.data.Some?
      && reply.body.value.data.value.Ok?
    ensures r.Ok? ==> r.value == reply.body.value.data.value.value
    ensures reply.Received? && reply.body.Ok? && |reply.body.value.errors| > 0 ==>
      r == Err(Wrapped("Failed to get assignments for course: " + Debug(courseId),
                       Root(Join(Messages(reply.body.value.errors), "; "))))
  {
    var context := "Failed to get assignments for course: " + Debug(courseId);
    match reply
    case SendFailed(why) => Err(Wrapped(context, Wrapped("failed to make request to Canvas", Root(why))))
    case Received(Err(why)) => Err(Wrapped(context, Wrapped("failed to parse response from Canvas", Root(why))))
    case Received(Ok(response)) =>
      var interpreted: Result<Result<seq<Assignment>, string>, Error> := InterpretResponse(response);
      match interpreted
      case Err(e) => Err(Wrapped(context, e))
      case Ok(Err(why)) => Err(Wrapped("failed to deserialize assignment list", Root(why)))
      case Ok(Ok(assignments)) => Ok(assignments)
  }
}
