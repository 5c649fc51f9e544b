/** The execution client for the Judge0 remote code-execution service: submit a
    program, poll its submission record until the status is terminal or the
    attempt budget runs out, and normalise the outcome into one result shape
    that never carries a fault.

    The remote service is an input: what it answers to the submit request, and
    the sequence of answers it gives to successive status fetches. Waits
    between fetches are counted events rather than durations. */
module Api {
  import opened Wrappers

  // ---------------------------------------------------------------------------
  // Remote records and status ids
  // ---------------------------------------------------------------------------

  /** Status ids of the remote service that the client interprets. Any other
      id, including one the service never defines, is terminal. */
  const InQueue: int := 1
  const Processing: int := 2
  const Accepted: int := 3

  /** Polling stops at every status other than "in queue" and "processing". */
  predicate IsTerminal(id: int) {
    id != InQueue && id != Processing
  }

  datatype Status = Status(id: int, description: string)

  /** A submission record as the status endpoint returns it. String fields
      the service reports as `null` are `None`; `time` and `memory` are
      passed through and never inspected. */
  datatype Submission = Submission(
    status: Status,
    stdout: Option<string>,
    stderr: Option<string>,
    compileOutput: Option<string>,
    time: Option<string>,
    memory: Option<int>)

  /** The three faults the client raises, each with a fixed message: the
      submit fault asks the user to check the API key, and the three
      messages are pairwise different. */
  datatype Fault = SubmitFailed | FetchFailed | Timeout {
    function Message(): (m: string)
      ensures m != ""
      ensures SubmitFailed? <==> m == "Failed to submit code. Please check your API key and try again."
      ensures FetchFailed? <==> m == "Failed to get submission result."
      ensures Timeout? <==> m == "Execution timeout. Please try again."
    {
      match this
      case SubmitFailed => "Failed to submit code. Please check your API key and try again."
      case FetchFailed => "Failed to get submission result."
      case Timeout => "Execution timeout. Please try again."
    }
  }

  /** What the remote service does with the submit request. */
  datatype SubmitAnswer = Token(token: string) | SubmitFault

  /** What the remote service does with one status fetch. */
  datatype FetchAnswer = Record(record: Submission) | FetchFault

  /** The remote service as seen by one execution request. */
  datatype Remote = Remote(submit: SubmitAnswer, answers: seq<FetchAnswer>)

  // ---------------------------------------------------------------------------
  // Submit and fetch
  // ---------------------------------------------------------------------------

  /** Submitting yields the service's token, and any fault of the request
      becomes `SubmitFailed`. */
  function SubmitCode(answer: SubmitAnswer): (r: Result<string, Fault>)
    ensures r.Success? <==> answer.Token?
    ensures r.Success? ==> r.value == answer.token
    ensures r.Failure? ==> r.error == SubmitFailed
    ensures r.Failure? ==>
              r.error.Message() == "Failed to submit code. Please check your API key and try again."
  {
    match answer
    case Token(t) => Success(t)
    case SubmitFault => Failure(SubmitFailed)
  }

  /** One status fetch yields the record, and any fault of the request
      becomes `FetchFailed`. */
  function GetSubmission(answer: FetchAnswer): (r: Result<Submission, Fault>)
    ensures r.Success? <==> answer.Record?
    ensures r.Success? ==> r.value == answer.record
    ensures r.Failure? ==> r.error == FetchFailed
    ensures r.Failure? ==> r.error.Message() == "Failed to get submission result."
  {
    match answer
    case Record(s) => Success(s)
    case FetchFault => Failure(FetchFailed)
  }

  // ---------------------------------------------------------------------------
  // Polling
  // ---------------------------------------------------------------------------

  /** The default attempt budget of the poll (its default interval, 1000
      milliseconds, only scales the waits; see `PollWaitBound`). */
  const DefaultMaxAttempts: int := 10

  /** What a poll returns, with the number of fetches issued and of waits
      performed along the way. */
  datatype PollOutcome = PollOutcome(result: Result<Submission, Fault>, fetches: nat, waits: nat)

  /** An attempt budget below one permits no fetch at all. */
  function Budget(maxAttempts: int): nat {
    if maxAttempts < 0 then 0 else maxAttempts
  }

  /** A fetch answer after which the poll waits and fetches again. */
  predicate Continues(a: FetchAnswer) {
    a.Record? && !IsTerminal(a.record.status.id)
  }

  /** The poll result when it stops at answer `a`. */
  function StopResult(a: FetchAnswer): Result<Submission, Fault>
    requires !Continues(a)
  {
    match a
    case Record(s) => Success(s)
    case FetchFault => Failure(FetchFailed)
  }

  /** The reference description of a poll, independent of how it is computed:
      every answer before the stopping point asked to continue, each of them
      was followed by one wait, and the poll either stopped at the first
      answer that did not continue (one fetch more than waits) or used up the
      whole budget and timed out (as many waits as fetches). */
  ghost predicate PollSpec(answers: seq<FetchAnswer>, maxAttempts: int, o: PollOutcome) {
    && o.waits <= Budget(maxAttempts)
    && o.waits <= |answers|
    && (forall j :: 0 <= j < o.waits ==> Continues(answers[j]))
    && if o.fetches == o.waits then
         o.waits == Budget(maxAttempts) && o.result == Failure(Timeout)
       else
         && o.fetches == o.waits + 1
         && o.waits < Budget(maxAttempts)
         && o.waits < |answers|
         && !Continues(answers[o.waits])
         && o.result == StopResult(answers[o.waits])
  }

  /** The poll loop: fetch, and on "in queue" or "processing" wait and try
      again, until a terminal record, a fetch fault, or the end of the
      budget. `answers` are the service's answers to successive fetches; it
      must be long enough to answer every fetch the budget allows. */
  function Poll(answers: seq<FetchAnswer>, maxAttempts: int): (o: PollOutcome)
    requires maxAttempts <= |answers|
    ensures o.fetches <= Budget(maxAttempts)
    ensures o.waits <= o.fetches <= o.waits + 1
    ensures o.result.Success? ==> IsTerminal(o.result.value.status.id)
    ensures o.result == Failure(Timeout) <==> o.fetches == o.waits
    decreases maxAttempts
  {
    if maxAttempts <= 0 then
      PollOutcome(Failure(Timeout), 0, 0)
    else
      match GetSubmission(answers[0])
      case Failure(f) => PollOutcome(Failure(f), 1, 0)
      case Success(s) =>
        if IsTerminal(s.status.id) then
          PollOutcome(Success(s), 1, 0)
        else
          var rest := Poll(answers[1..], maxAttempts - 1);
          PollOutcome(rest.result, rest.fetches + 1, rest.waits + 1)
  }

  /** The recursive poll meets the reference description. */
  lemma {:induction false} PollMeetsSpec(answers: seq<FetchAnswer>, maxAttempts: int)
    requires maxAttempts <= |answers|
    ensures PollSpec(answers, maxAttempts, Poll(answers, maxAttempts))
  {
    if maxAttempts > 0 && Continues(answers[0]) {
      var rest := answers[1..];
      PollMeetsSpec(rest, maxAttempts - 1);
      var o := Poll(rest, maxAttempts - 1);
      forall j | 0 <= j < o.waits + 1
        ensures Continues(answers[j])
      {
        if j > 0 {
          assert answers[j] == rest[j - 1];
        }
      }
      if o.fetches != o.waits {
        assert answers[o.waits + 1] == rest[o.waits];
      }
    }
  }

  /** The reference description leaves no freedom: it fixes fetches, waits
      and result. */
  lemma PollSpecUnique(answers: seq<FetchAnswer>, maxAttempts: int, o1: PollOutcome, o2: PollOutcome)
    requires PollSpec(answers, maxAttempts, o1) && PollSpec(answers, maxAttempts, o2)
    ensures o1 == o2
  {
  }

  /** The poll as the source writes it: a counted loop over the attempts. */
  method PollSubmission(answers: seq<FetchAnswer>, maxAttempts: int) returns (o: PollOutcome)
    requires maxAttempts <= |answers|
    ensures PollSpec(answers, maxAttempts, o)
    ensures o == Poll(answers, maxAttempts)
  {
    var attempt := 0;
    var fetches := 0;
    var waits := 0;
    while attempt < maxAttempts
      invariant 0 <= attempt <= Budget(maxAttempts)
      invariant fetches == attempt && waits == attempt
      invariant forall j :: 0 <= j < attempt ==> Continues(answers[j])
    {
      var got := GetSubmission(answers[attempt]);
      fetches := fetches + 1;
      if got.Failure? {
        o := PollOutcome(Failure(got.error), fetches, waits);
        PollMeetsSpec(answers, maxAttempts);
        PollSpecUnique(answers, maxAttempts, o, Poll(answers, maxAttempts));
        return;
      }
      var s := got.value;
      if s.status.id == InQueue || s.status.id == Processing {
        waits := waits + 1;
        attempt := attempt + 1;
        continue;
      }
      o := PollOutcome(Success(s), fetches, waits);
      PollMeetsSpec(answers, maxAttempts);
      PollSpecUnique(answers, maxAttempts, o, Poll(answers, maxAttempts));
      return;
    }
    o := PollOutcome(Failure(Timeout), fetches, waits);
    PollMeetsSpec(answers, maxAttempts);
    PollSpecUnique(answers, maxAttempts, o, Poll(answers, maxAttempts));
  }

  /** The first answer that does not ask to continue, within the budget, ends
      the poll: a terminal record is returned and a fault propagated, after
      exactly `k + 1` fetches and `k` waits, with no fetch after it. */
  lemma PollStopsAtFirstTerminal(answers: seq<FetchAnswer>, maxAttempts: int, k: nat)
    requires maxAttempts <= |answers|
    requires k < maxAttempts
    requires forall j :: 0 <= j < k ==> Continues(answers[j])
    requires !Continues(answers[k])
    ensures Poll(answers, maxAttempts) == PollOutcome(StopResult(answers[k]), k + 1, k)
  {
    PollMeetsSpec(answers, maxAttempts);
    PollSpecUnique(answers, maxAttempts, Poll(answers, maxAttempts),
                   PollOutcome(StopResult(answers[k]), k + 1, k));
  }

  /** A fetch fault ends the poll at once, without retry, with its message. */
  lemma PollFetchFaultPropagates(answers: seq<FetchAnswer>, maxAttempts: int, k: nat)
    requires maxAttempts <= |answers|
    requires k < maxAttempts
    requires forall j :: 0 <= j < k ==> Continues(answers[j])
    requires answers[k] == FetchFault
    ensures Poll(answers, maxAttempts).result == Failure(FetchFailed)
    ensures Poll(answers, maxAttempts).fetches == k + 1
    ensures Poll(answers, maxAttempts).result.error.Message() == "Failed to get submission result."
  {
    PollStopsAtFirstTerminal(answers, maxAttempts, k);
  }

  /** When every answer within the budget asks to continue, the poll times
      out after exactly `maxAttempts` fetches and `maxAttempts` waits; a
      budget below one fetches nothing and times out. */
  lemma PollTimesOut(answers: seq<FetchAnswer>, maxAttempts: int)
    requires maxAttempts <= |answers|
    requires forall j :: 0 <= j < maxAttempts ==> Continues(answers[j])
    ensures Poll(answers, maxAttempts)
         == PollOutcome(Failure(Timeout), Budget(maxAttempts), Budget(maxAttempts))
  {
    PollMeetsSpec(answers, maxAttempts);
    PollSpecUnique(answers, maxAttempts, Poll(answers, maxAttempts),
                   PollOutcome(Failure(Timeout), Budget(maxAttempts), Budget(maxAttempts)));
  }

  /** The time spent waiting never exceeds the budget times the interval. */
  lemma PollWaitBound(answers: seq<FetchAnswer>, maxAttempts: int, interval: nat)
    requires maxAttempts <= |answers|
    ensures Poll(answers, maxAttempts).waits * interval <= Budget(maxAttempts) * interval
  {
    var w := Poll(answers, maxAttempts).waits;
    assert w <= Budget(maxAttempts);
    assert w * interval <= Budget(maxAttempts) * interval by {
      MulMonotone(w, Budget(maxAttempts), interval);
    }
  }

  lemma MulMonotone(a: nat, b: nat, c: nat)
    requires a <= b
    ensures a * c <= b * c
  {
  }

  // ---------------------------------------------------------------------------
  // Normalised execution result
  // ---------------------------------------------------------------------------

  /** The result handed to the user interface. */
  datatype ExecutionResult = ExecutionResult(
    success: bool,
    output: string,
    error: string,
    status: string,
    time: Option<string>,
    memory: Option<int>)

  /** JavaScript truthiness of a string that may be `null`. */
  predicate Truthy(v: Option<string>) {
    v.Some? && v.value != ""
  }

  /** JavaScript's `v || fallback` for a string that may be `null`. */
  function OrElse(v: Option<string>, fallback: string): (r: string)
    ensures Truthy(v) ==> r == v.value
    ensures !Truthy(v) ==> r == fallback
  {
    if Truthy(v) then v.value else fallback
  }

  const UnexpectedError := "An unexpected error occurred."

  /** The result of a terminal record: success exactly for "accepted", the
      standard output if any, the standard error if any and otherwise the
      compiler output if any, and the remaining fields passed through. */
  function Normalise(s: Submission): (r: ExecutionResult)
    ensures r.success <==> s.status.id == Accepted
    ensures Truthy(s.stdout) ==> r.output == s.stdout.value
    ensures !Truthy(s.stdout) ==> r.output == ""
    ensures Truthy(s.stderr) ==> r.error == s.stderr.value
    ensures !Truthy(s.stderr) && Truthy(s.compileOutput) ==> r.error == s.compileOutput.value
    ensures !Truthy(s.stderr) && !Truthy(s.compileOutput) ==> r.error == ""
    ensures r.status == s.status.description
    ensures r.time == s.time && r.memory == s.memory
  {
    ExecutionResult(
      s.status.id == Accepted,
      OrElse(s.stdout, ""),
      OrElse(s.stderr, OrElse(s.compileOutput, "")),
      s.status.description,
      s.time,
      s.memory)
  }

  /** The fixed failure record of the catch-all, carrying a fault message
      (or a generic one when the message is empty). */
  function Failed(message: string): (r: ExecutionResult)
    ensures !r.success && r.output == "" && r.status == "Error"
    ensures r.time == None && r.memory == None
    ensures r.error != ""
    ensures message != "" ==> r.error == message
  {
    ExecutionResult(false, "", OrElse(Some(message), UnexpectedError), "Error", None, None)
  }

  /** Submit, poll with the default budget, and normalise; every fault on the
      way is caught and turned into the failure record. */
  function ExecuteCode(remote: Remote): (r: ExecutionResult)
    requires DefaultMaxAttempts <= |remote.answers|
    ensures remote.submit.SubmitFault? ==> r == Failed(SubmitFailed.Message())
    ensures r.success <==>
              && remote.submit.Token?
              && Poll(remote.answers, DefaultMaxAttempts).result.Success?
              && Poll(remote.answers, DefaultMaxAttempts).result.value.status.id == Accepted
  {
    match SubmitCode(remote.submit)
    case Failure(f) => Failed(f.Message())
    case Success(_) =>
      match Poll(remote.answers, DefaultMaxAttempts).result
      case Failure(f) => Failed(f.Message())
      case Success(s) => Normalise(s)
  }

  /** Any fault, from submit, from a fetch or from the timeout, yields the
      failure record carrying that fault's own message. */
  lemma ExecuteCatchesFaults(remote: Remote)
    requires DefaultMaxAttempts <= |remote.answers|
    ensures remote.submit.SubmitFault? ==>
              ExecuteCode(remote).error == "Failed to submit code. Please check your API key and try again."
    ensures remote.submit.Token? && Poll(remote.answers, DefaultMaxAttempts).result.Failure? ==>
              ExecuteCode(remote) == Failed(Poll(remote.answers, DefaultMaxAttempts).result.error.Message())
    ensures remote.submit.SubmitFault? || Poll(remote.answers, DefaultMaxAttempts).result.Failure? ==>
              && !ExecuteCode(remote).success
              && ExecuteCode(remote).output == ""
              && ExecuteCode(remote).status == "Error"
              && ExecuteCode(remote).error != ""
              && ExecuteCode(remote).time == None
              && ExecuteCode(remote).memory == None
  {
  }

  /** Once the submit succeeds, the first terminal record within the default
      budget is the one normalised. */
  lemma ExecuteNormalisesFirstTerminal(remote: Remote, k: nat, s: Submission)
    requires DefaultMaxAttempts <= |remote.answers|
    requires remote.submit.Token?
    requires k < DefaultMaxAttempts
    requires forall j :: 0 <= j < k ==> Continues(remote.answers[j])
    requires remote.answers[k] == Record(s) && IsTerminal(s.status.id)
    ensures ExecuteCode(remote) == Normalise(s)
  {
    PollStopsAtFirstTerminal(remote.answers, DefaultMaxAttempts, k);
  }

  /** A service that stays pending for the whole default budget makes the
      execution report the timeout. */
  lemma ExecuteTimesOut(remote: Remote)
    requires DefaultMaxAttempts <= |remote.answers|
    requires remote.submit.Token?
    requires forall j :: 0 <= j < DefaultMaxAttempts ==> Continues(remote.answers[j])
    ensures ExecuteCode(remote) == Failed("Execution timeout. Please try again.")
  {
    PollTimesOut(remote.answers, DefaultMaxAttempts);
  }

  // ---------------------------------------------------------------------------
  // Worked examples
  // ---------------------------------------------------------------------------

  /** "Processing" then "accepted": two fetches, one wait in between. */
  lemma ProcessingThenAccepted(done: Submission, later: seq<FetchAnswer>)
    requires done.status.id == Accepted
    requires |later| >= 8
    ensures Poll([Record(done.(status := Status(Processing, "Processing")))] + [Record(done)] + later,
                 DefaultMaxAttempts)
         == PollOutcome(Success(done), 2, 1)
  {
    var answers := [Record(done.(status := Status(Processing, "Processing")))] + [Record(done)] + later;
    PollStopsAtFirstTerminal(answers, DefaultMaxAttempts, 1);
  }

  /** The Python "Hello, World!" program answered at once with "Accepted". */
  lemma HelloWorld(later: seq<FetchAnswer>)
    requires |later| >= 9
    ensures ExecuteCode(Remote(Token("tok"),
              [Record(Submission(Status(Accepted, "Accepted"), Some("Hello, World!\n"),
                                 None, None, Some("0.02"), Some(3412)))] + later))
         == ExecutionResult(true, "Hello, World!\n", "", "Accepted", Some("0.02"), Some(3412))
  {
  }
}
