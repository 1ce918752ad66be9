/**
 * Job records of pkg/job/model.go: a two-state machine PENDING -> DONE and the
 * result payload attached when a job finishes.
 */
module JobModel {
  import opened Wrappers

  datatype JobState = Pending | Done
  {
    /** The JSON spelling of the state. */
    function Name(): (s: string)
      ensures s == "PENDING" || s == "DONE"
      ensures (s == "PENDING") == Pending?
    {
      match this
      case Pending => "PENDING"
      case Done => "DONE"
    }
  }

  /** The only moves a job's state can make: stay, or go from PENDING to DONE. */
  predicate Step(from: JobState, to: JobState)
  {
    from == to || (from == Pending && to == Done)
  }

  /** Along any sequence of allowed moves, once DONE a job stays DONE. */
  lemma {:induction false} DoneIsFinal(trace: seq<JobState>, i: nat, j: nat)
    requires forall n :: 0 <= n < |trace| - 1 ==> Step(trace[n], trace[n + 1])
    requires i <= j < |trace| && trace[i] == Done
    ensures trace[j] == Done
    decreases j - i
  {
    if i < j {
      assert Step(trace[i], trace[i + 1]);
      DoneIsFinal(trace, i + 1, j);
    }
  }

  /** The body of util.Message. */
  datatype Message = Message(message: string)

  /** Outcome attached to a finished job: an HTTP status and an optional message body. */
  datatype AsyncResult = AsyncResult(status: int, data: Option<Message>)

  /** NewAsyncResultWithMessage: the status, with the message as body. */
  function NewAsyncResultWithMessage(statusCode: int, message: string): (r: AsyncResult)
    ensures r.status == statusCode && r.data.Some? && r.data.value.message == message
  {
    AsyncResult(statusCode, Some(Message(message)))
  }

  /** NewAsyncResult: the status alone, without a body. */
  function NewAsyncResult(statusCode: int): (r: AsyncResult)
    ensures r.status == statusCode && r.data.None?
  {
    AsyncResult(statusCode, None)
  }

  /**
   * The two constructors carry the status code unchanged, only the first has a
   * data payload, and the payload is the message: the status and message can be
   * read back, and results of the two kinds never coincide.
   */
  lemma AsyncResultsDistinguishable(c: int, c': int, m: string)
    ensures NewAsyncResult(c).status == c && NewAsyncResult(c).data == None
    ensures NewAsyncResultWithMessage(c, m).status == c
    ensures NewAsyncResultWithMessage(c, m).data == Some(Message(m))
    ensures NewAsyncResult(c) != NewAsyncResultWithMessage(c', m)
  {
  }

  /** Largest value Go's rand.Int() returns on a 64-bit platform. */
  const MaxInt: nat := 0x7FFF_FFFF_FFFF_FFFF

  predicate IsDigit(c: char)
  {
    '0' <= c <= '9'
  }

  /** strconv.Itoa for a non-negative number: its decimal form, without leading zeros. */
  function DecimalString(n: nat): (s: string)
    ensures |s| > 0
    ensures forall i :: 0 <= i < |s| ==> IsDigit(s[i])
    ensures s[0] == '0' ==> s == "0"
    decreases n
  {
    if n < 10 then [('0' as int + n) as char]
    else DecimalString(n / 10) + [('0' as int + n % 10) as char]
  }

  /** The number a string of decimal digits denotes. */
  function DecimalValue(s: string): nat
    requires forall i :: 0 <= i < |s| ==> IsDigit(s[i])
  {
    if s == [] then 0
    else
      assert IsDigit(s[|s| - 1]);
      10 * DecimalValue(s[..|s| - 1]) + (s[|s| - 1] as int - '0' as int)
  }

  /** Reading an ID back gives the number it was made from, so distinct numbers give distinct IDs. */
  lemma {:induction false} DecimalRoundTrip(n: nat)
    ensures DecimalValue(DecimalString(n)) == n
    decreases n
  {
    var s := DecimalString(n);
    if n >= 10 {
      DecimalRoundTrip(n / 10);
      assert s[..|s| - 1] == DecimalString(n / 10);
    }
  }

  /** A job of the asynchronous generation path. */
  class Job {
    const id: string
    var state: JobState
    const description: string
    var result: Option<AsyncResult>
    /** Kept for a later callback; never serialised. */
    const callbackURL: string

    /** NewJob: `n` stands for the value rand.Int() produced. */
    constructor NewJob(n: nat, description: string)
      requires n <= MaxInt
      ensures id == DecimalString(n)
      ensures |id| > 0 && forall i :: 0 <= i < |id| ==> IsDigit(id[i])
      ensures state == Pending && this.description == description
      ensures result == None && callbackURL == ""
    {
      id := DecimalString(n);
      state := Pending;
      this.description := description;
      result := None;
      callbackURL := "";
    }

    /** SetResult: attaches the outcome and marks the job DONE. */
    method SetResult(r: AsyncResult)
      modifies this
      ensures result == Some(r) && state == Done
      ensures Step(old(state), state)
    {
      result := Some(r);
      state := Done;
    }
  }
}
