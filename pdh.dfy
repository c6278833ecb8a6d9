/**
 * `query_current_freq_mhz`: reading the live processor frequency through the
 * performance-counter (PDH) library — open a query, add the frequency counter,
 * collect twice, format the value, close the query.
 *
 * The library is modelled by the statuses it answers with and a trace of the calls
 * made on it; a ghost flag says whether a query is currently open.
 */
module Pdh {
  import opened Ints
  import opened Wrappers
  import Decimal

  const FREQUENCY_COUNTER_PATH := "\\Processor Information(0,0)\\Processor Frequency"

  /** One call into the library, with the status it returned where the caller checks it. */
  datatype Call =
    | OpenQuery(status: u32)
    | AddCounter(path: string, status: u32)
    | CollectQueryData
    | GetFormattedCounterValue(status: u32)
    | CloseQuery

  /** How the library answers during one frequency reading. */
  datatype Answers = Answers(openStatus: u32, addStatus: u32, formatStatus: u32, largeValue: i64)

  /**
   * Follows a trace from a state where a query is open or not: the final state,
   * or None if some call needs an open query that is not there (or opens a second one).
   */
  function Replay(calls: seq<Call>, open: bool): Option<bool>
  {
    if calls == [] then Some(open)
    else
      var next :=
        match calls[0]
        case OpenQuery(status) => if open then None else Some(status == 0)
        case CloseQuery => if open then Some(false) else None
        case _ => if open then Some(true) else None;
      match next
      case None => None
      case Some(open') => Replay(calls[1..], open')
  }

  /** Replaying a concatenation replays the first part, then the second from where it ended. */
  lemma {:induction false} ReplayAppend(c1: seq<Call>, c2: seq<Call>, open: bool)
    ensures Replay(c1 + c2, open) ==
      match Replay(c1, open)
      case None => None
      case Some(mid) => Replay(c2, mid)
  {
    if c1 != [] {
      assert (c1 + c2)[0] == c1[0] && (c1 + c2)[1..] == c1[1..] + c2;
      var open' := match c1[0]
        case OpenQuery(status) => status == 0
        case CloseQuery => false
        case _ => true;
      ReplayAppend(c1[1..], c2, open');
    } else {
      assert c1 + c2 == c2;
    }
  }

  function CountCloses(calls: seq<Call>): nat {
    if calls == [] then 0 else (if calls[0] == CloseQuery then 1 else 0) + CountCloses(calls[1..])
  }

  class Library {
    const answers: Answers
    var calls: seq<Call>
    ghost var queryOpen: bool

    /** The trace obeys the open/close discipline and ends in the state the flag records. */
    ghost predicate Valid()
      reads this
    {
      Replay(calls, false) == Some(queryOpen)
    }

    constructor (answers: Answers)
      ensures Valid() && this.answers == answers && calls == [] && !queryOpen
    {
      this.answers := answers;
      calls := [];
      queryOpen := false;
    }

    /** Records `call`, taken in the current state, and moves to the state it leads to. */
    method Record(call: Call, open': bool)
      requires Valid() && Replay([call], queryOpen) == Some(open')
      modifies this
      ensures Valid() && calls == old(calls) + [call] && queryOpen == open'
    {
      ReplayAppend(calls, [call], false);
      calls := calls + [call];
      queryOpen := open';
    }

    /** `PdhOpenQueryW`: a query is open afterwards exactly when the status is 0. */
    method OpenQuery() returns (status: u32)
      requires Valid() && !queryOpen
      modifies this
      ensures Valid() && status == answers.openStatus && queryOpen == (status == 0)
      ensures calls == old(calls) + [Call.OpenQuery(status)]
    {
      status := answers.openStatus;
      Record(Call.OpenQuery(status), status == 0);
    }

    /** `PdhAddCounterW` on the open query. */
    method AddCounter(path: string) returns (status: u32)
      requires Valid() && queryOpen
      modifies this
      ensures Valid() && status == answers.addStatus && queryOpen
      ensures calls == old(calls) + [Call.AddCounter(path, status)]
    {
      status := answers.addStatus;
      Record(Call.AddCounter(path, status), true);
    }

    /** `PdhCollectQueryData` on the open query; its status is not looked at. */
    method CollectQueryData()
      requires Valid() && queryOpen
      modifies this
      ensures Valid() && queryOpen
      ensures calls == old(calls) + [Call.CollectQueryData]
    {
      Record(Call.CollectQueryData, true);
    }

    /** `PdhGetFormattedCounterValue` with `PDH_FMT_LARGE`: a status and the 64-bit value. */
    method GetFormattedCounterValue() returns (status: u32, largeValue: i64)
      requires Valid() && queryOpen
      modifies this
      ensures Valid() && queryOpen
      ensures status == answers.formatStatus && largeValue == answers.largeValue
      ensures calls == old(calls) + [Call.GetFormattedCounterValue(status)]
    {
      status, largeValue := answers.formatStatus, answers.largeValue;
      Record(Call.GetFormattedCounterValue(status), true);
    }

    /** `PdhCloseQuery`: only an open query can be closed. */
    method CloseQuery()
      requires Valid() && queryOpen
      modifies this
      ensures Valid() && !queryOpen
      ensures calls == old(calls) + [Call.CloseQuery]
    {
      Record(Call.CloseQuery, false);
    }
  }

  /**
   * The calls one frequency reading makes, by where it stops: it always opens; it adds
   * the counter only after a successful open; it collects and formats only after the
   * counter was added; and it ends with a close exactly when the open succeeded.
   */
  function FreqQueryCalls(a: Answers): (calls: seq<Call>)
    ensures |calls| >= 1 && calls[0] == OpenQuery(a.openStatus)
    ensures calls[|calls| - 1] == CloseQuery <==> a.openStatus == 0
    ensures AddCounter(FREQUENCY_COUNTER_PATH, a.addStatus) in calls <==> a.openStatus == 0
    ensures CollectQueryData in calls <==> a.openStatus == 0 && a.addStatus == 0
    ensures GetFormattedCounterValue(a.formatStatus) in calls <==> a.openStatus == 0 && a.addStatus == 0
  {
    if a.openStatus != 0 then
      [OpenQuery(a.openStatus)]
    else if a.addStatus != 0 then
      [OpenQuery(0), AddCounter(FREQUENCY_COUNTER_PATH, a.addStatus), CloseQuery]
    else
      [OpenQuery(0), AddCounter(FREQUENCY_COUNTER_PATH, 0), CollectQueryData, CollectQueryData,
       GetFormattedCounterValue(a.formatStatus), CloseQuery]
  }

  const FAILED_INFIX := " failed: "

  /**
   * The error message for a failed step: the library function's name, " failed: ",
   * then the status in decimal, which can be read back from the message.
   */
  function Failed(api: string, status: u32): (msg: string)
    ensures |api| + |FAILED_INFIX| < |msg|
    ensures msg[..|api|] == api && msg[|api|..|api| + |FAILED_INFIX|] == FAILED_INFIX
    ensures Decimal.Canonical(msg[|api| + |FAILED_INFIX|..])
    ensures Decimal.Value(msg[|api| + |FAILED_INFIX|..]) == status
  {
    var msg := api + FAILED_INFIX + Decimal.Format(status);
    assert msg[|api| + |FAILED_INFIX|..] == Decimal.Format(status);
    msg
  }

  /**
   * What one frequency reading returns: the counter's value when every checked status
   * is 0, otherwise the message of the first step whose status was not 0.
   */
  function FreqQueryResult(a: Answers): (r: Result<u64, string>)
    ensures r.Ok? <==> a.openStatus == 0 && a.addStatus == 0 && a.formatStatus == 0
    ensures r.Ok? ==> r.value == I64AsU64(a.largeValue)
    ensures a.openStatus != 0 ==> r == Err(Failed("PdhOpenQueryW", a.openStatus))
    ensures a.openStatus == 0 && a.addStatus != 0 ==> r == Err(Failed("PdhAddCounterW", a.addStatus))
    ensures a.openStatus == 0 && a.addStatus == 0 && a.formatStatus != 0 ==>
      r == Err(Failed("PdhGetFormattedCounterValue", a.formatStatus))
  {
    if a.openStatus != 0 then Err(Failed("PdhOpenQueryW", a.openStatus))
    else if a.addStatus != 0 then Err(Failed("PdhAddCounterW", a.addStatus))
    else if a.formatStatus != 0 then Err(Failed("PdhGetFormattedCounterValue", a.formatStatus))
    else Ok(I64AsU64(a.largeValue))
  }

  method QueryCurrentFreqMhz(pdh: Library) returns (r: Result<u64, string>)
    requires pdh.Valid() && !pdh.queryOpen
    modifies pdh
    ensures pdh.Valid() && !pdh.queryOpen
    ensures pdh.calls == old(pdh.calls) + FreqQueryCalls(pdh.answers)
    ensures r == FreqQueryResult(pdh.answers)
  {
    var status := pdh.OpenQuery();
    if status != 0 {
      return Err(Failed("PdhOpenQueryW", status));
    }

    status := pdh.AddCounter(FREQUENCY_COUNTER_PATH);
    if status != 0 {
      pdh.CloseQuery();
      return Err(Failed("PdhAddCounterW", status));
    }

    pdh.CollectQueryData();
    pdh.CollectQueryData();

    var value: i64 := 0;
    status, value := pdh.GetFormattedCounterValue();
    pdh.CloseQuery();

    if status != 0 {
      return Err(Failed("PdhGetFormattedCounterValue", status));
    }
    r := Ok(I64AsU64(value));
  }

  /**
   * Every path of a reading obeys the open/close discipline and leaves no query open;
   * the query is closed exactly once when it was opened and never when opening failed.
   */
  lemma FreqQueryBalanced(a: Answers)
    ensures Replay(FreqQueryCalls(a), false) == Some(false)
    ensures CountCloses(FreqQueryCalls(a)) == if a.openStatus == 0 then 1 else 0
  {
    var calls := FreqQueryCalls(a);
    if a.openStatus != 0 {
      assert Replay(calls, false) == Replay([], false);
      assert CountCloses(calls) == CountCloses([]);
    } else if a.addStatus != 0 {
      assert Replay(calls, false) == Replay(calls[1..], true) == Replay([CloseQuery], true);
      assert CountCloses(calls) == CountCloses([CloseQuery]);
    } else {
      var tail := [GetFormattedCounterValue(a.formatStatus), CloseQuery];
      assert calls[1..][1..][1..][1..] == tail;
      assert Replay(calls, false) == Replay(calls[1..], true) == Replay(calls[1..][1..], true)
        == Replay(calls[1..][1..][1..], true) == Replay(tail, true) == Replay([CloseQuery], true);
      assert CountCloses(calls) == CountCloses(calls[1..]) == CountCloses(calls[1..][1..])
        == CountCloses(calls[1..][1..][1..]) == CountCloses(tail) == CountCloses([CloseQuery]);
    }
  }

  /** When opening fails nothing else is called: no counter is added and nothing is closed. */
  lemma OpenFailureStopsAtOpen(a: Answers)
    requires a.openStatus != 0
    ensures FreqQueryCalls(a) == [OpenQuery(a.openStatus)]
    ensures FreqQueryResult(a) == Err(Failed("PdhOpenQueryW", a.openStatus))
  {
  }

  /** When adding the counter fails, the open query is closed and nothing is collected. */
  lemma AddFailureClosesQuery(a: Answers)
    requires a.openStatus == 0 && a.addStatus != 0
    ensures FreqQueryCalls(a) == [OpenQuery(0), AddCounter(FREQUENCY_COUNTER_PATH, a.addStatus), CloseQuery]
    ensures FreqQueryResult(a) == Err(Failed("PdhAddCounterW", a.addStatus))
  {
  }

  /** When formatting fails, the query is still closed, once, before the error is returned. */
  lemma FormatFailureClosesQuery(a: Answers)
    requires a.openStatus == 0 && a.addStatus == 0 && a.formatStatus != 0
    ensures FreqQueryCalls(a)[|FreqQueryCalls(a)| - 2..] == [GetFormattedCounterValue(a.formatStatus), CloseQuery]
    ensures CountCloses(FreqQueryCalls(a)) == 1
    ensures FreqQueryResult(a) == Err(Failed("PdhGetFormattedCounterValue", a.formatStatus))
  {
    FreqQueryBalanced(a);
  }

  /** The library stays usable: a well-formed trace with no open query stays so after a reading. */
  lemma FreqQueryExtendsTrace(before: seq<Call>, a: Answers)
    requires Replay(before, false) == Some(false)
    ensures Replay(before + FreqQueryCalls(a), false) == Some(false)
  {
    ReplayAppend(before, FreqQueryCalls(a), false);
    FreqQueryBalanced(a);
  }
}
